/** The page table and the hole list as the server keeps them, in place. */
module GpuTable {
  import opened GpuSpace

  class AddressSpace {
    const pt: array<Pte>
    const holes: array<Span>
    var nholes: nat
    var next: nat

    ghost predicate Valid()
      reads this
    {
      pt.Length == PT_ENTRIES && holes.Length == MAX_HOLES && nholes <= MAX_HOLES && next <= PT_ENTRIES
    }

    ghost function V(): Va
      requires nholes <= holes.Length
      reads this, pt, holes
    {
      Va(pt[..], holes[..nholes], next)
    }

    constructor ()
      ensures Valid() && fresh(pt) && fresh(holes)
      ensures V() == Va(Invalids(PT_ENTRIES), [], BASE)
      ensures TableOk(Table(V(), map[]))
    {
      var table := new Pte[PT_ENTRIES](_ => Invalid);
      pt, holes := table, new Span[MAX_HOLES](_ => Span(0, 0));
      nholes, next := 0, BASE;
      new;
      assert pt[..] == Invalids(PT_ENTRIES);
      forall p: nat | p < PT_ENTRIES ensures Backed(Table(V(), map[]), p) {}
    }

    /** First-fit hole, else the next fresh range, its entries cleared. */
    method VaAlloc(n: nat) returns (ok: bool, lo: nat)
      requires Valid()
      modifies this, pt, holes
      ensures Valid()
      ensures GpuSpace.VaAlloc(old(V()), n) == Alloc(V(), ok, lo)
    {
      var i := 0;
      while i < nholes && holes[i].n < n
        invariant i <= nholes
        invariant FirstFit(holes[..nholes], n, 0) == FirstFit(holes[..nholes], n, i)
      {
        i := i + 1;
      }
      if i < nholes {
        ok, lo := true, holes[i].lo;
        TakeHoleAt(i, n);
      } else if next + n > pt.Length {
        ok, lo := false, 0;
      } else {
        ok, lo := true, next;
        next := next + n;
        ClearPtes(lo, n);
      }
    }

    method TakeHoleAt(i: nat, n: nat)
      requires Valid() && i < nholes && holes[i].n >= n
      modifies this`nholes, holes
      ensures Valid() && V() == old(V()).(holes := TakeHole(old(V()).holes, i, n))
    {
      ghost var before := holes[..nholes];
      if holes[i].n == n {
        nholes := nholes - 1;
        holes[i] := holes[nholes];
        assert holes[..nholes] == before[i := before[|before| - 1]][..|before| - 1];
      } else {
        holes[i] := Span(holes[i].lo + n, holes[i].n - n);
        assert holes[..nholes] == before[i := Span(before[i].lo + n, before[i].n - n)];
      }
    }

    /** Gives a range back; when the hole list is full the range is lost. */
    method VaFree(s: Span)
      requires Valid()
      modifies this`nholes, holes
      ensures Valid() && V() == GpuSpace.VaFree(old(V()), s)
    {
      if nholes < MAX_HOLES {
        holes[nholes] := s;
        nholes := nholes + 1;
        assert holes[..nholes] == old(holes[..nholes]) + [s];
      }
    }

    method ClearPtes(lo: nat, n: nat)
      requires Valid() && lo + n <= PT_ENTRIES
      modifies pt
      ensures V() == old(V()).(pt := Filled(old(V()).pt, lo, Invalids(n)))
    {
      for i := 0 to n
        invariant pt[..] == Filled(old(pt[..]), lo, Invalids(i))
      {
        pt[lo + i] := Invalid;
      }
    }

    /** Every page gets an entry of its own. */
    method WritePtes(lo: nat, frames: seq<Frame>)
      requires Valid() && lo + |frames| <= PT_ENTRIES
      modifies pt
      ensures V() == old(V()).(pt := Filled(old(V()).pt, lo, Valids(frames)))
    {
      for i := 0 to |frames|
        invariant pt[..] == Filled(old(pt[..]), lo, Valids(frames[..i]))
      {
        pt[lo + i] := Pte.Valid(frames[i]);
      }
      assert frames[..|frames|] == frames;
    }
  }
}
