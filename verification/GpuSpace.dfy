/**
 * The GPU address space: a flat page table, a first-fit allocator of page ranges, the
 * ranges that buffers (and the overflow pool) occupy, and the translations that the
 * GPU may have cached.  Addresses are page numbers.
 */
module GpuSpace {
  const BASE := 256
  const PT_ENTRIES := 0x4_0000
  const MAX_HOLES := 2048

  /** A physical page, named by what it belongs to. */
  datatype Frame = Own(block: nat, i: nat) | Fb(buffer: nat, i: nat) | Foreign(window: nat, i: nat) | Overflow(i: nat)

  datatype Pte = Invalid | Valid(frame: Frame)

  datatype Span = Span(lo: nat, n: nat)

  /** A range handed out; not live means unmapped and waiting in quarantine since `clearGen`. */
  datatype Mapping = Mapping(span: Span, frames: seq<Frame>, live: bool, clearGen: nat)

  datatype Va = Va(pt: seq<Pte>, holes: seq<Span>, next: nat)

  datatype Table = Table(va: Va, maps: map<nat, Mapping>)

  // ---- the allocator ----

  /** The first hole from `i` on that is large enough; the number of holes if none is. */
  function FirstFit(holes: seq<Span>, n: nat, i: nat): (r: nat)
    requires i <= |holes|
    ensures i <= r <= |holes|
    ensures r < |holes| ==> holes[r].n >= n
    ensures forall k :: i <= k < r ==> holes[k].n < n
    decreases |holes| - i
  {
    if i == |holes| || holes[i].n >= n then i else FirstFit(holes, n, i + 1)
  }

  function TakeHole(holes: seq<Span>, i: nat, n: nat): seq<Span>
    requires i < |holes| && holes[i].n >= n
  {
    if holes[i].n == n then holes[i := holes[|holes| - 1]][..|holes| - 1]
    else holes[i := Span(holes[i].lo + n, holes[i].n - n)]
  }

  function Filled(pt: seq<Pte>, lo: nat, vals: seq<Pte>): (r: seq<Pte>)
    requires lo + |vals| <= |pt|
    ensures |r| == |pt|
    ensures forall p :: 0 <= p < |pt| ==> r[p] == if lo <= p < lo + |vals| then vals[p - lo] else pt[p]
  {
    pt[..lo] + vals + pt[lo + |vals|..]
  }

  function Invalids(n: nat): (r: seq<Pte>)
    ensures |r| == n && forall i :: 0 <= i < n ==> r[i] == Invalid
  {
    seq(n, _ => Invalid)
  }

  function Valids(frames: seq<Frame>): (r: seq<Pte>)
    ensures |r| == |frames| && forall i :: 0 <= i < |frames| ==> r[i] == Valid(frames[i])
  {
    seq(|frames|, i requires 0 <= i < |frames| => Valid(frames[i]))
  }

  datatype Alloc = Alloc(va: Va, ok: bool, lo: nat)

  /** A range of `n` pages: from the first hole that fits, else past everything handed out so far. */
  function VaAlloc(v: Va, n: nat): Alloc
    requires |v.pt| == PT_ENTRIES
  {
    var i := FirstFit(v.holes, n, 0);
    if i < |v.holes| then Alloc(v.(holes := TakeHole(v.holes, i, n)), true, v.holes[i].lo)
    else if v.next + n > PT_ENTRIES then Alloc(v, false, 0)
    else Alloc(Va(Filled(v.pt, v.next, Invalids(n)), v.holes, v.next + n), true, v.next)
  }

  /** A full hole list drops the range: it is lost, but never handed out twice. */
  function VaFree(v: Va, s: Span): Va {
    if |v.holes| < MAX_HOLES then v.(holes := v.holes + [s]) else v
  }

  // ---- ranges ----

  predicate Within(s: Span, next: nat) { s.n > 0 && BASE <= s.lo && s.lo + s.n <= next }

  predicate Apart(a: Span, b: Span) { a.lo + a.n <= b.lo || b.lo + b.n <= a.lo }

  ghost predicate HoleOk(v: Va, i: nat)
    requires i < |v.holes|
  {
    Within(v.holes[i], v.next)
  }

  ghost predicate HolesApart(v: Va, i: nat, j: nat)
    requires i < |v.holes| && j < |v.holes|
  {
    i != j ==> Apart(v.holes[i], v.holes[j])
  }

  ghost predicate VaOk(v: Va) {
    && |v.pt| == PT_ENTRIES && BASE <= v.next <= PT_ENTRIES
    && (forall i: nat {:trigger HoleOk(v, i)} :: i < |v.holes| ==> HoleOk(v, i))
    && (forall i: nat, j: nat {:trigger HolesApart(v, i, j)} :: i < |v.holes| && j < |v.holes| ==> HolesApart(v, i, j))
  }

  ghost predicate OffHole(v: Va, i: nat, s: Span)
    requires i < |v.holes|
  {
    Apart(v.holes[i], s)
  }

  /** A range that no hole overlaps. */
  ghost predicate Unheld(v: Va, s: Span) {
    && Within(s, v.next)
    && forall i: nat {:trigger OffHole(v, i, s)} :: i < |v.holes| ==> OffHole(v, i, s)
  }

  predicate Covers(m: Mapping, p: nat) { m.span.lo <= p < m.span.lo + m.span.n }

  /** One range, in place: inside the space, off every hole, its entries as they should be. */
  ghost predicate MapOk(t: Table, k: nat)
    requires k in t.maps
  {
    var m := t.maps[k];
    && |t.va.pt| == PT_ENTRIES && t.va.next <= PT_ENTRIES
    && |m.frames| == m.span.n && Unheld(t.va, m.span)
    && (m.live ==> forall p: nat :: Covers(m, p) ==> t.va.pt[p] == Valid(m.frames[p - m.span.lo]))
  }

  ghost predicate MapsApart(t: Table, k: nat, l: nat)
    requires k in t.maps && l in t.maps
  {
    k != l ==> Apart(t.maps[k].span, t.maps[l].span)
  }

  /** A valid entry is one of a live range. */
  ghost predicate Backed(t: Table, p: nat)
    requires p < |t.va.pt|
  {
    t.va.pt[p].Valid? ==> exists k :: k in t.maps && t.maps[k].live && Covers(t.maps[k], p)
  }

  ghost predicate TableOk(t: Table) {
    && VaOk(t.va)
    && (forall k: nat {:trigger MapOk(t, k)} :: k in t.maps ==> MapOk(t, k))
    && (forall k: nat, l: nat {:trigger MapsApart(t, k, l)} :: k in t.maps && l in t.maps ==> MapsApart(t, k, l))
    && (forall p: nat {:trigger Backed(t, p)} :: p < PT_ENTRIES ==> Backed(t, p))
  }

  ghost predicate OffMap(t: Table, k: nat, s: Span)
    requires k in t.maps
  {
    Apart(t.maps[k].span, s)
  }

  /** A range in nobody's hands: just allocated, or about to be freed. */
  ghost predicate Vacant(t: Table, s: Span) {
    && Unheld(t.va, s)
    && forall k: nat {:trigger OffMap(t, k, s)} :: k in t.maps ==> OffMap(t, k, s)
  }

  lemma AllocFits(v: Va, n: nat)
    requires VaOk(v) && VaAlloc(v, n).ok
    ensures VaAlloc(v, n).lo + n <= |VaAlloc(v, n).va.pt| == PT_ENTRIES
  {
    var i := FirstFit(v.holes, n, 0);
    if i < |v.holes| { assert HoleOk(v, i); }
  }

  // ---- allocating keeps the space in order ----

  /** Where a hole of the list after `TakeHole` comes from. */
  function Source(holes: seq<Span>, i: nat, n: nat, j: nat): nat
    requires i < |holes|
  {
    if holes[i].n == n && j == i then |holes| - 1 else j
  }

  lemma HoleSource(holes: seq<Span>, i: nat, n: nat, j: nat)
    requires i < |holes| && holes[i].n >= n && j < |TakeHole(holes, i, n)|
    ensures Source(holes, i, n, j) < |holes|
    ensures var h, o := TakeHole(holes, i, n)[j], holes[Source(holes, i, n, j)];
            if Source(holes, i, n, j) == i then h == Span(o.lo + n, o.n - n) && o.n > n else h == o
  {
  }

  lemma TakeHoleKeeps(v: Va, i: nat, n: nat)
    requires VaOk(v) && i < |v.holes| && v.holes[i].n >= n > 0
    ensures VaOk(v.(holes := TakeHole(v.holes, i, n)))
    ensures Unheld(v.(holes := TakeHole(v.holes, i, n)), Span(v.holes[i].lo, n))
  {
    var v', s := v.(holes := TakeHole(v.holes, i, n)), Span(v.holes[i].lo, n);
    assert HoleOk(v, i);
    forall j: nat | j < |v'.holes| ensures HoleOk(v', j) && OffHole(v', j, s) {
      HoleSource(v.holes, i, n, j);
      assert HoleOk(v, Source(v.holes, i, n, j)) && HolesApart(v, i, Source(v.holes, i, n, j));
    }
    forall j: nat, k: nat | j < |v'.holes| && k < |v'.holes| ensures HolesApart(v', j, k) {
      HoleSource(v.holes, i, n, j);
      HoleSource(v.holes, i, n, k);
      assert HolesApart(v, Source(v.holes, i, n, j), Source(v.holes, i, n, k));
    }
  }

  /** A range off every hole stays so, and is apart from what the hole gave. */
  lemma TakeHoleOff(v: Va, i: nat, n: nat, s: Span)
    requires Unheld(v, s) && i < |v.holes| && v.holes[i].n >= n > 0
    ensures Unheld(v.(holes := TakeHole(v.holes, i, n)), s) && Apart(s, Span(v.holes[i].lo, n))
  {
    var v' := v.(holes := TakeHole(v.holes, i, n));
    assert OffHole(v, i, s);
    forall j: nat | j < |v'.holes| ensures OffHole(v', j, s) {
      HoleSource(v.holes, i, n, j);
      assert OffHole(v, Source(v.holes, i, n, j), s);
    }
  }

  lemma AllocHole(t: Table, i: nat, n: nat)
    requires TableOk(t) && i < |t.va.holes| && t.va.holes[i].n >= n > 0
    ensures var t' := t.(va := t.va.(holes := TakeHole(t.va.holes, i, n)));
            TableOk(t') && Vacant(t', Span(t.va.holes[i].lo, n))
  {
    var s := Span(t.va.holes[i].lo, n);
    var t' := t.(va := t.va.(holes := TakeHole(t.va.holes, i, n)));
    TakeHoleKeeps(t.va, i, n);
    forall k: nat | k in t'.maps ensures MapOk(t', k) && OffMap(t', k, s) {
      assert MapOk(t, k);
      TakeHoleOff(t.va, i, n, t.maps[k].span);
    }
    forall k: nat, l: nat | k in t'.maps && l in t'.maps ensures MapsApart(t', k, l) { assert MapsApart(t, k, l); }
    forall p: nat | p < PT_ENTRIES ensures Backed(t', p) { assert Backed(t, p); }
  }

  function Bumped(v: Va, n: nat): Va
    requires |v.pt| == PT_ENTRIES && v.next + n <= PT_ENTRIES
  {
    Va(Filled(v.pt, v.next, Invalids(n)), v.holes, v.next + n)
  }

  lemma BumpOff(v: Va, n: nat, s: Span)
    requires Unheld(v, s) && |v.pt| == PT_ENTRIES && v.next + n <= PT_ENTRIES
    ensures Unheld(Bumped(v, n), s)
  {
    forall i: nat | i < |v.holes| ensures OffHole(Bumped(v, n), i, s) { assert OffHole(v, i, s); }
  }

  lemma BumpVa(v: Va, n: nat)
    requires VaOk(v) && n > 0 && v.next + n <= PT_ENTRIES
    ensures VaOk(Bumped(v, n)) && Unheld(Bumped(v, n), Span(v.next, n))
  {
    var v' := Bumped(v, n);
    forall i: nat | i < |v.holes| ensures HoleOk(v', i) && OffHole(v', i, Span(v.next, n)) { assert HoleOk(v, i); }
    forall i: nat, j: nat | i < |v.holes| && j < |v.holes| ensures HolesApart(v', i, j) { assert HolesApart(v, i, j); }
  }

  lemma AllocBump(t: Table, n: nat)
    requires TableOk(t) && n > 0 && t.va.next + n <= PT_ENTRIES
    ensures TableOk(t.(va := Bumped(t.va, n))) && Vacant(t.(va := Bumped(t.va, n)), Span(t.va.next, n))
  {
    var t' := t.(va := Bumped(t.va, n));
    BumpVa(t.va, n);
    forall k: nat | k in t'.maps ensures MapOk(t', k) && OffMap(t', k, Span(t.va.next, n)) {
      assert MapOk(t, k);
      BumpOff(t.va, n, t.maps[k].span);
    }
    forall k: nat, l: nat | k in t'.maps && l in t'.maps ensures MapsApart(t', k, l) { assert MapsApart(t, k, l); }
    forall p: nat | p < PT_ENTRIES ensures Backed(t', p) { assert Backed(t, p); }
  }

  /** What the allocator hands out overlaps nothing: no hole, no buffer, live or in quarantine. */
  lemma AllocKeeps(t: Table, n: nat)
    requires TableOk(t) && n > 0 && VaAlloc(t.va, n).ok
    ensures TableOk(t.(va := VaAlloc(t.va, n).va))
    ensures Vacant(t.(va := VaAlloc(t.va, n).va), Span(VaAlloc(t.va, n).lo, n))
  {
    var i := FirstFit(t.va.holes, n, 0);
    if i < |t.va.holes| { AllocHole(t, i, n); } else { AllocBump(t, n); }
  }

  lemma FreeKeeps(t: Table, s: Span)
    requires TableOk(t) && Vacant(t, s)
    ensures TableOk(t.(va := VaFree(t.va, s)))
  {
    var v := t.va;
    var v' := VaFree(v, s);
    var t' := t.(va := v');
    forall i: nat | i < |v'.holes| ensures HoleOk(v', i) { if i < |v.holes| { assert HoleOk(v, i); } }
    forall i: nat, j: nat | i < |v'.holes| && j < |v'.holes| ensures HolesApart(v', i, j) {
      if i < |v.holes| && j < |v.holes| { assert HolesApart(v, i, j); }
      else if i < |v.holes| { assert OffHole(v, i, s); }
      else if j < |v.holes| { assert OffHole(v, j, s); }
    }
    forall k: nat | k in t'.maps ensures MapOk(t', k) {
      assert MapOk(t, k) && OffMap(t, k, s);
      FreeOff(v, s, t.maps[k].span);
    }
    forall k: nat, l: nat | k in t'.maps && l in t'.maps ensures MapsApart(t', k, l) { assert MapsApart(t, k, l); }
    forall p: nat | p < PT_ENTRIES ensures Backed(t', p) { assert Backed(t, p); }
  }

  lemma FreeOff(v: Va, s: Span, u: Span)
    requires Unheld(v, u) && Apart(u, s)
    ensures Unheld(VaFree(v, s), u)
  {
    var v' := VaFree(v, s);
    forall i: nat | i < |v'.holes| ensures OffHole(v', i, u) { if i < |v.holes| { assert OffHole(v, i, u); } }
  }

  // ---- mapping and unmapping ----

  /** A buffer takes a vacant range: every page of it becomes valid. */
  function MapIn(t: Table, k: nat, s: Span, frames: seq<Frame>): Table
    requires s.lo + |frames| <= |t.va.pt|
  {
    Table(t.va.(pt := Filled(t.va.pt, s.lo, Valids(frames))), t.maps[k := Mapping(s, frames, true, 0)])
  }

  /** A buffer goes to quarantine: its entries are cleared, its range stays its own. */
  function Clear(t: Table, k: nat, gen: nat): Table
    requires k in t.maps && t.maps[k].span.lo + t.maps[k].span.n <= |t.va.pt|
  {
    var m := t.maps[k];
    Table(t.va.(pt := Filled(t.va.pt, m.span.lo, Invalids(m.span.n))), t.maps[k := m.(live := false, clearGen := gen)])
  }

  /** A buffer leaves quarantine: its range goes back to the holes. */
  function Drop(t: Table, k: nat): Table
    requires k in t.maps
  {
    Table(VaFree(t.va, t.maps[k].span), t.maps - {k})
  }

  lemma PtOff(v: Va, pt: seq<Pte>, s: Span)
    requires Unheld(v, s)
    ensures Unheld(v.(pt := pt), s)
  {
    forall i: nat | i < |v.holes| ensures OffHole(v.(pt := pt), i, s) { assert OffHole(v, i, s); }
  }

  lemma PtVa(v: Va, pt: seq<Pte>)
    requires VaOk(v) && |pt| == |v.pt|
    ensures VaOk(v.(pt := pt))
  {
    var v' := v.(pt := pt);
    forall i: nat | i < |v.holes| ensures HoleOk(v', i) { assert HoleOk(v, i); }
    forall i: nat, j: nat | i < |v.holes| && j < |v.holes| ensures HolesApart(v', i, j) { assert HolesApart(v, i, j); }
  }

  lemma MapInKeeps(t: Table, k: nat, s: Span, frames: seq<Frame>)
    requires TableOk(t) && k !in t.maps && Vacant(t, s) && |frames| == s.n
    ensures TableOk(MapIn(t, k, s, frames))
  {
    var t' := MapIn(t, k, s, frames);
    PtVa(t.va, t'.va.pt);
    PtOff(t.va, t'.va.pt, s);
    forall l: nat | l in t'.maps ensures MapOk(t', l) {
      if l != k {
        assert MapOk(t, l) && OffMap(t, l, s);
        PtOff(t.va, t'.va.pt, t.maps[l].span);
      }
    }
    forall l: nat, m: nat | l in t'.maps && m in t'.maps ensures MapsApart(t', l, m) {
      if l != k && m != k { assert MapsApart(t, l, m); }
      else if l != k { assert OffMap(t, l, s); }
      else if m != k { assert OffMap(t, m, s); }
    }
    forall p: nat | p < PT_ENTRIES ensures Backed(t', p) {
      assert Backed(t, p);
      if s.lo <= p < s.lo + s.n {
        assert t'.maps[k].live && Covers(t'.maps[k], p);
      } else if t.va.pt[p].Valid? {
        var l :| l in t.maps && t.maps[l].live && Covers(t.maps[l], p);
        assert t'.maps[l] == t.maps[l];
      }
    }
  }

  lemma ClearKeeps(t: Table, k: nat, gen: nat)
    requires TableOk(t) && k in t.maps
    ensures MapOk(t, k) && TableOk(Clear(t, k, gen))
  {
    assert MapOk(t, k);
    var t', s := Clear(t, k, gen), t.maps[k].span;
    PtVa(t.va, t'.va.pt);
    forall l: nat | l in t'.maps ensures MapOk(t', l) {
      assert MapOk(t, l) && MapsApart(t, l, k);
      PtOff(t.va, t'.va.pt, t.maps[l].span);
    }
    forall l: nat, m: nat | l in t'.maps && m in t'.maps ensures MapsApart(t', l, m) { assert MapsApart(t, l, m); }
    forall p: nat | p < PT_ENTRIES ensures Backed(t', p) {
      assert Backed(t, p);
      if t'.va.pt[p].Valid? {
        var l :| l in t.maps && t.maps[l].live && Covers(t.maps[l], p);
        assert t'.maps[l] == t.maps[l];
      }
    }
  }

  lemma DropKeeps(t: Table, k: nat)
    requires TableOk(t) && k in t.maps && !t.maps[k].live
    ensures TableOk(Drop(t, k))
  {
    var t1, s := t.(maps := t.maps - {k}), t.maps[k].span;
    forall l: nat | l in t1.maps ensures MapOk(t1, l) && OffMap(t1, l, s) { assert MapOk(t, l) && MapsApart(t, l, k); }
    forall l: nat, m: nat | l in t1.maps && m in t1.maps ensures MapsApart(t1, l, m) { assert MapsApart(t, l, m); }
    forall p: nat | p < PT_ENTRIES ensures Backed(t1, p) {
      assert Backed(t, p);
      if t.va.pt[p].Valid? {
        var l :| l in t.maps && t.maps[l].live && Covers(t.maps[l], p);
        assert l in t1.maps && t1.maps[l] == t.maps[l];
      }
    }
    assert MapOk(t, k);
    FreeKeeps(t1, s);
  }

  /** An entry is valid exactly when its page belongs to a live range. */
  lemma ValidIffLive(t: Table, p: nat)
    requires TableOk(t) && p < PT_ENTRIES
    ensures t.va.pt[p].Valid? <==> exists k :: k in t.maps && t.maps[k].live && Covers(t.maps[k], p)
  {
    assert Backed(t, p);
    forall k | k in t.maps && t.maps[k].live && Covers(t.maps[k], p) ensures t.va.pt[p].Valid? { assert MapOk(t, k); }
  }
}
