/**
 * The blocks the server keeps for reuse: what a block really occupies, which block a
 * new buffer takes, and which blocks go back when they sit idle or exceed the byte cap.
 */
module BlockPool {
  const PAGE := 4096
  const WORD64 := 0x1_0000_0000_0000_0000
  const LOW_LIMIT := 0x4000_0000

  datatype Block = Block(id: nat, pa: nat, pages: nat, cached: bool, freed: nat)

  // ---- sizes ----

  /** `b` doubled `k` times. */
  function Shl(b: nat, k: nat): nat
    decreases k
  {
    if k == 0 then b else Shl(2 * b, k - 1)
  }

  /** Doubling from `b` until `want` fits. */
  function Doubled(b: nat, want: nat): nat
    requires b > 0
    decreases want - b
  {
    if b >= want then b else Doubled(2 * b, want)
  }

  function Footprint(pages: nat): nat { Doubled(PAGE, pages * PAGE) }

  lemma {:induction false} DoubledLeast(b: nat, want: nat, k: nat) returns (j: nat)
    requires b > 0
    ensures Doubled(b, want) == Shl(b, j) >= want
    ensures Shl(b, k) >= want ==> Doubled(b, want) <= Shl(b, k)
    decreases want - b
  {
    if b >= want {
      j := 0;
      ShlGrows(b, k);
    } else {
      var i := DoubledLeast(2 * b, want, if k == 0 then 0 else k - 1);
      j := i + 1;
    }
  }

  lemma {:induction false} ShlGrows(b: nat, k: nat)
    ensures Shl(b, k) >= b
    decreases k
  {
    if k > 0 { ShlGrows(2 * b, k - 1); }
  }

  /** A block occupies the least power-of-two number of pages that holds it. */
  lemma FootprintLeast(pages: nat, k: nat) returns (j: nat)
    ensures Footprint(pages) == Shl(PAGE, j) >= pages * PAGE
    ensures Shl(PAGE, k) >= pages * PAGE ==> Footprint(pages) <= Shl(PAGE, k)
  {
    j := DoubledLeast(PAGE, pages * PAGE, k);
  }

  method FootprintOf(pages: nat) returns (b: nat)
    ensures b == Footprint(pages)
  {
    var want := pages * PAGE;
    b := PAGE;
    while b < want
      invariant b > 0 && Doubled(b, want) == Doubled(PAGE, want)
      decreases want - b
    {
      b := 2 * b;
    }
  }

  /** The sum of two 64-bit words, as the machine has it. */
  function Sum64(a: nat, b: nat): nat {
    if a + b < WORD64 then a + b else a + b - WORD64
  }

  /** Does the range lie below the limit?  A sum that wraps is refused. */
  predicate IsLow(pa: nat, bytes: nat) {
    bytes != 0 && Sum64(pa, bytes) >= pa && Sum64(pa, bytes) <= LOW_LIMIT
  }

  predicate Admit(live: nat, foot: nat, budget: nat) { foot <= budget && live <= budget - foot }

  predicate Low(b: Block) { IsLow(b.pa, b.pages * PAGE) }

  function Bytes(pool: seq<Block>): nat {
    if pool == [] then 0 else Footprint(pool[0].pages) + Bytes(pool[1..])
  }

  lemma {:induction false} BytesConcat(a: seq<Block>, b: seq<Block>)
    ensures Bytes(a + b) == Bytes(a) + Bytes(b)
  {
    if a == [] {
      assert a + b == b;
    } else {
      assert (a + b)[1..] == a[1..] + b;
      BytesConcat(a[1..], b);
    }
  }

  // ---- taking a block out ----

  /** The last block fills the gap. */
  function Without(pool: seq<Block>, i: nat): seq<Block>
    requires i < |pool|
  {
    pool[i := pool[|pool| - 1]][..|pool| - 1]
  }

  /** The pool around block `i`; the part between it and the last block is empty when it is the last. */
  lemma Around(pool: seq<Block>, i: nat)
    requires i < |pool| - 1
    ensures pool == pool[..i] + ([pool[i]] + (pool[i + 1..|pool| - 1] + [pool[|pool| - 1]]))
    ensures Without(pool, i) == pool[..i] + ([pool[|pool| - 1]] + pool[i + 1..|pool| - 1])
  {
  }

  lemma BytesSnoc(a: seq<Block>, b: Block)
    ensures Bytes(a + [b]) == Bytes(a) + Footprint(b.pages)
  {
    BytesAround(a, b, []);
    assert [b] + [] == [b];
  }

  lemma WithoutBytes(pool: seq<Block>, i: nat)
    requires i < |pool|
    ensures Bytes(Without(pool, i)) + Footprint(pool[i].pages) == Bytes(pool)
  {
    var n := |pool| - 1;
    var last := pool[n];
    if i == n {
      assert pool == pool[..n] + [last] && Without(pool, i) == pool[..n];
      BytesSnoc(pool[..n], last);
    } else {
      var m := pool[i + 1..n];
      Around(pool, i);
      BytesAround(pool[..i], pool[i], m + [last]);
      BytesAround(pool[..i], last, m);
      BytesSnoc(m, last);
    }
  }

  lemma WithoutBlocks(pool: seq<Block>, i: nat)
    requires i < |pool|
    ensures multiset(Without(pool, i)) + multiset{pool[i]} == multiset(pool)
  {
    var n := |pool| - 1;
    if i == n {
      assert pool == pool[..n] + [pool[n]] && Without(pool, i) == pool[..n];
    } else {
      Around(pool, i);
    }
  }

  /** Taking a block out loses nothing else and gives back exactly its footprint. */
  lemma WithoutKeeps(pool: seq<Block>, i: nat)
    requires i < |pool|
    ensures multiset(Without(pool, i)) + multiset{pool[i]} == multiset(pool)
    ensures Bytes(Without(pool, i)) + Footprint(pool[i].pages) == Bytes(pool)
  {
    WithoutBlocks(pool, i);
    WithoutBytes(pool, i);
  }

  lemma BytesAround(a: seq<Block>, b: Block, c: seq<Block>)
    ensures Bytes(a + ([b] + c)) == Bytes(a) + Footprint(b.pages) + Bytes(c)
  {
    BytesConcat(a, [b] + c);
    assert ([b] + c)[1..] == c;
  }

  // ---- which block a new buffer takes ----

  predicate Fits(b: Block, pages: nat, cached: bool) { b.pages == pages && b.cached == cached }

  /** The first fitting block from `i` on that lies (or does not lie) below the limit. */
  function FirstKind(pool: seq<Block>, pages: nat, cached: bool, low: bool, i: nat): (r: int)
    requires i <= |pool|
    ensures r == -1 || i <= r < |pool|
    ensures r >= 0 ==> Fits(pool[r], pages, cached) && Low(pool[r]) == low
    ensures forall k :: i <= k < (if r < 0 then |pool| else r) && Fits(pool[k], pages, cached) ==> Low(pool[k]) != low
    decreases |pool| - i
  {
    if i == |pool| then -1
    else if Fits(pool[i], pages, cached) && Low(pool[i]) == low then i
    else FirstKind(pool, pages, cached, low, i + 1)
  }

  /** A block of the exact size and kind: below the limit if wanted low, else above it if there is one. */
  function PickIndex(pool: seq<Block>, pages: nat, cached: bool, wantLow: bool): int {
    var r := FirstKind(pool, pages, cached, wantLow, 0);
    if r < 0 && !wantLow then FirstKind(pool, pages, cached, true, 0) else r
  }

  method Pick(pool: array<Block>, n: nat, pages: nat, cached: bool, wantLow: bool) returns (r: int)
    requires n <= pool.Length
    ensures r == PickIndex(pool[..n], pages, cached, wantLow)
    ensures -1 <= r < n
    ensures r >= 0 ==> Fits(pool[r], pages, cached) && (wantLow ==> Low(pool[r]))
    ensures r < 0 ==> forall k :: 0 <= k < n && Fits(pool[k], pages, cached) ==> wantLow && !Low(pool[k])
    ensures r >= 0 && !wantLow && Low(pool[r]) ==>
              forall k :: 0 <= k < n && Fits(pool[k], pages, cached) ==> Low(pool[k])
  {
    var any := -1;
    ghost var s := pool[..n];
    for i := 0 to n
      invariant -1 <= any < i
      invariant FirstKind(s, pages, cached, wantLow, 0) == FirstKind(s, pages, cached, wantLow, i)
      invariant any < 0 && !wantLow ==> FirstKind(s, pages, cached, true, 0) == FirstKind(s, pages, cached, true, i)
      invariant any >= 0 ==> !wantLow && any == FirstKind(s, pages, cached, true, 0)
    {
      assert s[i] == pool[i];
      if pool[i].pages == pages && pool[i].cached == cached {
        var low := IsLow(pool[i].pa, pages * PAGE);
        if wantLow {
          if low { return i; }
        } else if !low {
          return i;
        } else if any < 0 {
          any := i;
        }
      }
    }
    assert forall k :: 0 <= k < n ==> s[k] == pool[k];
    return if wantLow then -1 else any;
  }

  // ---- the order in which blocks go ----

  /** `a` goes no later than `b`: above the limit first, then the older. */
  predicate NoLater(a: Block, b: Block) {
    (!Low(a) && Low(b)) || (Low(a) == Low(b) && a.freed <= b.freed)
  }

  /** The first of the blocks that go earliest. */
  function Victim(pool: seq<Block>, i: nat, best: nat): (r: nat)
    requires best < i <= |pool|
    ensures r < |pool| && (r == best || r >= i)
    decreases |pool| - i
  {
    if i == |pool| then best
    else Victim(pool, i + 1, if NoLater(pool[best], pool[i]) then best else i)
  }

  lemma {:induction false} VictimFirst(pool: seq<Block>, i: nat, best: nat)
    requires best < i <= |pool|
    requires forall k :: 0 <= k < i ==> NoLater(pool[best], pool[k])
    requires forall k :: 0 <= k < best ==> !NoLater(pool[k], pool[best])
    ensures forall k :: 0 <= k < |pool| ==> NoLater(pool[Victim(pool, i, best)], pool[k])
    ensures forall k :: 0 <= k < Victim(pool, i, best) ==> !NoLater(pool[k], pool[Victim(pool, i, best)])
    decreases |pool| - i
  {
    if i < |pool| {
      VictimFirst(pool, i + 1, if NoLater(pool[best], pool[i]) then best else i);
    }
  }

  method VictimOf(pool: array<Block>, n: nat) returns (best: int)
    requires n <= pool.Length
    ensures n == 0 ==> best == -1
    ensures n > 0 ==> best == Victim(pool[..n], 1, 0)
    ensures n > 0 ==> 0 <= best < n && forall k :: 0 <= k < n ==> NoLater(pool[best], pool[k])
  {
    best := -1;
    var bestLow := true;
    for i := 0 to n
      invariant i == 0 ==> best == -1 && bestLow
      invariant i > 0 ==> 0 <= best < i && bestLow == Low(pool[best])
      invariant i > 0 ==> Victim(pool[..n], i, best) == Victim(pool[..n], 1, 0)
    {
      var low := IsLow(pool[i].pa, pool[i].pages * PAGE);
      if best < 0 || (!low && bestLow) || (low == bestLow && pool[i].freed < pool[best].freed) {
        best := i;
        bestLow := low;
      }
    }
    if n > 0 {
      VictimFirst(pool[..n], 1, 0);
      assert forall k :: 0 <= k < n ==> pool[..n][k] == pool[k];
    }
  }

  // ---- trimming ----

  datatype Trimmed = Trimmed(kept: seq<Block>, out: seq<Block>)

  predicate Idle(b: Block, now: nat, idle: nat) { now >= b.freed && now - b.freed >= idle }

  /** Gives back every idle block from `i` on; a slot filled by the last block is looked at again. */
  function Sweep(pool: seq<Block>, i: nat, now: nat, idle: nat): Trimmed
    requires i <= |pool|
    decreases |pool| - i
  {
    if i == |pool| then Trimmed(pool, [])
    else if Idle(pool[i], now, idle) then
      var r := Sweep(Without(pool, i), i, now, idle);
      r.(out := [pool[i]] + r.out)
    else Sweep(pool, i + 1, now, idle)
  }

  /** Gives back blocks, the victim first, until the cap is met. */
  function CapTrim(pool: seq<Block>, cap: nat): Trimmed
    decreases |pool|
  {
    if pool == [] || Bytes(pool) <= cap then Trimmed(pool, [])
    else
      var v := Victim(pool, 1, 0);
      var r := CapTrim(Without(pool, v), cap);
      r.(out := [pool[v]] + r.out)
  }

  /** The idle pass, when there is an idle limit. */
  function IdleTrim(pool: seq<Block>, now: nat, idle: nat): Trimmed {
    if idle == 0 then Trimmed(pool, []) else Sweep(pool, 0, now, idle)
  }

  /** What is kept and what is given back make up the pool, in blocks and in bytes. */
  ghost predicate Accounts(r: Trimmed, pool: seq<Block>) {
    multiset(r.kept) + multiset(r.out) == multiset(pool) && Bytes(r.kept) + Bytes(r.out) == Bytes(pool)
  }

  lemma GivenBack(pool: seq<Block>, i: nat, r: Trimmed)
    requires i < |pool| && Accounts(r, Without(pool, i))
    ensures Accounts(r.(out := [pool[i]] + r.out), pool)
  {
    WithoutKeeps(pool, i);
    assert ([pool[i]] + r.out)[1..] == r.out;
  }

  lemma {:induction false} SweepKeeps(pool: seq<Block>, i: nat, now: nat, idle: nat)
    requires i <= |pool|
    ensures var r := Sweep(pool, i, now, idle);
            Accounts(r, pool)
    decreases |pool| - i
  {
    if i < |pool| {
      if Idle(pool[i], now, idle) {
        SweepKeeps(Without(pool, i), i, now, idle);
        GivenBack(pool, i, Sweep(Without(pool, i), i, now, idle));
      } else {
        SweepKeeps(pool, i + 1, now, idle);
      }
    }
  }

  lemma {:induction false} SweepIdle(pool: seq<Block>, i: nat, now: nat, idle: nat)
    requires i <= |pool| && forall k :: 0 <= k < i ==> !Idle(pool[k], now, idle)
    ensures forall b :: b in Sweep(pool, i, now, idle).kept ==> !Idle(b, now, idle)
    ensures forall b :: b in Sweep(pool, i, now, idle).out ==> Idle(b, now, idle)
    decreases |pool| - i
  {
    if i < |pool| {
      if Idle(pool[i], now, idle) {
        SweepIdle(Without(pool, i), i, now, idle);
      } else {
        SweepIdle(pool, i + 1, now, idle);
      }
    }
  }

  lemma {:induction false} CapKeeps(pool: seq<Block>, cap: nat)
    ensures var r := CapTrim(pool, cap);
            Accounts(r, pool) && Bytes(r.kept) <= cap
    decreases |pool|
  {
    if pool != [] && Bytes(pool) > cap {
      var v := Victim(pool, 1, 0);
      CapKeeps(Without(pool, v), cap);
      GivenBack(pool, v, CapTrim(Without(pool, v), cap));
    }
  }

  /** Each block that goes for the cap goes while the pool is still over it. */
  lemma {:induction false} CapNeeded(pool: seq<Block>, cap: nat, j: nat)
    requires j < |CapTrim(pool, cap).out|
    ensures Bytes(CapTrim(pool, cap).kept) + Bytes(CapTrim(pool, cap).out[j..]) > cap
    decreases |pool|
  {
    var v := Victim(pool, 1, 0);
    var r := CapTrim(Without(pool, v), cap);
    CapKeeps(pool, cap);
    assert CapTrim(pool, cap).out[1..] == r.out;
    if j == 0 {
      assert CapTrim(pool, cap).out[0..] == CapTrim(pool, cap).out;
    } else {
      CapNeeded(Without(pool, v), cap, j - 1);
      assert CapTrim(pool, cap).out[j..] == r.out[j - 1..];
    }
  }

  /** What goes for the cap precedes what stays, and goes in order. */
  lemma {:induction false} CapOrder(pool: seq<Block>, cap: nat)
    ensures var r := CapTrim(pool, cap);
            && (forall a, b :: a in r.out && b in r.kept ==> NoLater(a, b))
            && (forall j, k :: 0 <= j < k < |r.out| ==> NoLater(r.out[j], r.out[k]))
    decreases |pool|
  {
    if pool != [] && Bytes(pool) > cap {
      var v := Victim(pool, 1, 0);
      var r := CapTrim(Without(pool, v), cap);
      CapOrder(Without(pool, v), cap);
      forall b | b in r.kept || b in r.out ensures NoLater(pool[v], b) { VictimOver(pool, cap, b); }
      assert CapTrim(pool, cap) == Trimmed(r.kept, [pool[v]] + r.out);
    }
  }

  lemma VictimOver(pool: seq<Block>, cap: nat, b: Block)
    requires |pool| > 0
    requires var r := CapTrim(Without(pool, Victim(pool, 1, 0)), cap); b in r.kept || b in r.out
    ensures NoLater(pool[Victim(pool, 1, 0)], b)
  {
    var v := Victim(pool, 1, 0);
    CapMember(Without(pool, v), cap, b);
    WithoutMember(pool, v, b);
    VictimFirst(pool, 1, 0);
  }

  lemma CapMember(pool: seq<Block>, cap: nat, b: Block)
    requires b in CapTrim(pool, cap).kept || b in CapTrim(pool, cap).out
    ensures b in pool
  {
    CapKeeps(pool, cap);
    var r := CapTrim(pool, cap);
    assert b in multiset(r.kept) + multiset(r.out);
  }

  lemma WithoutMember(pool: seq<Block>, i: nat, b: Block)
    requires i < |pool| && b in Without(pool, i)
    ensures b in pool
  {
    var k :| 0 <= k < |pool| - 1 && Without(pool, i)[k] == b;
    assert b == if k == i then pool[|pool| - 1] else pool[k];
  }

  // ---- the same, in place ----

  method RemoveAt(pool: array<Block>, n: nat, bytes: nat, i: nat) returns (n': nat, bytes': nat, b: Block)
    requires i < n <= pool.Length && bytes == Bytes(pool[..n])
    modifies pool
    ensures n' == n - 1 && b == old(pool[i]) && pool[..n'] == Without(old(pool[..n]), i)
    ensures bytes' == Bytes(pool[..n'])
  {
    b := pool[i];
    var foot := FootprintOf(b.pages);
    bytes' := if bytes >= foot then bytes - foot else 0;
    WithoutBytes(pool[..n], i);
    n' := n - 1;
    pool[i] := pool[n'];
    assert pool[..n'] == Without(old(pool[..n]), i);
  }

  /** Trims the pool in place; `idled` and `capped` are the blocks given back, in order. */
  method TrimPool(pool: array<Block>, n: nat, bytes: nat, cap: nat, now: nat, idle: nat)
    returns (n': nat, bytes': nat, idled: seq<Block>, capped: seq<Block>)
    requires n <= pool.Length && bytes == Bytes(pool[..n])
    modifies pool
    ensures n' <= n && bytes' == Bytes(pool[..n'])
    ensures IdleTrim(old(pool[..n]), now, idle).out == idled
    ensures CapTrim(IdleTrim(old(pool[..n]), now, idle).kept, cap) == Trimmed(pool[..n'], capped)
  {
    n', bytes', idled := SweepPool(pool, n, bytes, now, idle);
    n', bytes', capped := CapPool(pool, n', bytes', cap);
  }

  method SweepPool(pool: array<Block>, n: nat, bytes: nat, now: nat, idle: nat)
    returns (n': nat, bytes': nat, out: seq<Block>)
    requires n <= pool.Length && bytes == Bytes(pool[..n])
    modifies pool
    ensures n' <= n && bytes' == Bytes(pool[..n'])
    ensures IdleTrim(old(pool[..n]), now, idle) == Trimmed(pool[..n'], out)
  {
    n', bytes', out := n, bytes, [];
    if idle != 0 {
      var i := 0;
      while i < n'
        invariant i <= n' <= n && bytes' == Bytes(pool[..n'])
        invariant var r := Sweep(pool[..n'], i, now, idle);
                  Sweep(old(pool[..n]), 0, now, idle) == Trimmed(r.kept, out + r.out)
        decreases n' - i
      {
        if Idle(pool[i], now, idle) {
          ghost var r := Sweep(Without(pool[..n'], i), i, now, idle);
          ghost var out0 := out;
          var b: Block;
          n', bytes', b := RemoveAt(pool, n', bytes', i);
          out := out + [b];
          assert out0 + ([b] + r.out) == out + r.out;
        } else {
          i := i + 1;
        }
      }
      assert out + [] == out;
    }
  }

  method CapPool(pool: array<Block>, n: nat, bytes: nat, cap: nat)
    returns (n': nat, bytes': nat, out: seq<Block>)
    requires n <= pool.Length && bytes == Bytes(pool[..n])
    modifies pool
    ensures n' <= n && bytes' == Bytes(pool[..n'])
    ensures CapTrim(old(pool[..n]), cap) == Trimmed(pool[..n'], out)
  {
    n', bytes', out := n, bytes, [];
    while bytes' > cap && n' > 0
      invariant n' <= n && bytes' == Bytes(pool[..n'])
      invariant var r := CapTrim(pool[..n'], cap);
                CapTrim(old(pool[..n]), cap) == Trimmed(r.kept, out + r.out)
      decreases n'
    {
      var v := VictimOf(pool, n');
      ghost var r := CapTrim(Without(pool[..n'], v), cap);
      ghost var out0 := out;
      var b: Block;
      n', bytes', b := RemoveAt(pool, n', bytes', v);
      out := out + [b];
      assert out0 + ([b] + r.out) == out + r.out;
    }
    assert out + [] == out;
  }

  /**
   * What a trim promises: nothing is lost or given back twice, no idle block stays, the
   * cap holds, each block that went for the cap had to, and went before every block that stays.
   */
  lemma TrimPromise(pool: seq<Block>, cap: nat, now: nat, idle: nat)
    ensures var s := IdleTrim(pool, now, idle);
            var r := CapTrim(s.kept, cap);
            && multiset(r.kept) + multiset(s.out) + multiset(r.out) == multiset(pool)
            && Bytes(r.kept) <= cap
            && Bytes(pool) == Bytes(r.kept) + Bytes(s.out) + Bytes(r.out)
            && (forall b :: b in s.out ==> idle != 0 && Idle(b, now, idle))
            && (idle != 0 ==> forall b :: b in r.kept ==> !Idle(b, now, idle))
            && (forall a, b :: a in r.out && b in r.kept ==> NoLater(a, b))
            && (forall j :: 0 <= j < |r.out| ==> Bytes(r.kept) + Bytes(r.out[j..]) > cap)
  {
    var s := IdleTrim(pool, now, idle);
    var r := CapTrim(s.kept, cap);
    if idle != 0 {
      SweepKeeps(pool, 0, now, idle);
      SweepIdle(pool, 0, now, idle);
    }
    CapKeeps(s.kept, cap);
    CapOrder(s.kept, cap);
    forall j | 0 <= j < |r.out| ensures Bytes(r.kept) + Bytes(r.out[j..]) > cap { CapNeeded(s.kept, cap, j); }
    forall b | idle != 0 && b in r.kept ensures !Idle(b, now, idle) { CapMember(s.kept, cap, b); }
  }
}
