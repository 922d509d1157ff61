/**
 * Where the memory blocks are: in a buffer, in the pool, in hand inside one step, or
 * back with the allocator.  Blocks are numbered in the order they were taken.
 */
module BoMemory {
  import opened BlockPool
  import opened Lowmem

  const MAX_BOS := 4096
  const MAX_POOL := 1024

  /** A buffer's own block, and whether it counts against the low-memory budget. */
  datatype Holding = Holding(block: Block, low: bool)

  datatype Memory = Memory(holds: map<nat, Holding>, pool: seq<Block>, poolBytes: nat, lowLive: nat,
                           hand: seq<nat>, back: seq<nat>, taken: nat)

  function Ids(s: seq<Block>): (r: seq<nat>)
    ensures |r| == |s| && forall i :: 0 <= i < |s| ==> r[i] == s[i].id
  {
    seq(|s|, i requires 0 <= i < |s| => s[i].id)
  }

  /** The blocks that the buffers below slot `n` hold, and the low bytes among them. */
  function Held(holds: map<nat, Holding>, n: nat): multiset<nat> {
    if n == 0 then multiset{}
    else Held(holds, n - 1) + (if n - 1 in holds then multiset{holds[n - 1].block.id} else multiset{})
  }

  function LowBytes(holds: map<nat, Holding>, n: nat): nat {
    if n == 0 then 0
    else LowBytes(holds, n - 1) +
         (if n - 1 in holds && holds[n - 1].low then Footprint(holds[n - 1].block.pages) else 0)
  }

  function Numbers(n: nat): multiset<nat> {
    if n == 0 then multiset{} else Numbers(n - 1) + multiset{n - 1}
  }

  /** Every block ever taken is in one place, once. */
  ghost predicate Conserved(m: Memory) {
    multiset(Ids(m.pool)) + Held(m.holds, MAX_BOS) + multiset(m.hand) + multiset(m.back) == Numbers(m.taken)
  }

  ghost predicate HoldOk(m: Memory, k: nat)
    requires k in m.holds
  {
    k < MAX_BOS && (m.holds[k].low ==> Low(m.holds[k].block))
  }

  ghost predicate MemoryOk(m: Memory, cap: nat, budget: nat) {
    && Conserved(m)
    && m.poolBytes == Bytes(m.pool) <= cap && |m.pool| <= MAX_POOL
    && m.lowLive == LowBytes(m.holds, MAX_BOS) <= budget
    && (forall k {:trigger HoldOk(m, k)} :: k in m.holds ==> HoldOk(m, k))
  }

  lemma {:induction false} NumbersOnce(n: nat, i: nat)
    ensures Numbers(n)[i] == if i < n then 1 else 0
  {
    if n > 0 { NumbersOnce(n - 1, i); }
  }

  lemma {:induction false} HeldBy(holds: map<nat, Holding>, n: nat, k: nat)
    requires k in holds && k < n
    ensures holds[k].block.id in Held(holds, n)
  {
    if k < n - 1 { HeldBy(holds, n - 1, k); }
  }

  lemma {:induction false} HeldTwice(holds: map<nat, Holding>, n: nat, k: nat, l: nat)
    requires k in holds && l in holds && k < l < n && holds[k].block.id == holds[l].block.id
    ensures Held(holds, n)[holds[k].block.id] >= 2
  {
    if l < n - 1 { HeldTwice(holds, n - 1, k, l); } else { HeldBy(holds, n - 1, k); }
  }

  /** A buffer's block is in no other buffer, not in the pool, and not given back. */
  lemma OneHome(m: Memory, k: nat)
    requires Conserved(m) && k in m.holds && k < MAX_BOS
    ensures forall l :: l in m.holds && l < MAX_BOS && l != k ==> m.holds[l].block.id != m.holds[k].block.id
    ensures forall i :: 0 <= i < |m.pool| ==> m.pool[i].id != m.holds[k].block.id
    ensures m.holds[k].block.id !in m.back && m.holds[k].block.id !in m.hand
  {
    var id := m.holds[k].block.id;
    NumbersOnce(m.taken, id);
    HeldBy(m.holds, MAX_BOS, k);
    forall i | 0 <= i < |m.pool| ensures m.pool[i].id != id { assert m.pool[i].id == Ids(m.pool)[i]; }
    forall l | l in m.holds && l < MAX_BOS && l != k ensures m.holds[l].block.id != id {
      if m.holds[l].block.id == id { HeldTwice(m.holds, MAX_BOS, if k < l then k else l, if k < l then l else k); }
    }
  }

  /** A block given back was given back once, and is neither pooled nor in a buffer. */
  lemma GivenBackOnce(m: Memory, id: nat)
    requires Conserved(m) && id in m.back
    ensures multiset(m.back)[id] == 1
    ensures forall i :: 0 <= i < |m.pool| ==> m.pool[i].id != id
    ensures forall k :: k in m.holds && k < MAX_BOS ==> m.holds[k].block.id != id
  {
    NumbersOnce(m.taken, id);
    forall i | 0 <= i < |m.pool| ensures m.pool[i].id != id { assert m.pool[i].id == Ids(m.pool)[i]; }
    forall k | k in m.holds && k < MAX_BOS ensures m.holds[k].block.id != id { HeldBy(m.holds, MAX_BOS, k); }
  }

  // ---- the places a block moves between ----

  lemma {:induction false} HeldAdd(holds: map<nat, Holding>, n: nat, k: nat, h: Holding)
    requires k !in holds
    ensures Held(holds[k := h], n) == Held(holds, n) + (if k < n then multiset{h.block.id} else multiset{})
    ensures LowBytes(holds[k := h], n) == LowBytes(holds, n) + (if k < n && h.low then Footprint(h.block.pages) else 0)
  {
    if n > 0 { HeldAdd(holds, n - 1, k, h); }
  }

  lemma HeldDrop(holds: map<nat, Holding>, n: nat, k: nat)
    requires k in holds && k < n
    ensures Held(holds - {k}, n) + multiset{holds[k].block.id} == Held(holds, n)
    ensures LowBytes(holds - {k}, n) + (if holds[k].low then Footprint(holds[k].block.pages) else 0) == LowBytes(holds, n)
  {
    HeldAdd(holds - {k}, n, k, holds[k]);
    assert (holds - {k})[k := holds[k]] == holds;
  }

  lemma IdsConcat(a: seq<Block>, b: seq<Block>)
    ensures Ids(a + b) == Ids(a) + Ids(b)
  {
  }

  /** The same blocks have the same numbers. */
  lemma {:induction false} IdsSame(a: seq<Block>, b: seq<Block>)
    requires multiset(a) == multiset(b)
    ensures multiset(Ids(a)) == multiset(Ids(b))
    decreases |a|
  {
    if a == [] {
      assert |multiset(b)| == 0;
      assert b == [];
    } else {
      assert a[0] in multiset(b);
      var j :| 0 <= j < |b| && b[j] == a[0];
      var c := Cut(b, j);
      CutOne(a, 0);
      CutOne(b, j);
      assert Cut(a, 0) == a[1..];
      Cancel(multiset(a[1..]), multiset(c), a[0]);
      IdsSame(a[1..], c);
    }
  }

  function Cut(s: seq<Block>, j: nat): seq<Block>
    requires j < |s|
  {
    s[..j] + s[j + 1..]
  }

  lemma CutOne(s: seq<Block>, j: nat)
    requires j < |s|
    ensures multiset(s) == multiset(Cut(s, j)) + multiset{s[j]}
    ensures multiset(Ids(s)) == multiset(Ids(Cut(s, j))) + multiset{s[j].id}
  {
    assert s == s[..j] + [s[j]] + s[j + 1..];
    assert Ids(s) == Ids(s[..j]) + [s[j].id] + Ids(s[j + 1..]);
    IdsConcat(s[..j], s[j + 1..]);
  }

  lemma Cancel<T>(a: multiset<T>, b: multiset<T>, x: T)
    requires a + multiset{x} == b + multiset{x}
    ensures a == b
  {
    assert a == (a + multiset{x}) - multiset{x};
    assert b == (b + multiset{x}) - multiset{x};
  }

  lemma IdsSplit(pool: seq<Block>, kept: seq<Block>, out: seq<Block>)
    requires multiset(kept) + multiset(out) == multiset(pool)
    ensures multiset(Ids(kept)) + multiset(Ids(out)) == multiset(Ids(pool))
  {
    IdsSame(pool, kept + out);
    IdsConcat(kept, out);
  }

  lemma IdsWithout(pool: seq<Block>, i: nat)
    requires i < |pool|
    ensures multiset(Ids(Without(pool, i))) + multiset{pool[i].id} == multiset(Ids(pool))
  {
    WithoutBlocks(pool, i);
    IdsSplit(pool, Without(pool, i), [pool[i]]);
    assert Ids([pool[i]]) == [pool[i].id];
  }

  // ---- taking a block ----

  /** A pooled block goes into hand. */
  function TakePooled(m: Memory, i: nat): Memory
    requires i < |m.pool|
  {
    var b := m.pool[i];
    m.(pool := Without(m.pool, i), hand := m.hand + [b.id],
       poolBytes := if m.poolBytes >= Footprint(b.pages) then m.poolBytes - Footprint(b.pages) else 0)
  }

  /** `n` fresh blocks, of which one may be kept; the others are given back. */
  function TakeFresh(m: Memory, n: nat, keep: int): Memory
    requires -1 <= keep < n
  {
    m.(taken := m.taken + n,
       hand := m.hand + Kept(m.taken, keep),
       back := m.back + Others(m.taken, n, keep))
  }

  function Kept(d: nat, keep: int): seq<nat> { if keep >= 0 then [d + keep] else [] }

  lemma FreshCount(d: nat, n: nat, keep: int, x: nat)
    requires -1 <= keep < n
    ensures Numbers(d + n)[x] == Numbers(d)[x] + multiset(Others(d, n, keep))[x] + multiset(Kept(d, keep))[x]
  {
    NumbersOnce(d + n, x);
    NumbersOnce(d, x);
    OthersOnce(d, n, keep, x);
    assert multiset(Kept(d, keep))[x] == if keep >= 0 && x == d + keep then 1 else 0;
  }

  /** The fresh blocks' numbers are the kept one's and the others'. */
  lemma FreshNumbers(d: nat, n: nat, keep: int)
    requires -1 <= keep < n
    ensures Numbers(d + n) == Numbers(d) + multiset(Others(d, n, keep)) + multiset(Kept(d, keep))
  {
    var a, b := Numbers(d + n), Numbers(d) + multiset(Others(d, n, keep)) + multiset(Kept(d, keep));
    forall x: nat ensures a[x] == b[x] { FreshCount(d, n, keep, x); }
  }

  ghost predicate SameHolds(m: Memory, m': Memory) {
    m'.holds == m.holds && m'.lowLive == m.lowLive
  }

  lemma HoldsCarry(m: Memory, m': Memory)
    requires SameHolds(m, m') && forall k {:trigger HoldOk(m, k)} :: k in m.holds ==> HoldOk(m, k)
    ensures forall k {:trigger HoldOk(m', k)} :: k in m'.holds ==> HoldOk(m', k)
  {
    forall k | k in m'.holds ensures HoldOk(m', k) { assert HoldOk(m, k); }
  }

  lemma TakePooledKeeps(m: Memory, i: nat, cap: nat, budget: nat)
    requires MemoryOk(m, cap, budget) && i < |m.pool|
    ensures MemoryOk(TakePooled(m, i), cap, budget)
  {
    WithoutBytes(m.pool, i);
    IdsWithout(m.pool, i);
    HoldsCarry(m, TakePooled(m, i));
  }

  lemma TakeFreshConserves(m: Memory, n: nat, keep: int)
    requires Conserved(m) && -1 <= keep < n
    ensures Conserved(TakeFresh(m, n, keep))
  {
    FreshNumbers(m.taken, n, keep);
    var m' := TakeFresh(m, n, keep);
    assert multiset(m'.hand) == multiset(m.hand) + multiset(Kept(m.taken, keep));
    assert multiset(m'.back) == multiset(m.back) + multiset(Others(m.taken, n, keep));
  }

  lemma TakeFreshKeeps(m: Memory, n: nat, keep: int, cap: nat, budget: nat)
    requires MemoryOk(m, cap, budget) && -1 <= keep < n
    ensures MemoryOk(TakeFresh(m, n, keep), cap, budget)
  {
    TakeFreshConserves(m, n, keep);
    HoldsCarry(m, TakeFresh(m, n, keep));
  }

  // ---- giving a block back ----

  function Trim(m: Memory, cap: nat, now: nat, idle: nat): Memory {
    var s := IdleTrim(m.pool, now, idle);
    var r := CapTrim(s.kept, cap);
    m.(pool := r.kept, poolBytes := Bytes(r.kept), back := m.back + Ids(s.out) + Ids(r.out))
  }

  /** The block in hand goes to the pool, which is trimmed if that exceeds the cap. */
  function Put(m: Memory, b: Block, now: nat, cap: nat): Memory {
    if |m.pool| < MAX_POOL then
      var m1 := Pooled(m, b, now);
      if m1.poolBytes > cap then Trim(m1, cap, now, 0) else m1
    else m.(hand := [], back := m.back + [b.id])
  }

  lemma TrimConserves(m: Memory, cap: nat, now: nat, idle: nat)
    requires Conserved(m)
    ensures Conserved(Trim(m, cap, now, idle)) && |Trim(m, cap, now, idle).pool| <= |m.pool|
  {
    var s := IdleTrim(m.pool, now, idle);
    var r := CapTrim(s.kept, cap);
    TrimPromise(m.pool, cap, now, idle);
    Fewer(r.kept, s.out + r.out, m.pool);
    IdsSplit(m.pool, r.kept, s.out + r.out);
    IdsConcat(s.out, r.out);
  }

  lemma Fewer(a: seq<Block>, b: seq<Block>, c: seq<Block>)
    requires multiset(a) + multiset(b) == multiset(c)
    ensures |a| <= |c|
  {
    assert |multiset(a)| == |a| && |multiset(b)| == |b| && |multiset(c)| == |c|;
  }

  lemma TrimKeeps(m: Memory, cap: nat, budget: nat, now: nat, idle: nat)
    requires Conserved(m) && |m.pool| <= MAX_POOL
    requires m.lowLive == LowBytes(m.holds, MAX_BOS) <= budget
    requires forall k {:trigger HoldOk(m, k)} :: k in m.holds ==> HoldOk(m, k)
    ensures MemoryOk(Trim(m, cap, now, idle), cap, budget)
  {
    TrimConserves(m, cap, now, idle);
    CapKeeps(IdleTrim(m.pool, now, idle).kept, cap);
    HoldsCarry(m, Trim(m, cap, now, idle));
  }

  /** The block in hand joins the pool. */
  function Pooled(m: Memory, b: Block, now: nat): Memory {
    m.(pool := m.pool + [b.(freed := now)], hand := [], poolBytes := m.poolBytes + Footprint(b.pages))
  }

  lemma PooledConserves(m: Memory, b: Block, now: nat)
    requires Conserved(m) && m.hand == [b.id]
    ensures Conserved(Pooled(m, b, now))
  {
    assert Ids(m.pool + [b.(freed := now)]) == Ids(m.pool) + [b.id];
  }

  lemma PutShape(m: Memory, b: Block, now: nat, cap: nat)
    ensures Put(m, b, now, cap).hand == [] && SameHolds(m, Put(m, b, now, cap))
  {
  }

  lemma PutKeeps(m: Memory, b: Block, now: nat, cap: nat, budget: nat)
    requires MemoryOk(m, cap, budget) && m.hand == [b.id]
    ensures MemoryOk(Put(m, b, now, cap), cap, budget)
  {
    if |m.pool| < MAX_POOL {
      var m1 := Pooled(m, b, now);
      PooledConserves(m, b, now);
      BytesSnoc(m.pool, b.(freed := now));
      HoldsCarry(m, m1);
      if m1.poolBytes > cap { TrimKeeps(m1, cap, budget, now, 0); }
    } else {
      HoldsCarry(m, Put(m, b, now, cap));
    }
  }

  // ---- a buffer gets and loses its block ----

  function Assign(m: Memory, k: nat, b: Block, low: bool): Memory {
    m.(holds := m.holds[k := Holding(b, low)], hand := [],
       lowLive := if low then m.lowLive + Footprint(b.pages) else m.lowLive)
  }

  function Release(m: Memory, k: nat): Memory
    requires k in m.holds
  {
    var h := m.holds[k];
    m.(holds := m.holds - {k}, hand := [h.block.id],
       lowLive := if !h.low then m.lowLive
                  else if m.lowLive >= Footprint(h.block.pages) then m.lowLive - Footprint(h.block.pages) else 0)
  }

  /** Within the budget only when admitted: the admission test is what keeps the sum below it. */
  lemma AssignKeeps(m: Memory, k: nat, b: Block, low: bool, cap: nat, budget: nat)
    requires MemoryOk(m, cap, budget) && m.hand == [b.id] && k !in m.holds && k < MAX_BOS
    requires low ==> Low(b) && Admit(m.lowLive, Footprint(b.pages), budget)
    ensures MemoryOk(Assign(m, k, b, low), cap, budget)
  {
    var m' := Assign(m, k, b, low);
    HeldAdd(m.holds, MAX_BOS, k, Holding(b, low));
    forall l | l in m'.holds ensures HoldOk(m', l) { if l != k { assert HoldOk(m, l); } }
  }

  lemma ReleaseKeeps(m: Memory, k: nat, cap: nat, budget: nat)
    requires MemoryOk(m, cap, budget) && k in m.holds && m.hand == []
    ensures MemoryOk(Release(m, k), cap, budget)
  {
    assert HoldOk(m, k);
    HeldDrop(m.holds, MAX_BOS, k);
    forall l | l in Release(m, k).holds ensures HoldOk(Release(m, k), l) { assert HoldOk(m, l); }
  }
}
