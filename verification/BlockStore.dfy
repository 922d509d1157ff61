/** The pool array and the counts beside it, as the server changes them in place. */
module BlockStore {
  import opened BlockPool
  import opened Lowmem
  import opened BoMemory
  import opened BoState

  class Store {
    const pool: array<Block>
    var npool: nat
    var poolBytes: nat
    var lowLive: nat
    var holds: map<nat, Holding>
    const cap: nat
    const budget: nat
    /** Blocks are named by their order: how many the allocator has given so far. */
    var taken: nat
    /** The block in hand, and those given back. */
    ghost var hand: seq<nat>
    ghost var back: seq<nat>

    ghost predicate Valid()
      reads this
    {
      pool.Length == MAX_POOL && npool <= MAX_POOL
    }

    ghost function M(): Memory
      requires npool <= pool.Length
      reads this, pool
    {
      Memory(holds, pool[..npool], poolBytes, lowLive, hand, back, taken)
    }

    constructor (cap: nat, budget: nat)
      ensures Valid() && fresh(pool) && M() == Memory(map[], [], 0, 0, [], [], 0)
      ensures this.cap == cap && this.budget == budget
    {
      pool := new Block[MAX_POOL](_ => Block(0, 0, 0, false, 0));
      npool, poolBytes, lowLive, holds := 0, 0, 0, map[];
      this.cap, this.budget := cap, budget;
      taken, hand, back := 0, [], [];
    }

    /** A block from the pool, else fresh ones: `offers` and `extra` are what the allocator would give. */
    method Get(pages: nat, cached: bool, wantLow: bool, offers: seq<Offer>, extra: seq<nat>)
      returns (ok: bool, b: Block)
      requires Valid() && pages > 0
      modifies this, pool
      ensures Valid() && GetBlock(old(M()), pages, cached, wantLow, offers, extra) == Got(M(), ok, b)
    {
      var i := Pick(pool, npool, pages, cached, wantLow);
      if i >= 0 {
        ok, b := true, pool[i];
        TakeOut(i);
      } else if wantLow {
        ok, b := PlaceLow(pages, cached, offers, extra);
      } else {
        ok, b := MapFresh(pages, cached, extra);
      }
    }

    method TakeOut(i: nat)
      requires Valid() && i < npool
      modifies this`npool, this`poolBytes, this`hand, pool
      ensures Valid() && M() == TakePooled(old(M()), i)
    {
      ghost var before := pool[..npool];
      hand := hand + [pool[i].id];
      var foot := FootprintOf(pool[i].pages);
      poolBytes := if poolBytes >= foot then poolBytes - foot else 0;
      npool := npool - 1;
      pool[i] := pool[npool];
      assert pool[..npool] == Without(before, i);
    }

    /** One more block from the allocator, if it has one. */
    method MapFresh(pages: nat, cached: bool, extra: seq<nat>) returns (ok: bool, b: Block)
      requires Valid()
      modifies this`taken, this`hand, this`back
      ensures Valid() && GetFresh(old(M()), pages, cached, extra) == Got(M(), ok, b)
    {
      ok, b := extra != [], Block(0, 0, 0, false, 0);
      if ok {
        b := Block(taken, extra[0], pages, cached, 0);
        hand := hand + Kept(taken, 0);
        back := back + Others(taken, 1, 0);
        taken := taken + 1;
      }
    }

    method PlaceLow(pages: nat, cached: bool, offers: seq<Offer>, extra: seq<nat>) returns (ok: bool, b: Block)
      requires Valid() && pages > 0
      modifies this`taken, this`hand, this`back
      ensures Valid() && GetLow(old(M()), pages, cached, offers, extra) == Got(M(), ok, b)
    {
      var keep, n, unmapped, low := LowmemMap(offers, pages * PAGE, TRIES, taken);
      var first := taken;
      hand := hand + Kept(taken, keep);
      back := back + unmapped;
      taken := taken + n;
      if keep >= 0 {
        ok, b := true, Block(first + keep, offers[keep].first, pages, cached, 0);
      } else {
        ok, b := MapFresh(pages, cached, extra);
      }
    }

    /** The block in hand goes to the pool, which is then brought back under its cap. */
    method PutBack(b: Block, now: nat)
      requires Valid() && poolBytes == Bytes(pool[..npool])
      modifies this`npool, this`poolBytes, this`hand, this`back, pool
      ensures Valid() && M() == Put(old(M()), b, now, cap)
    {
      if npool < MAX_POOL {
        AddLast(b, now);
        if poolBytes > cap { TrimTo(now, 0); }
      } else {
        hand := [];
        back := back + [b.id];
      }
    }

    method AddLast(b: Block, now: nat)
      requires Valid() && npool < MAX_POOL && poolBytes == Bytes(pool[..npool])
      modifies this`npool, this`poolBytes, this`hand, pool
      ensures Valid() && M() == Pooled(old(M()), b, now) && poolBytes == Bytes(pool[..npool])
    {
      BytesSnoc(pool[..npool], b.(freed := now));
      var foot := FootprintOf(b.pages);
      pool[npool] := b.(freed := now);
      npool := npool + 1;
      poolBytes := poolBytes + foot;
      hand := [];
      assert pool[..npool] == old(pool[..npool]) + [b.(freed := now)];
    }

    method TrimTo(now: nat, idle: nat)
      requires Valid() && poolBytes == Bytes(pool[..npool])
      modifies this`npool, this`poolBytes, this`back, pool
      ensures Valid() && M() == Trim(old(M()), cap, now, idle)
    {
      var idled, capped: seq<Block>;
      npool, poolBytes, idled, capped := TrimPool(pool, npool, poolBytes, cap, now, idle);
      back := back + Ids(idled) + Ids(capped);
    }

    /** The block in hand becomes buffer `k`'s. */
    method Give(k: nat, b: Block, low: bool)
      modifies this`holds, this`hand, this`lowLive
      requires Valid()
      ensures Valid() && M() == Assign(old(M()), k, b, low)
    {
      holds := holds[k := Holding(b, low)];
      hand := [];
      if low {
        var foot := FootprintOf(b.pages);
        lowLive := lowLive + foot;
      }
    }

    /** Buffer `k`'s block comes back into hand. */
    method TakeBack(k: nat) returns (b: Block)
      requires Valid() && k in holds
      modifies this`holds, this`hand, this`lowLive
      ensures Valid() && M() == Release(old(M()), k) && b == old(holds)[k].block
    {
      var h := holds[k];
      b := h.block;
      holds := holds - {k};
      hand := [b.id];
      if h.low {
        var foot := FootprintOf(b.pages);
        lowLive := if lowLive >= foot then lowLive - foot else 0;
      }
    }
  }
}
