/**
 * Placing a scan-out buffer below the display limit: fresh blocks are taken from the
 * allocator until one lies low enough; all the others are given back.
 */
module Lowmem {
  import opened BlockPool

  const TRIES := 16
  const NOWHERE := 0xffff_ffff_ffff_ffff

  /** The physical addresses of a fresh block's first and last page. */
  datatype Offer = Offer(first: nat, last: nat)

  /** Not torn, and resolved at all. */
  predicate Whole(o: Offer, bytes: nat)
    requires bytes >= PAGE
  {
    o.first != NOWHERE && o.last == Sum64(o.first, bytes - PAGE)
  }

  predicate Placeable(o: Offer, bytes: nat)
    requires bytes >= PAGE
  {
    Whole(o, bytes) && IsLow(o.first, bytes)
  }

  /** The `n` numbers from `d` on, in order, but for the `keep`th. */
  function Others(d: nat, n: nat, keep: int): seq<nat>
    decreases n
  {
    if n == 0 then []
    else if n - 1 == keep then Others(d, n - 1, keep)
    else Others(d, n - 1, keep) + [d + (n - 1)]
  }

  /** Each number but the kept one, once. */
  lemma {:induction false} OthersOnce(d: nat, n: nat, keep: int, i: nat)
    ensures multiset(Others(d, n, keep))[i] == if d <= i < d + n && i - d != keep then 1 else 0
    decreases n
  {
    if n > 0 { OthersOnce(d, n - 1, keep, i); }
  }

  /** How many blocks may be tried, with what the allocator has. */
  function Limit(tries: nat, available: nat): nat {
    if available < Most(tries) then available else Most(tries)
  }

  datatype Found = Found(keep: int, n: nat, low: bool)

  /** Blocks taken from the `i`th on, `keep` being the last whole one so far. */
  function Search(offers: seq<Offer>, bytes: nat, most: nat, i: nat, keep: int): (r: Found)
    requires bytes >= PAGE && -1 <= keep < i && keep < |offers|
    ensures -1 <= r.keep < r.n && r.keep < |offers|
    decreases |offers| - i
  {
    if i >= most || i >= |offers| then Found(keep, i, false)
    else if Placeable(offers[i], bytes) then Found(i, i + 1, true)
    else Search(offers, bytes, most, i + 1, if Whole(offers[i], bytes) then i else keep)
  }

  function Most(tries: nat): nat { if tries > TRIES then TRIES else tries }

  /**
   * `offers` are the blocks the allocator would give, numbered from `d` on.  Takes `n` of them and
   * keeps one: the first below the limit, else the last that is whole.  Every other
   * block taken is given back, once.
   */
  method LowmemMap(offers: seq<Offer>, bytes: nat, tries: nat, d: nat)
    returns (keep: int, n: nat, unmapped: seq<nat>, low: bool)
    ensures bytes == 0 || bytes % PAGE != 0 ==> keep == -1 && n == 0 && unmapped == [] && !low
    ensures -1 <= keep < n <= |offers| && unmapped == Others(d, n, keep)
    ensures bytes > 0 && bytes % PAGE == 0 ==> Found(keep, n, low) == Search(offers, bytes, Most(tries), 0, -1)
    ensures bytes > 0 && bytes % PAGE == 0 ==>
              && (keep >= 0 ==> Whole(offers[keep], bytes) && (low <==> IsLow(offers[keep].first, bytes)))
              && (low ==> keep >= 0 && n == keep + 1)
              && (forall i :: 0 <= i < n && i != keep ==> !Placeable(offers[i], bytes))
              && (!low ==> n == Limit(tries, |offers|) && forall i :: keep < i < n ==> !Whole(offers[i], bytes))
  {
    keep, n, unmapped, low := -1, 0, [], false;
    if bytes == 0 || bytes % PAGE != 0 {
      return;
    }
    var most := Most(tries);
    while n < most && !low && n < |offers|
      invariant -1 <= keep < n <= |offers| && n <= most
      invariant keep >= 0 ==> Whole(offers[keep], bytes) && (low <==> IsLow(offers[keep].first, bytes))
      invariant low ==> keep >= 0 && n == keep + 1
      invariant forall i :: 0 <= i < n && (i != keep || !low) ==> !Placeable(offers[i], bytes)
      invariant forall i :: keep < i < n ==> !Whole(offers[i], bytes)
      invariant !low ==> Search(offers, bytes, most, n, keep) == Search(offers, bytes, most, 0, -1)
      invariant low ==> Found(keep, n, true) == Search(offers, bytes, most, 0, -1)
    {
      if Whole(offers[n], bytes) {
        keep := n;
        low := IsLow(offers[n].first, bytes);
      }
      n := n + 1;
    }
    for i := 0 to n
      invariant unmapped == Others(d, i, keep)
    {
      if i != keep { unmapped := unmapped + [d + i]; }
    }
  }
}
