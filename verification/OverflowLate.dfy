/**
 * What a report does that names a chunk which is not the staged one: the chunk is put on
 * a list while it is on one already, and no assignment of chunks to lists describes the
 * links any more.
 */
module OverflowLate {
  import opened Overflow

  /** The lists can be told from the links: some book accounts for every chunk. */
  ghost predicate Described(l: Links, n: nat) {
    exists b: Book :: Accounts(l, n, b)
  }

  ghost predicate Accounts(l: Links, n: nat, b: Book) {
    Ledger(b, n) && Linked(l, b)
  }

  /** A walk that never leaves `z` never ends. */
  lemma {:induction false} Endless(next: seq<int>, head: int, z: set<int>, s: seq<int>)
    requires head in z && forall c :: c in z ==> 0 <= c < |next| && next[c] in z
    ensures !Chain(next, head, s)
    decreases |s|
  {
    if Chain(next, head, s) {
      ChainTail(next, head, s);
      Endless(next, next[head], z, s[1..]);
    }
  }

  /** Each element leads to the next one. */
  ghost predicate Path(next: seq<int>, head: int, path: seq<int>) {
    && path != [] && path[0] == head
    && (forall i :: 0 <= i < |path| ==> 0 <= path[i] < |next|)
    && (forall i :: 0 <= i < |path| - 1 ==> next[path[i]] == path[i + 1])
  }

  /** A walk visits what a path from its head visits. */
  lemma {:induction false} OnTheWay(next: seq<int>, head: int, path: seq<int>, s: seq<int>)
    requires Chain(next, head, s) && Path(next, head, path)
    ensures path[|path| - 1] in s
    decreases |path|
  {
    assert s != [] && s[0] == head;
    if |path| > 1 {
      ChainTail(next, head, s);
      assert next[path[0]] == path[1];
      OnTheWay(next, path[1], path[1..], s[1..]);
      assert s == [s[0]] + s[1..];
    }
  }

  lemma OneList(b: Book, n: nat, p: Place, q: Place, c: int)
    requires Ledger(b, n) && p in b.lists && q in b.lists && c in b.lists[p] && c in b.lists[q]
    ensures p == q
  {
    assert ListOk(b, p) && ListOk(b, q);
  }

  /** Chunk `c` is the `k`th of the list at `p`. */
  ghost predicate Found(l: Links, b: Book, n: nat, p: Place, k: nat, c: int) {
    Accounts(l, n, b) && p in b.lists && k < |b.lists[p]| && b.lists[p][k] == c
  }

  lemma Find(l: Links, b: Book, n: nat, c: int) returns (p: Place, k: nat)
    requires Accounts(l, n, b) && 0 <= c < n && b.lists[Loose] == [] && |b.lists[Staged]| <= 1 && c != l.staged
    ensures Found(l, b, n, p, k, c) && p != Staged && p != Loose
  {
    assert Placed(b, c);
    p := b.at[c];
    assert ListOk(b, p) && ChainOk(l, b, Staged);
    k :| 0 <= k < |b.lists[p]| && b.lists[p][k] == c;
  }

  /** Each chunk of `v` leads to the next one, the last to none. */
  ghost predicate Follows(l: Links, v: seq<int>) {
    forall i :: 0 <= i < |v| ==> 0 <= v[i] < |l.next| && l.next[v[i]] == After(v, i)
  }

  lemma ChainPath(l: Links, head: int, s: seq<int>, k: nat)
    requires Chain(l.next, head, s) && k < |s|
    ensures Path(l.next, head, s[..k + 1]) && Follows(l, s)
  {
    var path := s[..k + 1];
    forall i | 0 <= i < |path| - 1 ensures l.next[path[i]] == path[i + 1] {
      assert path[i] == s[i] && After(s, i) == s[i + 1];
    }
  }

  lemma WalkIn(l: Links, b: Book, n: nat, p: Place, k: nat, c: int)
    requires Found(l, b, n, p, k, c)
    ensures Path(l.next, Head(l, p), b.lists[p][..k + 1]) && Follows(l, b.lists[p]) && Distinct(b.lists[p])
    ensures 0 <= c < |l.next|
  {
    assert ChainOk(l, b, p) && ListOk(b, p);
    ChainPath(l, Head(l, p), b.lists[p], k);
  }

  /** A path is still one where its links are. */
  lemma SamePath(next: seq<int>, next': seq<int>, head: int, path: seq<int>)
    requires Path(next, head, path) && |next'| == |next|
    requires forall i :: 0 <= i < |path| - 1 ==> next'[path[i]] == next[path[i]]
    ensures Path(next', head, path)
  {
  }

  // ---- a chunk attached to a job while it is on a list ----

  function Attached(l: Links, c: int, j: nat): Links
    requires 0 <= c < |l.next| && j in l.heads
  {
    l.(next := l.next[c := l.heads[j]], heads := l.heads[j := c])
  }

  lemma AttachedTwice(l: Links, b: Book, n: nat, p: Place, k: nat, c: int, j: nat, b': Book)
    requires Found(l, b, n, p, k, c) && p != Staged && p != Loose && j in l.heads && p != Held(j)
    ensures 0 <= c < |l.next| && !Accounts(Attached(l, c, j), n, b')
  {
    WalkIn(l, b, n, p, k, c);
    var l' := Attached(l, c, j);
    var path := b.lists[p][..k + 1];
    if Accounts(l', n, b') {
      SamePath(l.next, l'.next, Head(l, p), path);
      if p.Held? { assert Headed(l, b, p.job) && Headed(l', b', p.job); }
      assert Headed(l', b', j);
      assert ChainOk(l', b', p) && ChainOk(l', b', Held(j));
      OnTheWay(l'.next, Head(l', p), path, b'.lists[p]);
      assert b'.lists[Held(j)][0] == c;
      OneList(b', n, p, Held(j), c);
    }
  }

  lemma AttachedAgain(l: Links, b: Book, n: nat, k: nat, c: int, j: nat, b': Book)
    requires Found(l, b, n, Held(j), k, c) && j in l.heads
    ensures 0 <= c < |l.next| && !Accounts(Attached(l, c, j), n, b')
  {
    WalkIn(l, b, n, Held(j), k, c);
    var l', s := Attached(l, c, j), b.lists[Held(j)];
    if Accounts(l', n, b') {
      assert Headed(l', b', j) && ChainOk(l', b', Held(j));
      var z := set i | 0 <= i <= k :: s[i];
      assert s[k] in z && s[0] in z;
      forall x | x in z ensures 0 <= x < |l'.next| && l'.next[x] in z {
        var i :| 0 <= i <= k && s[i] == x;
        if i < k { assert s[i + 1] in z; } else { assert l'.next[x] == l.heads[j] == s[0]; }
      }
      Endless(l'.next, c, z, b'.lists[Held(j)]);
    }
  }

  /** Attaching a chunk that is on a list leaves links that no book describes. */
  lemma AttachBreaks(l: Links, b: Book, n: nat, c: int, j: nat)
    requires Accounts(l, n, b) && 0 <= c < n && b.lists[Loose] == [] && |b.lists[Staged]| <= 1 && c != l.staged
    requires j in l.heads
    ensures 0 <= c < |l.next| && !Described(Attached(l, c, j), n)
  {
    var p, k := Find(l, b, n, c);
    WalkIn(l, b, n, p, k, c);
    forall b' ensures !Accounts(Attached(l, c, j), n, b') {
      if p == Held(j) { AttachedAgain(l, b, n, k, c, j, b'); } else { AttachedTwice(l, b, n, p, k, c, j, b'); }
    }
  }

  // ---- a list freed from the middle of another ----

  lemma FollowsIn(l: Links, s: seq<int>, k: nat)
    requires k < |s| && Distinct(s) && Follows(l, s)
    ensures Follows(l, s[k..]) && Distinct(s[k..])
  {
    var v := s[k..];
    forall i | 0 <= i < |v| ensures 0 <= v[i] < |l.next| && l.next[v[i]] == After(v, i) {
      assert v[i] == s[k + i] && After(v, i) == After(s, k + i);
    }
  }

  predicate FreedAt(l: Links, l': Links, v: seq<int>, i: nat)
    requires i < |v| && 0 <= v[i] < |l'.next|
  {
    l'.next[v[i]] == if i == 0 then l.free else v[i - 1]
  }

  /** The links once the walk from `v[0]` has been put on the free list, head first. */
  ghost predicate FreedWalk(l: Links, l': Links, v: seq<int>) {
    && v != [] && |l'.next| == |l.next| && (forall i :: 0 <= i < |v| ==> 0 <= v[i] < |l.next|)
    && (forall i: nat {:trigger FreedAt(l, l', v, i)} :: i < |v| ==> FreedAt(l, l', v, i))
    && (forall x :: 0 <= x < |l.next| && x !in v ==> l'.next[x] == l.next[x])
    && l' == l.(next := l'.next, free := v[|v| - 1])
  }

  /** The successors once the first `i` chunks of `v` have been put on the free list. */
  function Relinked(next: seq<int>, free: int, v: seq<int>, i: nat): (r: seq<int>)
    requires i <= |v| && forall m :: 0 <= m < |v| ==> 0 <= v[m] < |next|
    ensures |r| == |next|
  {
    if i == 0 then next
    else Relinked(next, free, v, i - 1)[v[i - 1] := if i == 1 then free else v[i - 2]]
  }

  lemma {:induction false} RelinkedAt(next: seq<int>, free: int, v: seq<int>, i: nat, x: int)
    requires i <= |v| && Distinct(v) && (forall m :: 0 <= m < |v| ==> 0 <= v[m] < |next|) && 0 <= x < |next|
    ensures x !in v[..i] ==> Relinked(next, free, v, i)[x] == next[x]
    ensures forall m :: 0 <= m < i && v[m] == x ==> Relinked(next, free, v, i)[x] == if m == 0 then free else v[m - 1]
    decreases i
  {
    if i > 0 {
      RelinkedAt(next, free, v, i - 1, x);
      assert v[..i] == v[..i - 1] + [v[i - 1]];
    }
  }

  lemma RelinkedWalk(l: Links, l': Links, v: seq<int>)
    requires v != [] && Distinct(v) && Follows(l, v)
    requires l' == l.(next := Relinked(l.next, l.free, v, |v|), free := v[|v| - 1])
    ensures FreedWalk(l, l', v)
  {
    forall i: nat | i < |v| ensures FreedAt(l, l', v, i) { RelinkedAt(l.next, l.free, v, |v|, v[i]); }
    forall x | 0 <= x < |l.next| && x !in v ensures l'.next[x] == l.next[x] {
      assert v[..|v|] == v;
      RelinkedAt(l.next, l.free, v, |v|, x);
    }
  }

  /** Freeing a chunk of the free list turns that list into a circle. */
  lemma FreedAgain(l: Links, l': Links, b: Book, n: nat, k: nat, c: int, b': Book)
    requires Found(l, b, n, Free, k, c) && FreedWalk(l, l', b.lists[Free][k..])
    ensures !Accounts(l', n, b')
  {
    WalkIn(l, b, n, Free, k, c);
    var s := b.lists[Free];
    if Accounts(l', n, b') {
      assert ChainOk(l', b', Free);
      var z := set i | 0 <= i < |s| :: s[i];
      assert s[0] in z && s[|s| - 1] in z;
      forall x | x in z ensures 0 <= x < |l'.next| && l'.next[x] in z {
        var i :| 0 <= i < |s| && s[i] == x;
        var m := FreedLink(l, l', s, k, i);
        assert s[m] in z;
      }
      Endless(l'.next, l'.free, z, b'.lists[Free]);
    }
  }

  /** The successor of a chunk of the list is on the list again. */
  lemma FreedLink(l: Links, l': Links, s: seq<int>, k: nat, i: nat) returns (m: nat)
    requires k < |s| && i < |s| && Distinct(s) && FreedWalk(l, l', s[k..]) && l.free == s[0]
    requires 0 <= s[i] < |l.next| && l.next[s[i]] == After(s, i)
    ensures m < |s| && s[m] == l'.next[s[i]]
  {
    var v := s[k..];
    if i >= k {
      m := if i == k then 0 else i - 1;
      assert FreedAt(l, l', v, i - k);
    } else {
      m := i + 1;
      assert s[i] !in v by { forall t | 0 <= t < |v| ensures v[t] != s[i] { assert v[t] == s[k + t]; } }
    }
  }

  /** Freeing a chunk of a job's list leaves it on both. */
  lemma FreedTwice(l: Links, l': Links, b: Book, n: nat, j: nat, k: nat, c: int, b': Book)
    requires Found(l, b, n, Held(j), k, c) && FreedWalk(l, l', b.lists[Held(j)][k..])
    ensures !Accounts(l', n, b')
  {
    WalkIn(l, b, n, Held(j), k, c);
    var s := b.lists[Held(j)];
    var v := s[k..];
    if Accounts(l', n, b') {
      var path := s[..k + 1];
      forall i | 0 <= i < |path| - 1 ensures l'.next[path[i]] == l.next[path[i]] {
        assert path[i] == s[i] && s[i] !in v;
      }
      SamePath(l.next, l'.next, Head(l, Held(j)), path);
      assert Headed(l, b, j) && Headed(l', b', j) && ChainOk(l', b', Held(j)) && ChainOk(l', b', Free);
      OnTheWay(l'.next, Head(l', Held(j)), path, b'.lists[Held(j)]);
      BackPath(l, l', v);
      OnTheWay(l'.next, l'.free, Back(v), b'.lists[Free]);
      OneList(b', n, Free, Held(j), c);
    }
  }

  function Back(v: seq<int>): (r: seq<int>)
    ensures |r| == |v| && forall i :: 0 <= i < |v| ==> r[i] == v[|v| - 1 - i]
  {
    seq(|v|, i requires 0 <= i < |v| => v[|v| - 1 - i])
  }

  lemma BackPath(l: Links, l': Links, v: seq<int>)
    requires FreedWalk(l, l', v)
    ensures Path(l'.next, l'.free, Back(v)) && Back(v)[|v| - 1] == v[0]
  {
    var w := Back(v);
    forall i | 0 <= i < |w| - 1 ensures l'.next[w[i]] == w[i + 1] {
      assert FreedAt(l, l', v, |v| - 1 - i);
    }
  }

  /** Freeing a chunk that is on a list leaves links that no book describes. */
  lemma FreeBreaks(l: Links, l': Links, b: Book, n: nat, p: Place, k: nat, c: int)
    requires Found(l, b, n, p, k, c) && p != Staged && p != Loose && FreedWalk(l, l', b.lists[p][k..])
    ensures !Described(l', n)
  {
    forall b' ensures !Accounts(l', n, b') {
      if p == Free { FreedAgain(l, l', b, n, k, c, b'); } else { FreedTwice(l, l', b, n, p.job, k, c, b'); }
    }
  }
}
