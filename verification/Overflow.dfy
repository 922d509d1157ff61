/**
 * The binner-overflow pool: equal chunks of GPU memory that move between the free
 * list, the chunk armed for the interrupt handler, and the lists of the jobs whose
 * tile data they hold.  All lists are threaded through one array of successors.
 */
module Overflow {
  const MAX_CHUNKS := 512
  const POOL_BYTES := 0x200_0000
  const MIN_CHUNK := 0x1_0000
  const PAGE := 4096
  const WORD := 0x1_0000_0000

  /** Where a chunk is.  `Loose` is a chunk between two lists, inside one locked step. */
  datatype Place = Free | Staged | Loose | Held(job: nat)

  /** The lists as sequences, and for each chunk the one place it is in. */
  datatype Book = Book(lists: map<Place, seq<int>>, at: seq<Place>)

  /** The lists as the server keeps them: heads, and one successor per chunk (-1 ends a list). */
  datatype Links = Links(next: seq<int>, free: int, staged: int, loose: int, heads: map<nat, int>)

  function Head(l: Links, p: Place): int {
    match p
    case Free => l.free
    case Staged => l.staged
    case Loose => l.loose
    case Held(j) => if j in l.heads then l.heads[j] else -1
  }

  function SetHead(l: Links, p: Place, h: int): Links {
    match p
    case Free => l.(free := h)
    case Staged => l.(staged := h)
    case Loose => l.(loose := h)
    case Held(j) => l.(heads := l.heads[j := h])
  }

  ghost predicate Distinct(s: seq<int>) {
    forall i, k :: 0 <= i < k < |s| ==> s[i] != s[k]
  }

  /** `s` is the list of exactly the chunks at place `p`. */
  ghost predicate Lists(s: seq<int>, p: Place, at: seq<Place>) {
    && Distinct(s)
    && (forall i :: 0 <= i < |s| ==> 0 <= s[i] < |at| && at[s[i]] == p)
    && (forall c :: 0 <= c < |at| && at[c] == p ==> c in s)
  }

  ghost predicate ListOk(b: Book, p: Place)
    requires p in b.lists
  {
    Lists(b.lists[p], p, b.at)
  }

  ghost predicate Placed(b: Book, c: nat)
    requires c < |b.at|
  {
    b.at[c] in b.lists
  }

  ghost predicate Ledger(b: Book, n: nat) {
    && |b.at| == n
    && (forall p {:trigger ListOk(b, p)} :: p in b.lists ==> ListOk(b, p))
    && (forall c {:trigger Placed(b, c)} :: 0 <= c < n ==> Placed(b, c))
    && Free in b.lists && Staged in b.lists && Loose in b.lists
  }

  ghost predicate IsAt(b: Book, p: Place, i: int, c: int) {
    p in b.lists && 0 <= i < |b.lists[p]| && b.lists[p][i] == c
  }

  /** Every chunk is in exactly one list, at exactly one position of it. */
  lemma OnePlace(b: Book, n: nat, c: int)
    requires Ledger(b, n) && 0 <= c < n
    ensures exists p, i :: IsAt(b, p, i, c)
    ensures forall p, q, i, k :: IsAt(b, p, i, c) && IsAt(b, q, k, c) ==> p == q && i == k
  {
    assert Placed(b, c);
    var p := b.at[c];
    assert ListOk(b, p);
    var i :| 0 <= i < |b.lists[p]| && b.lists[p][i] == c;
    assert IsAt(b, p, i, c);
    forall p, q, i, k | IsAt(b, p, i, c) && IsAt(b, q, k, c) ensures p == q && i == k
    {
      assert ListOk(b, p) && ListOk(b, q);
    }
  }

  function After(s: seq<int>, i: nat): int { if i + 1 < |s| then s[i + 1] else -1 }

  /** `s` is what a walk from `head` visits. */
  ghost predicate Chain(next: seq<int>, head: int, s: seq<int>) {
    && head == (if |s| > 0 then s[0] else -1)
    && forall i :: 0 <= i < |s| ==>
         0 <= s[i] < |next| && next[s[i]] == After(s, i)
  }

  ghost predicate ChainOk(l: Links, b: Book, p: Place)
    requires p in b.lists
  {
    Chain(l.next, Head(l, p), b.lists[p])
  }

  ghost predicate Headed(l: Links, b: Book, j: nat) { j in l.heads <==> Held(j) in b.lists }

  ghost predicate Linked(l: Links, b: Book) {
    && |b.at| <= |l.next|
    && (forall p {:trigger ChainOk(l, b, p)} :: p in b.lists ==> ChainOk(l, b, p))
    && (forall j: nat {:trigger Headed(l, b, j)} :: Headed(l, b, j))
  }

  lemma {:induction false} ChainUnique(next: seq<int>, head: int, s: seq<int>, t: seq<int>)
    requires Chain(next, head, s) && Chain(next, head, t)
    ensures s == t
    decreases |s|
  {
    if s != [] && t != [] {
      ChainTail(next, head, s);
      ChainTail(next, head, t);
      ChainUnique(next, next[head], s[1..], t[1..]);
      assert s == [s[0]] + s[1..] && t == [t[0]] + t[1..];
    }
  }

  lemma ChainTail(next: seq<int>, head: int, s: seq<int>)
    requires Chain(next, head, s) && |s| > 0
    ensures 0 <= head < |next| && Chain(next, next[head], s[1..])
  {
    assert next[s[0]] == After(s, 0);
    assert forall i :: 0 <= i < |s| - 1 ==> s[1..][i] == s[i + 1] && After(s[1..], i) == After(s, i + 1);
  }

  lemma ChainPush(next: seq<int>, head: int, s: seq<int>, c: int)
    requires Chain(next, head, s) && 0 <= c < |next| && c !in s
    ensures Chain(next[c := head], c, [c] + s)
  {
    var t, next' := [c] + s, next[c := head];
    forall i | 0 <= i < |t| ensures 0 <= t[i] < |next'| && next'[t[i]] == After(t, i) {
      if i > 0 { assert t[i] == s[i - 1] && s[i - 1] != c && After(t, i) == After(s, i - 1); }
    }
  }

  lemma ChainOther(next: seq<int>, head: int, s: seq<int>, c: int, v: int)
    requires Chain(next, head, s) && 0 <= c < |next| && c !in s
    ensures Chain(next[c := v], head, s)
  {
  }

  lemma ListsTail(s: seq<int>, p: Place, at: seq<Place>, q: Place)
    requires Lists(s, p, at) && |s| > 0 && p != q
    ensures 0 <= s[0] < |at| && s[0] !in s[1..] && Lists(s[1..], p, at[s[0] := q])
  {
    var at' := at[s[0] := q];
    forall c | 0 <= c < |at| && at'[c] == p ensures c in s[1..] {
      assert at[c] == p && c in s && c != s[0];
    }
  }

  lemma ListsPush(s: seq<int>, q: Place, at: seq<Place>, c: int)
    requires Lists(s, q, at) && 0 <= c < |at| && at[c] != q
    ensures c !in s && Lists([c] + s, q, at[c := q])
  {
    var at', t := at[c := q], [c] + s;
    forall k | 0 <= k < |at| && at'[k] == q ensures k in t {
      if k != c { assert at[k] == q && k in s; }
    }
  }

  lemma ListsOther(s: seq<int>, r: Place, at: seq<Place>, c: int, q: Place)
    requires Lists(s, r, at) && 0 <= c < |at| && at[c] != r && q != r
    ensures c !in s && Lists(s, r, at[c := q])
  {
    var at' := at[c := q];
    assert forall k :: 0 <= k < |at| && at'[k] == r ==> at[k] == r;
  }

  /** The head chunk of one list becomes the head of another. */
  function Move(b: Book, p: Place, q: Place): Book
    requires p in b.lists && q in b.lists && |b.lists[p]| > 0
  {
    var c := b.lists[p][0];
    Book(b.lists[p := b.lists[p][1..]][q := [c] + b.lists[q]],
         if 0 <= c < |b.at| then b.at[c := q] else b.at)
  }

  function MoveLinks(l: Links, p: Place, q: Place): Links
    requires 0 <= Head(l, p) < |l.next|
  {
    var c := Head(l, p);
    var l1 := SetHead(l, p, l.next[c]);
    SetHead(l1.(next := l1.next[c := Head(l1, q)]), q, c)
  }

  lemma HeadSet(l: Links, p: Place, h: int, r: Place)
    ensures Head(SetHead(l, p, h), r) == if r == p then h else Head(l, r)
    ensures SetHead(l, p, h).next == l.next
    ensures forall j :: j in SetHead(l, p, h).heads <==> j in l.heads || p == Held(j)
  {
  }

  lemma MoveHead(l: Links, p: Place, q: Place, r: Place)
    requires 0 <= Head(l, p) < |l.next| && p != q
    ensures MoveLinks(l, p, q).next == l.next[Head(l, p) := Head(l, q)]
    ensures Head(MoveLinks(l, p, q), r) ==
            if r == q then Head(l, p) else if r == p then l.next[Head(l, p)] else Head(l, r)
    ensures forall j :: j in MoveLinks(l, p, q).heads <==> j in l.heads || p == Held(j) || q == Held(j)
  {
    var c := Head(l, p);
    var l1 := SetHead(l, p, l.next[c]);
    var l2 := l1.(next := l1.next[c := Head(l1, q)]);
    HeadSet(l, p, l.next[c], r);
    HeadSet(l, p, l.next[c], q);
    assert Head(l2, r) == Head(l1, r);
    HeadSet(l2, q, c, r);
  }

  lemma MoveList(b: Book, n: nat, p: Place, q: Place, r: Place)
    requires Ledger(b, n) && p in b.lists && q in b.lists && r in b.lists && p != q && |b.lists[p]| > 0
    ensures 0 <= b.lists[p][0] < n
    ensures ListOk(Move(b, p, q), r)
    ensures r != p ==> b.lists[p][0] !in b.lists[r]
    ensures r == p ==> b.lists[p][0] !in b.lists[p][1..]
  {
    var c := b.lists[p][0];
    assert ListOk(b, p) && ListOk(b, r);
    if r == p {
      ListsTail(b.lists[p], p, b.at, q);
    } else if r == q {
      ListsPush(b.lists[q], q, b.at, c);
    } else {
      ListsOther(b.lists[r], r, b.at, c, q);
    }
  }

  lemma MoveChain(l: Links, b: Book, n: nat, p: Place, q: Place, r: Place)
    requires Ledger(b, n) && Linked(l, b)
    requires p in b.lists && q in b.lists && r in b.lists && p != q && |b.lists[p]| > 0
    ensures 0 <= Head(l, p) < |l.next| && Head(l, p) == b.lists[p][0]
    ensures ChainOk(MoveLinks(l, p, q), Move(b, p, q), r)
  {
    var c := b.lists[p][0];
    assert ChainOk(l, b, p) && ChainOk(l, b, r);
    MoveList(b, n, p, q, r);
    MoveHead(l, p, q, r);
    if r == p {
      ChainTail(l.next, c, b.lists[p]);
      ChainOther(l.next, l.next[c], b.lists[p][1..], c, Head(l, q));
    } else if r == q {
      ChainPush(l.next, Head(l, q), b.lists[q], c);
    } else {
      ChainOther(l.next, Head(l, r), b.lists[r], c, Head(l, q));
    }
  }

  lemma MoveLedger(b: Book, n: nat, p: Place, q: Place)
    requires Ledger(b, n) && p in b.lists && q in b.lists && p != q && |b.lists[p]| > 0
    ensures 0 <= b.lists[p][0] < n && Ledger(Move(b, p, q), n)
  {
    var b' := Move(b, p, q);
    assert b'.lists.Keys == b.lists.Keys;
    forall r | r in b'.lists ensures ListOk(b', r) { MoveList(b, n, p, q, r); }
    forall c: nat | c < n ensures Placed(b', c) { assert Placed(b, c); }
    MoveList(b, n, p, q, p);
  }

  /** One move re-links two lists and leaves every other walk as it was. */
  lemma MoveKeeps(l: Links, b: Book, n: nat, p: Place, q: Place)
    requires Ledger(b, n) && Linked(l, b)
    requires p in b.lists && q in b.lists && p != q && |b.lists[p]| > 0
    ensures 0 <= Head(l, p) < |l.next| && Head(l, p) == b.lists[p][0] < n
    ensures Ledger(Move(b, p, q), n) && Linked(MoveLinks(l, p, q), Move(b, p, q))
  {
    var b' := Move(b, p, q);
    MoveLedger(b, n, p, q);
    MoveChain(l, b, n, p, q, p);
    MoveHead(l, p, q, p);
    var l' := MoveLinks(l, p, q);
    forall r | r in b'.lists ensures ChainOk(l', b', r) { MoveChain(l, b, n, p, q, r); }
    forall j: nat ensures Headed(l', b', j) { assert Headed(l, b, j); }
  }

  /** Every chunk of `p`, head first, moved to `q`: they arrive in reverse order. */
  function MoveAll(b: Book, p: Place, q: Place): Book
    requires p in b.lists && q in b.lists && p != q
    decreases |b.lists[p]|
  {
    if b.lists[p] == [] then b else MoveAll(Move(b, p, q), p, q)
  }

  function Reversed(s: seq<int>): seq<int> {
    if s == [] then [] else Reversed(s[1..]) + [s[0]]
  }

  lemma {:induction false} MoveAllLists(b: Book, p: Place, q: Place)
    requires p in b.lists && q in b.lists && p != q
    ensures MoveAll(b, p, q).lists == b.lists[p := []][q := Reversed(b.lists[p]) + b.lists[q]]
    decreases |b.lists[p]|
  {
    var s := b.lists[p];
    if s != [] {
      var b1 := Move(b, p, q);
      MoveAllLists(b1, p, q);
      ReversedStep(s, b.lists[q]);
      var u := Reversed(s) + b.lists[q];
      assert b1.lists[p] == s[1..] && Reversed(s[1..]) + b1.lists[q] == u;
      assert b1.lists[p := []][q := u] == b.lists[p := []][q := u];
    } else {
      assert Reversed(s) + b.lists[q] == b.lists[q];
      assert b.lists == b.lists[p := []][q := b.lists[q]];
    }
  }

  lemma ReversedStep(s: seq<int>, t: seq<int>)
    requires s != []
    ensures Reversed(s[1..]) + ([s[0]] + t) == Reversed(s) + t
  {
  }

  lemma {:induction false} ReversedHas(s: seq<int>, c: int)
    ensures c in Reversed(s) <==> c in s
    ensures |Reversed(s)| == |s|
  {
    if s != [] { ReversedHas(s[1..], c); assert s == [s[0]] + s[1..]; }
  }

  /** A job comes into being with no chunks, and goes once it has none. */
  function Open(b: Book, j: nat): Book { b.(lists := b.lists[Held(j) := []]) }

  function Shut(b: Book, j: nat): Book { b.(lists := b.lists - {Held(j)}) }

  lemma OpenKeeps(l: Links, b: Book, n: nat, j: nat)
    requires Ledger(b, n) && Linked(l, b) && j !in l.heads
    ensures Ledger(Open(b, j), n) && Linked(l.(heads := l.heads[j := -1]), Open(b, j))
  {
    var l', b' := l.(heads := l.heads[j := -1]), Open(b, j);
    assert Headed(l, b, j);
    forall k: nat ensures Headed(l', b', k) { assert Headed(l, b, k); }
    forall c: nat | c < n ensures Placed(b', c) && b.at[c] != Held(j) { assert Placed(b, c); }
    forall p | p in b'.lists ensures ListOk(b', p) && ChainOk(l', b', p) {
      HeadSet(l, Held(j), -1, p);
      if p != Held(j) { assert ListOk(b, p) && ChainOk(l, b, p); }
    }
  }

  lemma ShutKeeps(l: Links, b: Book, n: nat, j: nat)
    requires Ledger(b, n) && Linked(l, b) && j in l.heads && Held(j) in b.lists && b.lists[Held(j)] == []
    ensures Ledger(Shut(b, j), n) && Linked(l.(heads := l.heads - {j}), Shut(b, j))
  {
    var l', b' := l.(heads := l.heads - {j}), Shut(b, j);
    forall k: nat ensures Headed(l', b', k) { assert Headed(l, b, k); }
    assert ListOk(b, Held(j));
    forall p | p in b'.lists ensures ListOk(b', p) && ChainOk(l', b', p) {
      assert ListOk(b, p) && ChainOk(l, b, p);
    }
    forall c: nat | c < n ensures Placed(b', c) { assert Placed(b, c); }
  }

  // ---- chunk geometry ----

  function Clamped(c: nat): nat {
    if c < MIN_CHUNK then MIN_CHUNK else if c > POOL_BYTES then POOL_BYTES else c
  }

  function PageFloor(c: nat): nat { c / PAGE * PAGE }

  function ChunkBytes(kib: nat): nat { PageFloor(Clamped((kib * 1024) % WORD)) }

  function Chunks(bytes: nat): nat
    requires bytes > 0
  {
    var n := POOL_BYTES / bytes;
    if n > MAX_CHUNKS then MAX_CHUNKS else n
  }

  lemma PageFloorWithin(c: nat)
    requires MIN_CHUNK <= c <= POOL_BYTES
    ensures MIN_CHUNK <= PageFloor(c) <= POOL_BYTES && PageFloor(c) % PAGE == 0
  {
  }

  /** Whatever size is asked for, the pool is whole pages, fits, and has at least one chunk. */
  lemma Geometry(kib: nat)
    ensures MIN_CHUNK <= ChunkBytes(kib) <= POOL_BYTES && ChunkBytes(kib) % PAGE == 0
    ensures 1 <= Chunks(ChunkBytes(kib)) <= MAX_CHUNKS
    ensures Chunks(ChunkBytes(kib)) * ChunkBytes(kib) <= POOL_BYTES
    ensures POOL_BYTES < (Chunks(ChunkBytes(kib)) + 1) * ChunkBytes(kib)
  {
    PageFloorWithin(Clamped((kib * 1024) % WORD));
    Division(ChunkBytes(kib));
  }

  lemma Division(c: nat)
    requires MIN_CHUNK <= c <= POOL_BYTES
    ensures 1 <= Chunks(c) <= MAX_CHUNKS && Chunks(c) * c <= POOL_BYTES < (Chunks(c) + 1) * c
  {
    var n := POOL_BYTES / c;
    assert n * c <= POOL_BYTES < n * c + c;
    FewChunks(n, c);
  }

  lemma FewChunks(n: nat, c: nat)
    requires n * c <= POOL_BYTES && c >= MIN_CHUNK
    ensures n <= MAX_CHUNKS
  {
    assert n * MIN_CHUNK <= n * c;
  }

  lemma AtLeast(k: nat, d: nat)
    requires k > 0
    ensures k * d >= d
  {
    assert k * d == (k - 1) * d + d && (k - 1) * d >= 0;
  }

  lemma Quotient(i: int, d: nat, q: int, r: int)
    requires i * d == q * d + r && 0 <= r < d
    ensures i == q
  {
    if i > q { AtLeast(i - q, d); } else if i < q { AtLeast(q - i, d); }
  }

  function Va(base: nat, bytes: nat, i: int): int { base + i * bytes }

  /** The handler's word names its chunk: dividing the offset gives the index back. */
  lemma VaIndex(base: nat, bytes: nat, i: int)
    requires bytes > 0
    ensures (Va(base, bytes, i) - base) / bytes == i
  {
    Quotient(i, bytes, (i * bytes) / bytes, (i * bytes) % bytes);
  }
}
