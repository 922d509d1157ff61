/**
 * The overflow pool as the server and its interrupt handler work on it.  The server's
 * steps hold the lock; the handler takes none, so `Interrupts` may run between any two
 * accesses to the words they share.
 */
module OverflowPool {
  import opened Overflow
  import opened OverflowLate

  /**
   * The words shared with the handler; `hand` is a chunk it has taken and not yet reported,
   * `late` one that it took before a reset.
   */
  datatype Words = Words(stageVa: nat, hand: nat, consumed: nat, late: nat)

  predicate Blank(w: Words) { w.stageVa == 0 && w.hand == 0 && w.consumed == 0 }

  /** At most one word names a chunk, and then it is the one at `va`. */
  predicate Named(w: Words, va: int) {
    && (w.late != 0 ==> w.hand == 0 && w.consumed == 0)
    && (|| Blank(w)
        || (w.stageVa == va && w.hand == 0 && w.consumed == 0)
        || (w.stageVa == 0 && w.hand == va && w.consumed == 0)
        || (w.stageVa == 0 && w.hand == 0 && w.consumed == va))
  }

  /** One step of the handler: it finishes what it has begun, and else answers an interrupt of the binner. */
  function HandlerStep(w: Words, running: bool): Words {
    if w.hand != 0 then w.(hand := 0, consumed := w.hand)
    else if w.late != 0 then w.(late := 0, consumed := w.late)
    else if running then w.(stageVa := 0, hand := w.stageVa)
    else w
  }

  function HandlerSteps(w: Words, running: bool, n: nat): Words {
    if n == 0 then w else HandlerStep(HandlerSteps(w, running, n - 1), running)
  }

  /** The handler has nothing to do. */
  predicate Quiet(w: Words, running: bool) { w.hand == 0 && w.late == 0 && (running ==> w.stageVa == 0) }

  lemma {:induction false} QuietSteps(w: Words, running: bool, n: nat)
    ensures Quiet(w, running) ==> HandlerSteps(w, running, n) == w
  {
    if n > 0 { QuietSteps(w, running, n - 1); }
  }

  lemma {:induction false} StepsSum(w: Words, running: bool, m: nat, n: nat)
    ensures HandlerSteps(HandlerSteps(w, running, m), running, n) == HandlerSteps(w, running, m + n)
  {
    if n > 0 { StepsSum(w, running, m, n - 1); }
  }

  /** No step clears a word without storing it in another. */
  lemma {:induction false} StepsBlank(w: Words, running: bool, n: nat)
    ensures Blank(HandlerSteps(w, running, n)) ==> Blank(w)
    ensures w.late == 0 ==> HandlerSteps(w, running, n).late == 0
  {
    if n > 0 { StepsBlank(w, running, n - 1); }
  }

  lemma {:induction false} StepsNamed(w: Words, running: bool, n: nat, va: int)
    requires w.late == 0
    ensures HandlerSteps(w, running, n).late == 0 && (Named(w, va) ==> Named(HandlerSteps(w, running, n), va))
  {
    if n > 0 { StepsNamed(w, running, n - 1, va); }
  }

  /** Nothing, or a late report. */
  predicate MayReport(w: Words, w': Words) { w' == w || (w.late != 0 && w' == w.(consumed := w.late, late := 0)) }

  /** The word at `va` armed, and perhaps a late report. */
  predicate ArmedAt(w: Words, w': Words, va: int) { va > 0 && MayReport(w.(stageVa := va), w') }

  /** With the binner stopped the armed word is left alone. */
  lemma {:induction false} IdleMark(w: Words, n: nat)
    ensures HandlerSteps(w, false, n).stageVa == w.stageVa
    ensures w.hand == 0 ==> MayReport(w, HandlerSteps(w, false, n))
  {
    if n > 0 { IdleMark(w, n - 1); }
  }

  /** The first step takes an armed word, and no later one puts it back. */
  lemma {:induction false} FirstStep(w: Words, running: bool, n: nat)
    requires w.late == 0
    ensures w.hand != 0 && w.stageVa == 0 ==> HandlerSteps(w, running, n).stageVa == 0
    ensures w.hand == 0 && running && n > 0 ==> HandlerSteps(w, running, n).stageVa == 0
    ensures n == 0 || (w.hand == 0 && !running) ==> HandlerSteps(w, running, n) == w
  {
    if n > 0 {
      FirstStep(w, running, n - 1);
      StepsBlank(w, running, n - 1);
    }
  }

  /** A chunk armed over a word that named another: the words are true if and only if no step was made. */
  lemma Overwritten(w: Words, running: bool, n: nat, va: int, x: nat)
    requires w.late == 0 && w.consumed == 0 && Named(w, va) && !Blank(w) && x != 0
    ensures var w' := HandlerSteps(w, running, n).(stageVa := x);
      && (Named(w', x) <==> w.hand == 0 && (n == 0 || !running))
      && (Named(w', x) ==> w'.consumed == 0)
  {
    FirstStep(w, running, n);
    StepsBlank(w, running, n);
  }

  /** A word is 0 or names a chunk of the pool. */
  ghost predicate InPool(va: nat, base: nat, bytes: nat, n: nat) {
    va == 0 || exists c: int :: 0 <= c < n && va == Va(base, bytes, c)
  }

  ghost function ChunkAt(va: nat, base: nat, bytes: nat, n: nat): (c: int)
    requires va != 0 && InPool(va, base, bytes, n)
    ensures 0 <= c < n && va == Va(base, bytes, c)
  {
    var c: int :| 0 <= c < n && va == Va(base, bytes, c);
    c
  }

  lemma ChunkInPool(base: nat, bytes: nat, n: nat, c: int)
    requires base > 0 && 0 <= c < n
    ensures Va(base, bytes, c) > 0 && InPool(Va(base, bytes, c), base, bytes, n)
  {
    assert c * bytes >= 0;
  }

  lemma SameChunk(base: nat, bytes: nat, c: int, d: int)
    requires bytes > 0
    ensures Va(base, bytes, c) == Va(base, bytes, d) <==> c == d
  {
    VaIndex(base, bytes, c);
    VaIndex(base, bytes, d);
  }

  /** What a collection found: nothing, or the address of a chunk, with the chunk then staged. */
  datatype Reported = Nothing | Chunk(va: nat, staged: int)

  predicate OfStaged(r: Reported, base: nat, bytes: nat) {
    r.Chunk? ==> r.staged >= 0 && r.va == Va(base, bytes, r.staged)
  }

  /** Chunk `c` holds tile data of job `j`: it is in that job's list, or just taken by the handler. */
  ghost predicate Kept(b: Book, j: nat, c: int, bin: nat, stageVa: nat) {
    && Held(j) in b.lists && Staged in b.lists
    && (c in b.lists[Held(j)] || (j == bin && stageVa == 0 && c in b.lists[Staged]))
  }

  ghost predicate TilesOk(b: Book, tiles: map<nat, set<int>>, bin: nat, stageVa: nat) {
    && (forall j {:trigger Held(j) in b.lists} :: j in tiles ==> Held(j) in b.lists)
    && (forall j, c {:trigger Kept(b, j, c, bin, stageVa)} :: j in tiles && c in tiles[j] ==> Kept(b, j, c, bin, stageVa))
  }

  /** Between two books, a job's list is the same; the bin job's may have grown at its head. */
  ghost predicate JobList(b0: Book, b: Book, bin: nat, j: nat) {
    && (Held(j) in b.lists <==> Held(j) in b0.lists)
    && (Held(j) in b0.lists ==>
          if j == bin then Suffix(b0.lists[Held(j)], b.lists[Held(j)]) else b.lists[Held(j)] == b0.lists[Held(j)])
  }

  ghost predicate Grown(b0: Book, b: Book, bin: nat) {
    forall j: nat {:trigger JobList(b0, b, bin, j)} :: JobList(b0, b, bin, j)
  }

  ghost predicate Suffix(s: seq<int>, t: seq<int>) {
    |s| <= |t| && t[|t| - |s|..] == s
  }

  lemma GrownMove(b: Book, p: Place, q: Place, bin: nat)
    requires p in b.lists && q in b.lists && |b.lists[p]| > 0 && p != q
    requires !p.Held? && (q.Held? ==> q == Held(bin))
    ensures Grown(b, Move(b, p, q), bin)
  {
    forall j: nat ensures JobList(b, Move(b, p, q), bin, j) {
      if q == Held(j) {
        var s, t := b.lists[q], [b.lists[p][0]] + b.lists[q];
        assert t[|t| - |s|..] == s;
      }
    }
  }

  lemma GrownTrans(b0: Book, b1: Book, b2: Book, bin: nat)
    requires Grown(b0, b1, bin) && Grown(b1, b2, bin)
    ensures Grown(b0, b2, bin)
  {
    forall j: nat ensures JobList(b0, b2, bin, j) {
      assert JobList(b0, b1, bin, j) && JobList(b1, b2, bin, j);
      if Held(j) in b0.lists && j == bin {
        var s, t, u := b0.lists[Held(j)], b1.lists[Held(j)], b2.lists[Held(j)];
        assert u[|u| - |s|..] == u[|u| - |t|..][|t| - |s|..];
      }
    }
  }

  lemma GrownSame(b: Book, bin: nat)
    ensures Grown(b, b, bin)
  {
    forall j: nat ensures JobList(b, b, bin, j) {}
  }

  lemma TilesMove(b: Book, tiles: map<nat, set<int>>, bin: nat, stageVa: nat, p: Place, q: Place)
    requires TilesOk(b, tiles, bin, stageVa)
    requires p in b.lists && q in b.lists && |b.lists[p]| > 0 && p != q
    requires !p.Held? && (p == Staged ==> q == Held(bin) || bin !in tiles || stageVa != 0)
    ensures TilesOk(Move(b, p, q), tiles, bin, stageVa)
  {
    var b' := Move(b, p, q);
    forall j, c | j in tiles && c in tiles[j] ensures Kept(b', j, c, bin, stageVa) {
      assert Kept(b, j, c, bin, stageVa);
      if c in b.lists[Staged] && c !in b.lists[Held(j)] && p == Staged {
        assert b.lists[p] == [b.lists[p][0]] + b.lists[p][1..];
      }
    }
  }

  /** With nothing staged, no tile data depends on the staged slot, so it may be armed. */
  lemma TilesArm(b: Book, tiles: map<nat, set<int>>, bin: nat, stageVa: nat, va: nat)
    requires TilesOk(b, tiles, bin, stageVa) && Staged in b.lists && b.lists[Staged] == []
    ensures TilesOk(b, tiles, bin, va)
  {
    forall j, c | j in tiles && c in tiles[j] ensures Kept(b, j, c, bin, va) {
      assert Kept(b, j, c, bin, stageVa);
    }
  }

  lemma TilesMark(b: Book, tiles: map<nat, set<int>>, bin: nat, x: nat, y: nat)
    requires TilesOk(b, tiles, bin, x) && x != 0 && y != 0
    ensures TilesOk(b, tiles, bin, y)
  {
    forall j, c | j in tiles && c in tiles[j] ensures Kept(b, j, c, bin, y) { assert Kept(b, j, c, bin, x); }
  }

  /** The staged chunk, once attributed, is in the list of the job that was given it. */
  lemma TilesHand(b: Book, tiles: map<nat, set<int>>, bin: nat, stageVa: nat)
    requires TilesOk(b, tiles, bin, stageVa) && Staged in b.lists && |b.lists[Staged]| == 1
    requires Loose in b.lists && b.lists[Loose] == [] && Held(bin) in b.lists
    ensures TilesOk(Move(Move(b, Staged, Loose), Loose, Held(bin)), tiles, bin, stageVa)
  {
    var b' := Move(Move(b, Staged, Loose), Loose, Held(bin));
    assert b'.lists[Held(bin)] == b.lists[Staged] + b.lists[Held(bin)];
    forall j, c | j in tiles && c in tiles[j] ensures Kept(b', j, c, bin, stageVa) {
      assert Kept(b, j, c, bin, stageVa);
    }
  }

  /** The binner is given the armed chunk: it writes tile data of the bin job there. */
  lemma TilesTake(b: Book, tiles: map<nat, set<int>>, bin: nat, stageVa: nat, c: int)
    requires TilesOk(b, tiles, bin, stageVa) && bin in tiles && Staged in b.lists && c in b.lists[Staged]
    ensures TilesOk(b, tiles, bin, 0) && TilesOk(b, tiles[bin := tiles[bin] + {c}], bin, 0)
  {
    var tiles' := tiles[bin := tiles[bin] + {c}];
    forall j, k | j in tiles' && k in tiles'[j] ensures Kept(b, j, k, bin, 0) {
      assert Kept(b, j, k, bin, stageVa) || (j == bin && k == c);
    }
    forall j, k | j in tiles && k in tiles[j] ensures Kept(b, j, k, bin, 0) {
      assert Kept(b, j, k, bin, stageVa);
    }
  }

  lemma TilesGrant(b: Book, tiles: map<nat, set<int>>, bin: nat, stageVa: nat, idx: int)
    requires TilesOk(b, tiles, bin, stageVa) && bin in tiles
    requires Loose in b.lists && b.lists[Loose] == [idx] && Staged in b.lists
    ensures TilesOk(Move(b, Loose, Held(bin)), tiles[bin := tiles[bin] + {idx}], bin, stageVa)
  {
    TilesMove(b, tiles, bin, stageVa, Loose, Held(bin));
    var b', tiles' := Move(b, Loose, Held(bin)), tiles[bin := tiles[bin] + {idx}];
    assert idx in b'.lists[Held(bin)];
    forall j, c | j in tiles' && c in tiles'[j] ensures Kept(b', j, c, bin, stageVa) {
      if j != bin || c != idx { assert c in tiles[j]; }
    }
  }

  /** A free chunk taken and given to the bin job, with what the binner will write there. */
  lemma Granted(b: Book, tiles: map<nat, set<int>>, bin: nat, stageVa: nat, idx: int)
    requires Free in b.lists && Loose in b.lists && Held(bin) in b.lists && Staged in b.lists
    requires b.lists[Free] != [] && b.lists[Free][0] == idx && b.lists[Loose] == [] && bin in tiles
    ensures var b' := Move(Move(b, Free, Loose), Loose, Held(bin));
      && Grown(b, b', bin)
      && (TilesOk(b, tiles, bin, stageVa) ==> TilesOk(b', tiles[bin := tiles[bin] + {idx}], bin, stageVa))
  {
    var b1 := Move(b, Free, Loose);
    GrownMove(b, Free, Loose, bin);
    GrownMove(b1, Loose, Held(bin), bin);
    GrownTrans(b, b1, Move(b1, Loose, Held(bin)), bin);
    if TilesOk(b, tiles, bin, stageVa) {
      TilesMove(b, tiles, bin, stageVa, Free, Loose);
      TilesGrant(b1, tiles, bin, stageVa, idx);
    }
  }

  /** A free chunk taken and staged: with nothing staged before, no tile data depends on it, armed or not. */
  lemma StagedOne(b: Book, tiles: map<nat, set<int>>, bin: nat, stageVa: nat, va: nat)
    requires Free in b.lists && Loose in b.lists && Staged in b.lists
    requires b.lists[Free] != [] && b.lists[Loose] == [] && b.lists[Staged] == []
    ensures var b' := Move(Move(b, Free, Loose), Loose, Staged);
      Grown(b, b', bin) && (TilesOk(b, tiles, bin, stageVa) ==> TilesOk(b', tiles, bin, va))
  {
    var b1 := Move(b, Free, Loose);
    GrownMove(b, Free, Loose, bin);
    GrownMove(b1, Loose, Staged, bin);
    GrownTrans(b, b1, Move(b1, Loose, Staged), bin);
    if TilesOk(b, tiles, bin, stageVa) {
      TilesArm(b, tiles, bin, stageVa, va);
      TilesMove(b, tiles, bin, va, Free, Loose);
      TilesMove(b1, tiles, bin, va, Loose, Staged);
    }
  }

  function TileSet(tiles: map<nat, set<int>>, j: nat): set<int> { if j in tiles then tiles[j] else {} }

  /** Moving chunks out of the list of a job with no tile data leaves all tile data in place. */
  lemma TilesPass(b: Book, tiles: map<nat, set<int>>, bin: nat, stageVa: nat, j: nat, q: Place)
    requires TilesOk(b, tiles, bin, stageVa) && j !in tiles
    requires Held(j) in b.lists && q in b.lists && q != Held(j)
    ensures TilesOk(MoveAll(b, Held(j), q), tiles, bin, stageVa)
  {
    var b' := MoveAll(b, Held(j), q);
    MoveAllLists(b, Held(j), q);
    forall k, c | k in tiles && c in tiles[k] ensures Kept(b', k, c, bin, stageVa) {
      assert Kept(b, k, c, bin, stageVa);
    }
  }

  lemma TilesOpen(b: Book, tiles: map<nat, set<int>>, bin: nat, stageVa: nat, j: nat)
    requires TilesOk(b, tiles, bin, stageVa) && Held(j) !in b.lists
    ensures TilesOk(Open(b, j), tiles, bin, stageVa)
  {
    forall k, c | k in tiles && c in tiles[k] ensures Kept(Open(b, j), k, c, bin, stageVa) {
      assert Kept(b, k, c, bin, stageVa);
    }
  }

  lemma TilesShut(b: Book, tiles: map<nat, set<int>>, bin: nat, stageVa: nat, j: nat)
    requires TilesOk(b, tiles, bin, stageVa) && j !in tiles
    ensures TilesOk(Shut(b, j), tiles, bin, stageVa)
  {
    forall k, c | k in tiles && c in tiles[k] ensures Kept(Shut(b, j), k, c, bin, stageVa) {
      assert Kept(b, k, c, bin, stageVa);
    }
  }

  /** A finished bin's tile data is all in its own list, so the job can be let go. */
  lemma TilesDrop(b: Book, tiles: map<nat, set<int>>, bin: nat, stageVa: nat, j: nat, bin': nat)
    requires TilesOk(b, tiles, bin, stageVa)
    requires bin' == bin || (j == bin && bin' == 0)
    ensures TilesOk(b, tiles - {j}, bin', stageVa)
  {
    forall k, c | k in tiles - {j} && c in tiles[k] ensures Kept(b, k, c, bin', stageVa) {
      assert Kept(b, k, c, bin, stageVa);
    }
  }

  lemma TilesAdd(b: Book, tiles: map<nat, set<int>>, bin: nat, stageVa: nat, r: nat, t: set<int>)
    requires TilesOk(b, tiles, bin, stageVa) && Held(r) in b.lists && Staged in b.lists
    requires forall c :: c in t ==> c in b.lists[Held(r)]
    ensures TilesOk(b, tiles[r := TileSet(tiles, r) + t], bin, stageVa)
  {
    var tiles' := tiles[r := TileSet(tiles, r) + t];
    forall k, c | k in tiles' && c in tiles'[k] ensures Kept(b, k, c, bin, stageVa) {
      if k != r || c !in t { assert Kept(b, k, c, bin, stageVa); }
    }
  }

  function Freed(b: Book, j: nat): map<Place, seq<int>>
    requires Held(j) in b.lists && Free in b.lists
  {
    (b.lists - {Held(j)})[Free := Reversed(b.lists[Held(j)]) + b.lists[Free]]
  }

  function Passed(b: Book, j: nat, r: nat): map<Place, seq<int>>
    requires Held(j) in b.lists && Held(r) in b.lists
  {
    (b.lists - {Held(j)})[Held(r) := Reversed(b.lists[Held(j)]) + b.lists[Held(r)]]
  }

  /** The tile data of bin `j` is now what render `r` reads. */
  function Handed(tiles: map<nat, set<int>>, j: nat, r: nat): map<nat, set<int>> {
    if r == 0 then tiles - {j} else (tiles - {j})[r := TileSet(tiles - {j}, r) + TileSet(tiles, j)]
  }

  lemma PassedLists(b: Book, j: nat, r: nat)
    requires Held(j) in b.lists && Held(r) in b.lists && Free in b.lists && j != r
    ensures Held(j) in MoveAll(b, Held(j), Held(r)).lists && Free in MoveAll(b, Held(j), Held(r)).lists
    ensures Freed(MoveAll(b, Held(j), Held(r)), j) == Passed(b, j, r)
  {
    MoveAllLists(b, Held(j), Held(r));
    var b' := MoveAll(b, Held(j), Held(r));
    assert Reversed(b'.lists[Held(j)]) + b'.lists[Free] == b.lists[Free];
    assert Freed(b', j) == Passed(b, j, r);
  }

  /** With the handler's reports collected, a bin's tile data is all in its own list. */
  lemma Settled(b: Book, tiles: map<nat, set<int>>, bin: nat, stageVa: nat)
    requires TilesOk(b, tiles, bin, stageVa) && bin in tiles && Staged in b.lists
    requires stageVa != 0 || b.lists[Staged] == []
    ensures forall c :: c in tiles[bin] ==> c in b.lists[Held(bin)]
  {
    forall c | c in tiles[bin] ensures c in b.lists[Held(bin)] { assert Kept(b, bin, c, bin, stageVa); }
  }

  lemma PassTiles(b: Book, tiles: map<nat, set<int>>, bin: nat, stageVa: nat, j: nat, r: nat, t: set<int>)
    requires TilesOk(b, tiles, bin, stageVa) && j !in tiles && j != r && Staged in b.lists
    requires Held(j) in b.lists && Held(r) in b.lists
    requires forall c :: c in t ==> c in b.lists[Held(j)]
    ensures TilesOk(MoveAll(b, Held(j), Held(r)), tiles[r := TileSet(tiles, r) + t], bin, stageVa)
  {
    MoveAllLists(b, Held(j), Held(r));
    TilesPass(b, tiles, bin, stageVa, j, Held(r));
    forall c | c in t ensures c in Reversed(b.lists[Held(j)]) { ReversedHas(b.lists[Held(j)], c); }
    TilesAdd(MoveAll(b, Held(j), Held(r)), tiles, bin, stageVa, r, t);
  }

  /** What the bin held before the pass, and what it was given during it, is with the render after. */
  lemma PassedHas(b0: Book, b: Book, j: nat, r: nat)
    requires Held(j) in b0.lists && Held(j) in b.lists && Held(r) in b.lists && j != r
    requires Suffix(b0.lists[Held(j)], b.lists[Held(j)])
    ensures Held(r) in Passed(b, j, r)
    ensures forall c :: c in b0.lists[Held(j)] ==> c in Passed(b, j, r)[Held(r)]
  {
    var s, t := b0.lists[Held(j)], b.lists[Held(j)];
    forall c | c in s ensures c in Passed(b, j, r)[Held(r)] {
      assert c in t[|t| - |s|..] && c in t;
      ReversedHas(t, c);
    }
  }

  lemma KickTiles(b: Book, tiles: map<nat, set<int>>, stageVa: nat, j: nat)
    requires TilesOk(b, tiles, 0, stageVa) && 0 !in tiles && Held(j) in b.lists
    ensures TilesOk(b, tiles[j := {}], j, stageVa)
  {
    forall k, c | k in tiles[j := {}] && c in tiles[j := {}][k] ensures Kept(b, k, c, j, stageVa) {
      assert Kept(b, k, c, 0, stageVa);
    }
  }

  /** The lists of all jobs but those in `js` are as they were. */
  ghost predicate Untouched(b: Book, b': Book, js: set<nat>) {
    forall j: nat :: Held(j) in b.lists && j !in js ==> Held(j) in b'.lists && b'.lists[Held(j)] == b.lists[Held(j)]
  }

  lemma ResetTiles(b: Book, tiles: map<nat, set<int>>, bin: nat, stageVa: nat)
    requires TilesOk(b, tiles, bin, stageVa) && (bin != 0 ==> bin in tiles) && 0 !in tiles
    ensures bin != 0 ==> TilesOk(b, tiles[bin := {}], bin, 0)
    ensures bin == 0 ==> TilesOk(b, tiles, bin, 0)
  {
    var tiles' := if bin != 0 then tiles[bin := {}] else tiles;
    forall k, c | k in tiles' && c in tiles'[k] ensures Kept(b, k, c, bin, 0) {
      assert Kept(b, k, c, bin, stageVa);
    }
  }

  lemma StagedTiles(b: Book, tiles: map<nat, set<int>>, bin: nat)
    requires TilesOk(b, tiles, bin, 0) && Staged in b.lists && Free in b.lists && |b.lists[Staged]| > 0
    requires bin in tiles ==> tiles[bin] == {}
    ensures TilesOk(Move(b, Staged, Free), tiles, bin, 0)
  {
    forall k, c | k in tiles && c in tiles[k] ensures Kept(Move(b, Staged, Free), k, c, bin, 0) {
      assert Kept(b, k, c, bin, 0);
    }
  }

  function Range(i: nat, n: nat): seq<int>
    requires i <= n
  {
    seq(n - i, k requires 0 <= k < n - i => i + k)
  }

  function Fresh(n: nat): Book {
    Book(map[Free := Range(0, n), Staged := [], Loose := []], seq(n, _ => Free))
  }

  lemma RangeCons(i: nat, n: nat)
    requires i < n
    ensures i !in Range(i + 1, n) && [i] + Range(i + 1, n) == Range(i, n)
  {
    var s, t := [i] + Range(i + 1, n), Range(i, n);
    forall k | 0 <= k < |s| ensures s[k] == t[k] {
      if k > 0 { assert s[k] == Range(i + 1, n)[k - 1] == i + k; }
    }
  }

  lemma RangePush(next: seq<int>, head: int, i: nat, n: nat)
    requires i < n <= |next| && Chain(next, head, Range(i + 1, n))
    ensures Chain(next[i := head], i, Range(i, n))
  {
    RangeCons(i, n);
    ChainPush(next, head, Range(i + 1, n), i);
  }

  lemma FreshKeeps(l: Links, n: nat)
    requires n <= |l.next| && Chain(l.next, l.free, Range(0, n))
    requires l.staged == -1 && l.loose == -1 && l.heads == map[]
    ensures Ledger(Fresh(n), n) && Linked(l, Fresh(n))
  {
    var b := Fresh(n);
    var s := Range(0, n);
    forall p | p in b.lists ensures ListOk(b, p) && ChainOk(l, b, p) {
      if p == Free {
        forall c | 0 <= c < n ensures c in s { assert s[c] == c; }
      }
    }
    forall c: nat | c < n ensures Placed(b, c) {}
    forall j: nat ensures Headed(l, b, j) {}
  }

  /** The job, if there is one. */
  function One(j: nat): set<nat> { if j != 0 then {j} else {} }

  /** The links describe the book, and the book accounts for every chunk. */
  ghost predicate Shaped(l: Links, b: Book, n: nat, nfree: nat) {
    && Ledger(b, n) && Linked(l, b)
    && nfree == |b.lists[Free]| && b.lists[Loose] == [] && |b.lists[Staged]| <= 1
  }

  class Pool {
    const next: array<int>
    const nchunks: nat
    const gpuva: nat
    const chunkBytes: nat
    var freeHead: int
    var nfree: nat
    var staged: int
    var heads: map<nat, int>
    var stageVa: nat
    var stageSize: nat
    var hand: nat
    /** A chunk that a handler took before a reset and has still not reported. */
    var late: nat
    var consumed: nat
    var missed: nat
    var waiting: nat
    /** The bin job on the hardware (0: none), and whether the binner is still at work on it. */
    var bin: nat
    var running: bool
    ghost var loose: int
    ghost var book: Book
    /** Per job, the chunks the binner was given to write its tile lists into. */
    ghost var tiles: map<nat, set<int>>

    /** All chunks free, nothing armed; `va` is where the pool is mapped. */
    constructor (kib: nat, va: nat)
      requires va > 0
      ensures Valid() && Armed() && fresh(next) && heads == map[] && tiles == map[] && bin == 0 && !running && late == 0
      ensures gpuva == va && chunkBytes == ChunkBytes(kib) && nchunks == Chunks(chunkBytes)
      ensures book.lists[Free] == Range(0, nchunks) && staged == -1 && nfree == nchunks
    {
      Geometry(kib);
      var bytes := ChunkBytes(kib);
      var n := Chunks(bytes);
      var links := new int[MAX_CHUNKS];
      var head := -1;
      for i := n downto 0
        invariant Chain(links[..], head, Range(i, n))
      {
        RangePush(links[..], head, i, n);
        links[i] := head;
        head := i;
      }
      next := links;
      nchunks, gpuva, chunkBytes := n, va, bytes;
      freeHead, staged, nfree, loose := head, -1, n, -1;
      heads, tiles := map[], map[];
      stageVa, stageSize, hand, late, consumed, missed, waiting := 0, 0, 0, 0, 0, 0, 0;
      bin, running := 0, false;
      book := Fresh(n);
      FreshKeeps(Links(links[..], head, -1, -1, map[]), n);
    }

    ghost function L(): Links
      reads this, next
    {
      Links(next[..], freeHead, staged, loose, heads)
    }

    ghost function W(): Words
      reads this
    {
      Words(stageVa, hand, consumed, late)
    }

    ghost predicate Shape()
      reads this, next
    {
      Shaped(L(), book, nchunks, nfree)
    }

    /** What holds of the other fields whatever the handler reports: each word is 0 or some chunk. */
    ghost predicate Core()
      reads this
    {
      && gpuva > 0 && chunkBytes > 0 && -1 <= staged < nchunks
      && InPool(stageVa, gpuva, chunkBytes, nchunks) && InPool(hand, gpuva, chunkBytes, nchunks)
      && InPool(consumed, gpuva, chunkBytes, nchunks) && InPool(late, gpuva, chunkBytes, nchunks)
      && (running ==> bin != 0) && (bin != 0 ==> bin in tiles && Held(bin) in book.lists)
      && (!running ==> hand == 0) && (late != 0 ==> hand == 0)
      && 0 !in tiles && Staged in book.lists && (staged >= 0 ==> staged in book.lists[Staged])
    }

    /** The lists are in order. */
    ghost predicate Listed()
      reads this, next
    {
      Shape() && Core()
    }

    /** At most one word names a chunk, and that is the staged one. */
    ghost predicate Naming()
      reads this
    {
      && (if staged >= 0 then Named(W(), Va(gpuva, chunkBytes, staged)) else Blank(W()))
      && (bin == 0 ==> consumed == 0)
    }

    /** Every chunk with tile data is in its job's list, or taken by the handler for the bin job. */
    ghost predicate Tiled()
      reads this
    {
      TilesOk(book, tiles, bin, stageVa)
    }

    ghost predicate Sound()
      reads this
    {
      Naming() && Tiled()
    }

    /** And no handler owes a report from before a reset. */
    ghost predicate Steady()
      reads this
    {
      Sound() && late == 0
    }

    ghost predicate Valid()
      reads this, next
    {
      Listed() && Sound()
    }

    /** A staged chunk is always named by one of the words. */
    ghost predicate Armed()
      reads this
    {
      staged >= 0 ==> !Blank(W())
    }

    // ---- the interrupt handler ----

    /** An out-of-memory interrupt: the armed chunk goes to the binner, or the want is counted. */
    method Take()
      requires Core() && running && hand == 0 && late == 0
      modifies this`stageVa, this`hand, this`missed, this`tiles
      ensures Core() && W() == HandlerStep(old(W()), running) && tiles.Keys == old(tiles).Keys
      ensures old(stageVa) == 0 ==> tiles == old(tiles) && missed == old(missed) + 1
      ensures old(stageVa) != 0 ==> missed == old(missed)
      ensures old(Sound()) ==> Sound()
      ensures old(Sound()) && old(stageVa) != 0 ==> tiles == old(tiles)[bin := old(tiles)[bin] + {staged}]
    {
      var va := stageVa;
      ghost var c := if va != 0 then ChunkAt(va, gpuva, chunkBytes, nchunks) else 0;
      if va != 0 {
        if Sound() {
          SameChunk(gpuva, chunkBytes, c, staged);
          TilesTake(book, tiles, bin, stageVa, staged);
        }
      }
      stageVa := 0;
      if va != 0 {
        hand := va;
        tiles := tiles[bin := tiles[bin] + {c}];
      } else {
        missed := missed + 1;
      }
    }

    /** The handler reports the chunk it handed out. */
    method Give()
      requires Core() && hand != 0
      modifies this`hand, this`consumed
      ensures Core() && W() == HandlerStep(old(W()), running)
      ensures old(Sound()) ==> Sound()
    {
      consumed := hand;
      hand := 0;
    }

    /** A handler reports, after the reset, what it took before. */
    method Report()
      requires Core() && late != 0
      modifies this`late, this`consumed
      ensures Core() && W() == HandlerStep(old(W()), running)
    {
      consumed := late;
      late := 0;
    }

    /** Any number of handler steps. */
    method Interrupts() returns (ghost n: nat)
      requires Core()
      modifies this`stageVa, this`hand, this`late, this`consumed, this`missed, this`tiles
      ensures Core() && tiles.Keys == old(tiles).Keys && W() == HandlerSteps(old(W()), running, n)
      ensures n == 0 || Quiet(old(W()), running) || !running ==> tiles == old(tiles)
      ensures old(Steady()) ==> Steady()
    {
      var k: nat := *;
      n := 0;
      while k > 0
        invariant Core() && tiles.Keys == old(tiles).Keys && W() == HandlerSteps(old(W()), running, n)
        invariant n == 0 || Quiet(old(W()), running) || !running ==> tiles == old(tiles)
        invariant old(Steady()) ==> Steady()
      {
        QuietSteps(old(W()), running, n);
        if hand != 0 {
          Give();
        } else if late != 0 {
          Report();
        } else if running {
          Take();
        }
        n := n + 1;
        k := k - 1;
      }
    }

    // ---- the lists, under the lock ----

    /** Takes the head of the free list, -1 when there is none. */
    method Alloc() returns (i: int)
      requires Shape()
      modifies next, this`freeHead, this`nfree, this`loose, this`book
      ensures Ledger(book, nchunks) && Linked(L(), book) && nfree == |book.lists[Free]|
      ensures old(book).lists[Free] == [] ==> i == -1 && book == old(book)
      ensures old(book).lists[Free] != [] ==>
                i >= 0 && book == Move(old(book), Free, Loose) && book.lists[Loose] == [i]
    {
      i := freeHead;
      assert ChainOk(L(), book, Free) && ChainOk(L(), book, Loose);
      if i >= 0 {
        MoveKeeps(L(), book, nchunks, Free, Loose);
        MoveHead(L(), Free, Loose, Free);
        freeHead := next[i];
        next[i] := -1;
        nfree := nfree - 1;
        book := Move(book, Free, Loose);
        loose := i;
        assert L() == MoveLinks(old(L()), Free, Loose);
      }
    }

    /** A chunk taken by `Alloc` joins a job's list. */
    method Attach(j: nat, idx: int)
      requires Ledger(book, nchunks) && Linked(L(), book) && nfree == |book.lists[Free]|
      requires j in heads && Held(j) in book.lists
      requires book.lists[Loose] == [idx] && |book.lists[Staged]| <= 1
      modifies next, this`heads, this`loose, this`book
      ensures Shape() && book == Move(old(book), Loose, Held(j))
      ensures heads.Keys == old(heads).Keys
    {
      assert ChainOk(L(), book, Loose);
      MoveKeeps(L(), book, nchunks, Loose, Held(j));
      MoveHead(L(), Loose, Held(j), Loose);
      next[idx] := heads[j];
      heads := heads[j := idx];
      book := Move(book, Loose, Held(j));
      loose := -1;
      assert L() == MoveLinks(old(L()), Loose, Held(j));
    }

    /** Walks the list at `head` onto the free list.  The caller clears the list's own head. */
    method FreeList(head: int, ghost p: Place, ghost l0: Links) returns (ghost l: Links)
      requires Ledger(book, nchunks) && Linked(l0, book) && nfree == |book.lists[Free]|
      requires l0.next == next[..] && l0.free == freeHead && p in book.lists && p != Free && Head(l0, p) == head
      modifies next, this`freeHead, this`nfree, this`book
      ensures Ledger(book, nchunks) && Linked(l, book) && nfree == |book.lists[Free]|
      ensures l == SetHead(l0, p, -1).(next := next[..], free := freeHead)
      ensures book == MoveAll(old(book), p, Free)
    {
      var h := head;
      l := l0;
      if p.Held? { assert Headed(l0, book, p.job); }
      while h >= 0
        invariant Ledger(book, nchunks) && Linked(l, book) && nfree == |book.lists[Free]|
        invariant p in book.lists && Head(l, p) == h
        invariant l == SetHead(l0, p, h).(next := next[..], free := freeHead)
        invariant MoveAll(book, p, Free) == MoveAll(old(book), p, Free)
        decreases |book.lists[p]| + (if h >= 0 then 1 else 0)
      {
        l, h := FreeHead(h, p, l);
      }
      assert ChainOk(l, book, p);
    }

    method FreeHead(h: int, ghost p: Place, ghost l: Links) returns (ghost l': Links, after: int)
      requires Ledger(book, nchunks) && Linked(l, book) && nfree == |book.lists[Free]| && h >= 0
      requires l.next == next[..] && l.free == freeHead && p in book.lists && p != Free && Head(l, p) == h
      modifies next, this`freeHead, this`nfree, this`book
      ensures Ledger(book, nchunks) && Linked(l', book) && nfree == |book.lists[Free]|
      ensures |old(book).lists[p]| > 0 && book == Move(old(book), p, Free)
      ensures l' == SetHead(l, p, after).(next := next[..], free := freeHead)
    {
      assert ChainOk(l, book, p);
      MoveKeeps(l, book, nchunks, p, Free);
      MoveHead(l, p, Free, p);
      l' := MoveLinks(l, p, Free);
      after := next[h];
      next[h] := freeHead;
      freeHead := h;
      nfree := nfree + 1;
      book := Move(book, p, Free);
      assert l'.next == next[..];
    }

    // ---- arming, granting, attributing ----

    /** Arms one free chunk for the handler, unless one is armed already. */
    method Stage()
      requires Listed()
      modifies this, next
      ensures waiting == old(waiting)
      ensures Gathered(old(book), old(heads).Keys, old(bin), old(running), old(tiles).Keys)
      ensures staged < 0 && nchunks > 0 ==> nfree == 0
      ensures old(Armed()) ==> Armed()
      ensures old(nfree) == 0 ==> nfree == 0 && (staged >= 0 ==> old(staged) >= 0)
      ensures old(nfree) > 0 && nchunks > 0 ==> staged >= 0
      ensures !running ==> tiles == old(tiles) && (old(Tiled()) ==> Tiled())
      ensures old(Steady()) ==> Steady() && (!running ==> consumed == old(consumed))
      ensures staged == old(staged) && old(staged) < 0 ==> W() == old(W())
      ensures staged != old(staged) && !running ==> ArmedAt(old(W()), W(), Va(gpuva, chunkBytes, staged))
    {
      if staged >= 0 || nchunks == 0 {
        GrownSame(book, bin);
        return;
      }
      StageNew();
    }

    method StageNew()
      requires Listed() && staged < 0
      modifies next, this`freeHead, this`nfree, this`loose, this`book, this`staged
      modifies this`stageSize, this`stageVa, this`hand, this`late, this`consumed, this`missed, this`tiles
      ensures Gathered(old(book), old(heads).Keys, old(bin), old(running), old(tiles).Keys)
      ensures staged < 0 ==> nfree == 0 && W() == old(W()) && tiles == old(tiles)
      ensures old(nfree) == 0 ==> nfree == 0 && staged < 0
      ensures old(nfree) > 0 ==> staged >= 0
      ensures staged >= 0 ==> Armed()
      ensures !running ==> tiles == old(tiles) && (old(Tiled()) ==> Tiled())
      ensures staged >= 0 && !running ==> ArmedAt(old(W()), W(), Va(gpuva, chunkBytes, staged))
      ensures old(Steady()) ==> Steady()
    {
      var i := StageFree();
      if i >= 0 { Publish(i); }
    }

    /** The staged chunk is named to the handler, which may use it at once. */
    method Publish(i: int)
      requires Listed() && staged == i >= 0
      modifies this`stageSize, this`stageVa, this`hand, this`late, this`consumed, this`missed, this`tiles
      ensures Listed() && tiles.Keys == old(tiles).Keys && !Blank(W())
      ensures !running ==> tiles == old(tiles) && ArmedAt(old(W()), W(), Va(gpuva, chunkBytes, i))
      ensures !running && TilesOk(book, old(tiles), bin, 1) ==> Tiled()
      ensures old(Blank(W())) && old(late) == 0 && TilesOk(book, old(tiles), bin, 1) ==> Steady()
    {
      ghost var t := tiles;
      ghost var w := W();
      ghost var m := Arm(i);
      QuietSteps(w, running, m);
      if !running { IdleMark(w, m); }
      if tiles == t && TilesOk(book, t, bin, 1) { TilesMark(book, tiles, bin, 1, stageVa); }
      ghost var w1 := W();
      ghost var n := Interrupts();
      StepsBlank(w1, running, n);
      if !running { IdleMark(w1, n); }
      QuietSteps(w1, running, n);
    }

    /** Moves one free chunk to the staged slot, not yet visible to the handler. */
    method StageFree() returns (i: int)
      requires Listed() && staged < 0
      modifies next, this`freeHead, this`nfree, this`loose, this`book, this`staged
      ensures Listed() && Grown(old(book), book, bin)
      ensures staged == i && i >= -1
      ensures i < 0 ==> nfree == 0 && book == old(book)
      ensures i >= 0 ==> nfree == old(nfree) - 1
      ensures old(nfree) > 0 ==> i >= 0
      ensures old(Tiled()) ==> TilesOk(book, tiles, bin, 0) && TilesOk(book, tiles, bin, 1)
    {
      assert ChainOk(L(), book, Staged) && ChainOk(L(), book, Free);
      ghost var b0 := book;
      i := Alloc();
      if i < 0 {
        GrownSame(book, bin);
        if Tiled() {
          TilesArm(book, tiles, bin, stageVa, 0);
          TilesArm(book, tiles, bin, stageVa, 1);
        }
        return;
      }
      StagedOne(b0, tiles, bin, stageVa, 0);
      StagedOne(b0, tiles, bin, stageVa, 1);
      ArmLoose(i);
    }

    /** The chunk just taken becomes the staged one. */
    method ArmLoose(i: int)
      requires Ledger(book, nchunks) && Linked(L(), book) && nfree == |book.lists[Free]|
      requires i >= 0 && staged == -1 && book.lists[Loose] == [i] && book.lists[Staged] == []
      modifies this`staged, this`loose, this`book
      ensures Shape() && book == Move(old(book), Loose, Staged) && staged == i && book.lists[Staged] == [i] && i < nchunks
    {
      MoveKeeps(L(), book, nchunks, Loose, Staged);
      MoveHead(L(), Loose, Staged, Loose);
      assert ChainOk(L(), book, Loose);
      book := Move(book, Loose, Staged);
      loose := -1;
      staged := i;
      assert L() == MoveLinks(old(L()), Loose, Staged);
    }

    /** The staged chunk is named to the handler, which may run up to the last store. */
    method Arm(i: int) returns (ghost n: nat)
      requires Core() && staged == i >= 0
      modifies this`stageSize, this`stageVa, this`hand, this`late, this`consumed, this`missed, this`tiles
      ensures Core() && tiles.Keys == old(tiles).Keys
      ensures W() == HandlerSteps(old(W()), running, n).(stageVa := Va(gpuva, chunkBytes, i)) && stageVa != 0
      ensures n == 0 || Quiet(old(W()), running) || !running ==> tiles == old(tiles)
    {
      ghost var n1 := Interrupts();
      stageSize := chunkBytes;
      ghost var n2 := Interrupts();
      n := n1 + n2;
      StepsSum(old(W()), running, n1, n2);
      QuietSteps(old(W()), running, n1);
      ChunkInPool(gpuva, chunkBytes, nchunks, i);
      stageVa := gpuva + i * chunkBytes;
    }

    /** Takes the staged chunk off the staged slot. */
    method Unstage(idx: int)
      requires Shape() && staged == idx >= 0
      modifies this`staged, this`loose, this`book
      ensures Ledger(book, nchunks) && Linked(L(), book) && nfree == |book.lists[Free]|
      ensures |old(book).lists[Staged]| == 1 && book == Move(old(book), Staged, Loose)
      ensures staged == -1 && book.lists[Loose] == [idx] && book.lists[Staged] == []
    {
      assert ChainOk(L(), book, Staged) && ChainOk(L(), book, Loose);
      MoveKeeps(L(), book, nchunks, Staged, Loose);
      MoveHead(L(), Staged, Loose, Staged);
      assert next[idx] == After(book.lists[Staged], 0);
      book := Move(book, Staged, Loose);
      loose := idx;
      staged := -1;
      assert L() == MoveLinks(old(L()), Staged, Loose);
    }

    /** Grants a chunk at once to a stalled binner. */
    method GrantDirect() returns (ok: bool)
      requires Listed() && bin != 0
      modifies next, this`freeHead, this`nfree, this`loose, this`book, this`heads, this`tiles
      ensures heads.Keys == old(heads).Keys
      ensures Listed() && Grown(old(book), book, bin) && tiles.Keys == old(tiles).Keys
      ensures ok == (old(nfree) > 0)
      ensures ok ==> nfree == old(nfree) - 1
      ensures !ok ==> nfree == 0 && tiles == old(tiles)
      ensures old(Tiled()) ==> Tiled()
    {
      ghost var b0 := book;
      assert ChainOk(L(), book, Free);
      var idx := Alloc();
      ok := idx >= 0;
      if ok {
        assert book.lists[Loose][0] == b0.lists[Free][0];
        Granted(b0, tiles, bin, stageVa, idx);
        tiles := tiles[bin := tiles[bin] + {idx}];
        assert Headed(L(), book, bin);
        Attach(bin, idx);
      } else {
        GrownSame(book, bin);
      }
    }

    /** The staged chunk is attributed to the bin job, or freed if there is none. */
    method Attribute(idx: int)
      requires Listed() && staged == idx >= 0
      modifies next, this`staged, this`freeHead, this`nfree, this`loose, this`book, this`heads
      ensures heads.Keys == old(heads).Keys
      ensures Listed() && Grown(old(book), book, bin) && staged == -1
      ensures bin != 0 ==> nfree == old(nfree) && book.lists[Held(bin)] == [idx] + old(book.lists[Held(bin)])
      ensures bin == 0 ==> nfree == old(nfree) + 1 && book.lists[Free] == [idx] + old(book.lists[Free])
      ensures old(Tiled()) ==> Tiled()
    {
      ghost var b0 := book;
      Unstage(idx);
      GrownMove(b0, Staged, Loose, bin);
      if bin != 0 { AttributeBin(idx, b0); } else { AttributeFree(idx, b0); }
    }

    method AttributeBin(idx: int, ghost b0: Book)
      requires Ledger(book, nchunks) && Linked(L(), book) && nfree == |book.lists[Free]| && Core() && bin != 0
      requires Staged in b0.lists && Loose in b0.lists && Held(bin) in b0.lists
      requires |b0.lists[Staged]| == 1 && b0.lists[Loose] == []
      requires book == Move(b0, Staged, Loose) && book.lists[Loose] == [idx] && book.lists[Staged] == []
      requires Grown(b0, book, bin) && staged == -1
      modifies next, this`heads, this`loose, this`book
      ensures heads.Keys == old(heads).Keys && Listed() && Grown(b0, book, bin)
      ensures book.lists[Held(bin)] == [idx] + b0.lists[Held(bin)]
      ensures TilesOk(b0, tiles, bin, stageVa) ==> Tiled()
    {
      if TilesOk(b0, tiles, bin, stageVa) { TilesHand(b0, tiles, bin, stageVa); }
      GrownMove(book, Loose, Held(bin), bin);
      GrownTrans(b0, book, Move(book, Loose, Held(bin)), bin);
      assert Headed(L(), book, bin);
      Attach(bin, idx);
    }

    method AttributeFree(idx: int, ghost b0: Book)
      requires Ledger(book, nchunks) && Linked(L(), book) && nfree == |book.lists[Free]| && Core() && bin == 0
      requires Staged in b0.lists && Loose in b0.lists && Free in b0.lists && |b0.lists[Staged]| == 1 && b0.lists[Loose] == []
      requires book == Move(b0, Staged, Loose) && book.lists[Loose] == [idx] && book.lists[Staged] == []
      requires Grown(b0, book, bin) && staged == -1 && idx >= 0
      modifies next, this`freeHead, this`nfree, this`loose, this`book
      ensures Listed() && Grown(b0, book, bin) && nfree == old(nfree) + 1
      ensures book.lists[Free] == [idx] + b0.lists[Free]
      ensures TilesOk(b0, tiles, bin, stageVa) ==> Tiled()
    {
      if TilesOk(b0, tiles, bin, stageVa) {
        TilesMove(b0, tiles, bin, stageVa, Staged, Loose);
        TilesMove(book, tiles, bin, stageVa, Loose, Free);
      }
      GrownMove(book, Loose, Free, bin);
      GrownTrans(b0, book, Move(book, Loose, Free), bin);
      assert ChainOk(L(), book, Loose);
      ghost var l := FreeList(idx, Loose, L());
      loose := -1;
      assert l == L();
    }

    /**
     * What the handler reported is collected. The code takes it for the staged chunk: then
     * all is well; if it is another, no book describes the lists any more.
     */
    method Gather() returns (ok: bool, ghost rep: Reported, ghost n: nat)
      requires Listed()
      modifies this, next
      ensures rep == if old(consumed) == 0 then Nothing else Chunk(old(consumed), old(staged))
      ensures ok <==> OfStaged(rep, gpuva, chunkBytes)
      ensures !ok ==> !Described(L(), nchunks)
      ensures ok ==> Gathered(old(book), old(heads).Keys, old(bin), old(running), old(tiles).Keys) && waiting == old(waiting)
      ensures ok ==> staged == if rep.Nothing? then old(staged) else -1
      ensures ok ==> W() == HandlerSteps(old(W()).(consumed := 0), running, n)
      ensures ok && bin != 0 ==> nfree == old(nfree)
      ensures ok && (n == 0 || Quiet(old(W()), running) || !running) ==> tiles == old(tiles) && (old(Tiled()) ==> Tiled())
      ensures old(Steady()) ==> ok && Steady() && (!running ==> consumed == 0)
    {
      rep := if consumed == 0 then Nothing else Chunk(consumed, staged);
      var va;
      va, n := Exchange();
      if va != 0 && chunkBytes != 0 {
        ok := Account(va);
      } else {
        ok := true;
        GrownSame(book, bin);
      }
    }

    /** The report is taken out of the word; the handler may go on at once. */
    method Exchange() returns (va: nat, ghost n: nat)
      requires Listed()
      modifies this`stageVa, this`hand, this`late, this`consumed, this`missed, this`tiles
      ensures Listed() && va == old(consumed) && tiles.Keys == old(tiles).Keys
      ensures W() == HandlerSteps(old(W()).(consumed := 0), running, n)
      ensures n == 0 || Quiet(old(W()), running) || !running ==> tiles == old(tiles) && (old(Tiled()) ==> Tiled())
      ensures old(Steady()) ==> Tiled() && late == 0 && (!running ==> consumed == 0)
      ensures old(Steady()) ==> if va == 0 then Naming() else Blank(W()) && staged >= 0 && va == Va(gpuva, chunkBytes, staged)
    {
      va := consumed;
      consumed := 0;
      ghost var w := W();
      n := Interrupts();
      QuietSteps(w, running, n);
      if !running { IdleMark(w, n); }
    }

    /** The chunk reported at `va` is taken for the staged one. */
    method Account(va: nat) returns (ok: bool)
      requires Listed() && va != 0 && InPool(va, gpuva, chunkBytes, nchunks)
      modifies next, this`staged, this`freeHead, this`nfree, this`loose, this`book, this`heads
      ensures ok <==> old(staged) >= 0 && va == Va(gpuva, chunkBytes, old(staged))
      ensures !ok ==> !Described(L(), nchunks)
      ensures ok ==> Gathered(old(book), old(heads).Keys, bin, running, tiles.Keys) && staged == -1
      ensures ok && bin != 0 ==> nfree == old(nfree)
      ensures ok && old(Tiled()) ==> Tiled()
    {
      ghost var c := ChunkAt(va, gpuva, chunkBytes, nchunks);
      VaIndex(gpuva, chunkBytes, c);
      var idx := (va - gpuva) / chunkBytes;
      ok := idx == staged;
      if staged >= 0 { SameChunk(gpuva, chunkBytes, c, staged); }
      if ok {
        Attribute(idx);
      } else {
        assert Headed(L(), book, bin);
        AttributeStale(idx);
      }
    }

    /**
     * After `n` handler steps from words `w`: tile data that was in order is so still if the
     * handler took nothing, and a steady pool is steady still.
     */
    ghost predicate Carried(w: Words, n: nat, tiled: bool, steady: bool)
      reads this
    {
      && W() == HandlerSteps(w, running, n)
      && ((n == 0 || Quiet(w, running) || !running) && tiled ==> Tiled())
      && (steady ==> Steady())
    }

    /** What a collection and the rest of a service leave of the lists. */
    ghost predicate Gathered(b0: Book, jobs: set<nat>, bin0: nat, running0: bool, keys: set<nat>)
      reads this, next
    {
      Listed() && Grown(b0, book, bin) && heads.Keys == jobs && bin == bin0 && running == running0 && tiles.Keys == keys
    }

    /** Collects what the handler reported, at whatever moment of it. */
    method Collect() returns (ok: bool, ghost rep: Reported)
      requires Listed() && Armed()
      modifies this, next
      ensures ok <==> OfStaged(rep, gpuva, chunkBytes)
      ensures !ok ==> !Described(L(), nchunks)
      ensures ok ==> Gathered(old(book), old(heads).Keys, old(bin), old(running), old(tiles).Keys) && Armed()
      ensures old(Steady()) ==> ok && Steady() && (!running ==> consumed == 0 && tiles == old(tiles))
    {
      ghost var m := Interrupts();
      StepsBlank(old(W()), running, m);
      ghost var w := W();
      ghost var n;
      ok, rep, n := Gather();
      StepsBlank(w.(consumed := 0), running, n);
    }

    /** The handler runs in between. */
    method Yield() returns (ghost n: nat)
      requires Listed()
      modifies this`stageVa, this`hand, this`late, this`consumed, this`missed, this`tiles
      ensures Listed() && tiles.Keys == old(tiles).Keys
      ensures Carried(old(W()), n, old(Tiled()), old(Steady()))
    {
      ghost var w := W();
      n := Interrupts();
      QuietSteps(w, running, n);
      if !running { IdleMark(w, n); }
    }

    method GrantOne() returns (ok: bool, ghost n: nat)
      requires Listed() && bin != 0
      modifies next, this`freeHead, this`nfree, this`loose, this`book, this`heads, this`tiles
      modifies this`stageVa, this`hand, this`late, this`consumed, this`missed
      ensures Gathered(old(book), old(heads).Keys, old(bin), old(running), old(tiles).Keys)
      ensures ok == (old(nfree) > 0)
      ensures !ok ==> nfree == 0
      ensures nfree <= old(nfree)
      ensures Carried(old(W()), n, old(Tiled()), old(Steady()))
    {
      n := Yield();
      ok := GrantDirect();
    }

    /** Grants what the handler could not, as far as the free list goes. */
    method Settle() returns (ghost n: nat)
      requires Listed()
      modifies next, this`freeHead, this`nfree, this`loose, this`book, this`heads, this`tiles
      modifies this`stageVa, this`hand, this`late, this`consumed, this`missed, this`waiting
      ensures Gathered(old(book), old(heads).Keys, old(bin), old(running), old(tiles).Keys)
      ensures waiting > 0 ==> bin != 0 && nfree == 0
      ensures nfree <= old(nfree)
      ensures Carried(old(W()), n, old(Tiled()), old(Steady()))
    {
      ghost var w0, tiled, steady := W(), Tiled(), Steady();
      n := CountMissed();
      GrownSame(book, bin);
      n := GrantWaiting(book, w0, n, tiled, steady);
      if bin == 0 { waiting := 0; }
    }

    method CountMissed() returns (ghost n: nat)
      requires Listed()
      modifies this`stageVa, this`hand, this`late, this`consumed, this`missed, this`tiles, this`waiting
      ensures Listed() && tiles.Keys == old(tiles).Keys
      ensures Carried(old(W()), n, old(Tiled()), old(Steady()))
    {
      n := Yield();
      var m := missed;
      missed := 0;
      if m != 0 && bin != 0 { waiting := waiting + m; }
    }

    method GrantWaiting(ghost b0: Book, ghost w0: Words, ghost m: nat, ghost tiled: bool, ghost steady: bool)
      returns (ghost n: nat)
      requires Listed() && Grown(b0, book, bin) && Carried(w0, m, tiled, steady)
      modifies next, this`freeHead, this`nfree, this`loose, this`book, this`heads, this`tiles
      modifies this`stageVa, this`hand, this`late, this`consumed, this`missed, this`waiting
      ensures Gathered(b0, old(heads).Keys, old(bin), old(running), old(tiles).Keys)
      ensures waiting > 0 && bin != 0 ==> nfree == 0
      ensures nfree <= old(nfree)
      ensures Carried(w0, n, tiled, steady)
    {
      var more := true;
      n := m;
      while waiting > 0 && bin != 0 && more
        invariant Gathered(b0, old(heads).Keys, old(bin), old(running), old(tiles).Keys)
        invariant !more ==> nfree == 0
        invariant nfree <= old(nfree)
        invariant Carried(w0, n, tiled, steady)
        decreases waiting, more
      {
        ghost var k;
        more, k := GrantAgain(b0, w0, n, tiled, steady);
        n := n + k;
        if more { waiting := waiting - 1; }
      }
    }

    method GrantAgain(ghost b0: Book, ghost w0: Words, ghost n: nat, ghost tiled: bool, ghost steady: bool)
      returns (ok: bool, ghost k: nat)
      requires Listed() && bin != 0 && Grown(b0, book, bin) && Carried(w0, n, tiled, steady)
      modifies next, this`freeHead, this`nfree, this`loose, this`book, this`heads, this`tiles
      modifies this`stageVa, this`hand, this`late, this`consumed, this`missed
      ensures Gathered(b0, old(heads).Keys, old(bin), old(running), old(tiles).Keys)
      ensures !ok ==> nfree == 0
      ensures nfree <= old(nfree)
      ensures Carried(w0, n + k, tiled, steady)
    {
      ghost var b1 := book;
      ok, k := GrantOne();
      StepsSum(w0, running, n, k);
      QuietSteps(w0, running, n);
      GrownTrans(b0, b1, book, bin);
    }

    /** The event thread's pass over the pool. */
    method Service() returns (ok: bool, ghost rep: Reported)
      requires Listed() && Armed()
      modifies this, next
      ensures ok <==> OfStaged(rep, gpuva, chunkBytes)
      ensures !ok ==> !Described(L(), nchunks)
      ensures ok ==> Gathered(old(book), old(heads).Keys, old(bin), old(running), old(tiles).Keys) && Armed()
      ensures ok ==> (waiting > 0 ==> bin != 0 && nfree == 0) && (staged < 0 && nchunks > 0 ==> nfree == 0)
      ensures old(Steady()) ==> ok && Steady() && (!running ==> consumed == 0)
    {
      ok, rep := Collect();
      if !ok { return; }
      ghost var b1, w1 := book, W();
      ghost var n := Settle();
      StepsBlank(w1, running, n);
      QuietSteps(w1, running, n);
      GrownTrans(old(book), b1, book, bin);
      ghost var b2 := book;
      Stage();
      GrownTrans(old(book), b2, book, bin);
    }

    /** A report from before a reset is in the word; the other words name at most the staged chunk. */
    ghost predicate Owing()
      reads this
    {
      && late == 0 && consumed != 0 && Tiled()
      && (if staged >= 0 then Named(W().(consumed := 0), Va(gpuva, chunkBytes, staged)) && !Blank(W().(consumed := 0))
          else Blank(W().(consumed := 0)))
    }

    /**
     * A service that finds such a report, up to the moment it has armed a chunk. The lists
     * survive it if and only if the report names the staged chunk. Then all is in order
     * again if and only if no handler had or took the chunk meanwhile, and one was free.
     */
    method LateService() returns (ok: bool, ghost n: nat)
      requires Listed() && Owing()
      modifies this, next
      ensures ok <==> old(staged) >= 0 && old(consumed) == Va(gpuva, chunkBytes, old(staged))
      ensures !ok ==> !Described(L(), nchunks)
      ensures ok ==> Listed() && (Sound() <==> old(hand) == 0 && (n == 0 || !running) && staged >= 0)
    {
      ghost var w, va := W().(consumed := 0), Va(gpuva, chunkBytes, staged);
      ghost var rep;
      ok, rep, n := Gather();
      if !ok { return; }
      ghost var m := Settle();
      StepsSum(w, running, n, m);
      n := n + m;
      n := Rearm(w, n, va);
    }

    /** A chunk is armed over whatever the handler left of a word that named another. */
    method Rearm(ghost w: Words, ghost m: nat, ghost va: int) returns (ghost n: nat)
      requires Listed() && staged == -1 && W() == HandlerSteps(w, running, m)
      requires w.late == 0 && w.consumed == 0 && Named(w, va) && !Blank(w)
      requires w.hand == 0 && (m == 0 || !running) ==> Tiled()
      modifies next, this`freeHead, this`nfree, this`loose, this`book, this`staged
      modifies this`stageSize, this`stageVa, this`hand, this`late, this`consumed, this`missed, this`tiles
      ensures Listed() && n >= m
      ensures Sound() <==> w.hand == 0 && (n == 0 || !running) && staged >= 0
    {
      n := m;
      StepsBlank(w, running, n);
      var i := StageFree();
      if i >= 0 { n := ArmOver(i, w, m, va); }
    }

    method ArmOver(i: int, ghost w: Words, ghost m: nat, ghost va: int) returns (ghost n: nat)
      requires Core() && staged == i >= 0 && W() == HandlerSteps(w, running, m)
      requires w.late == 0 && w.consumed == 0 && Named(w, va) && !Blank(w)
      requires w.hand == 0 && (m == 0 || !running) ==> TilesOk(book, tiles, bin, 1)
      modifies this`stageSize, this`stageVa, this`hand, this`late, this`consumed, this`missed, this`tiles
      ensures Core() && n >= m
      ensures Sound() <==> w.hand == 0 && (n == 0 || !running)
    {
      ghost var k := Arm(i);
      StepsSum(w, running, m, k);
      n := m + k;
      Overwritten(w, running, n, va, stageVa);
      if w.hand == 0 && (n == 0 || !running) { TilesMark(book, tiles, bin, 1, stageVa); }
    }

    // ---- jobs ----

    /** A job is made with an empty chunk list. */
    method NewJob(j: nat)
      requires Listed() && j != 0 && j !in heads
      modifies this`heads, this`book
      ensures Listed() && book == Open(old(book), j) && heads == old(heads)[j := -1]
      ensures old(Tiled()) ==> Tiled()
    {
      OpenKeeps(L(), book, nchunks, j);
      assert Headed(L(), book, j);
      if Tiled() { TilesOpen(book, tiles, bin, stageVa, j); }
      heads := heads[j := -1];
      book := Open(book, j);
      assert L() == old(L()).(heads := heads);
    }

    /** A job's chunks go to the free list. */
    method FreeChunks(j: nat)
      requires Listed() && j in heads && j != bin && j !in tiles
      modifies next, this`freeHead, this`nfree, this`book, this`heads
      ensures Listed() && heads == old(heads)[j := -1] && Held(j) in old(book).lists
      ensures book == MoveAll(old(book), Held(j), Free)
      ensures old(Tiled()) ==> Tiled()
    {
      assert Headed(L(), book, j);
      MoveAllLists(book, Held(j), Free);
      if Tiled() { TilesPass(book, tiles, bin, stageVa, j, Free); }
      ghost var l := FreeList(heads[j], Held(j), L());
      heads := heads[j := -1];
      assert l == L();
    }

    /** A job without chunks is gone. */
    method CloseJob(j: nat)
      requires Listed() && j in heads && j != bin && j !in tiles && Held(j) in book.lists && book.lists[Held(j)] == []
      modifies this`book, this`heads
      ensures Listed() && heads == old(heads) - {j} && book == Shut(old(book), j)
      ensures old(Tiled()) ==> Tiled()
    {
      if Tiled() { TilesShut(book, tiles, bin, stageVa, j); }
      ShutKeeps(L(), book, nchunks, j);
      heads := heads - {j};
      book := Shut(book, j);
      assert L() == old(L()).(heads := heads);
    }

    /** A job's chunks go to the free list and the job is gone. */
    method FreeJob(j: nat)
      requires Listed() && j in heads && j != bin && j !in tiles
      modifies next, this`freeHead, this`nfree, this`book, this`heads
      ensures Listed() && heads.Keys == old(heads).Keys - {j} && Held(j) in old(book).lists
      ensures book.lists == Freed(old(book), j)
      ensures old(Tiled()) ==> Tiled()
    {
      ghost var b0 := book;
      FreeChunks(j);
      MoveAllLists(b0, Held(j), Free);
      CloseJob(j);
      assert book.lists == Freed(b0, j);
    }

    /** The head chunk of job `j` becomes the head chunk of job `r`. */
    method PassHead(j: nat, r: nat)
      requires Shape() && j in heads && r in heads && j != r && heads[j] >= 0
      modifies next, this`heads, this`book
      ensures Shape() && heads.Keys == old(heads).Keys
      ensures Held(j) in old(book).lists && Held(r) in old(book).lists && |old(book).lists[Held(j)]| > 0
      ensures book == Move(old(book), Held(j), Held(r))
    {
      assert Headed(L(), book, j) && Headed(L(), book, r) && ChainOk(L(), book, Held(j));
      MoveKeeps(L(), book, nchunks, Held(j), Held(r));
      MoveHead(L(), Held(j), Held(r), Free);
      var idx := heads[j];
      heads := heads[j := next[idx]];
      next[idx] := heads[r];
      heads := heads[r := idx];
      book := Move(book, Held(j), Held(r));
      assert L() == MoveLinks(old(L()), Held(j), Held(r));
    }

    /** All chunks of a bin pass to its render. */
    method PassChunks(j: nat, r: nat)
      requires Shape() && j in heads && r in heads && j != r
      modifies next, this`heads, this`book
      ensures Shape() && heads.Keys == old(heads).Keys
      ensures Held(j) in old(book).lists && Held(r) in old(book).lists
      ensures book == MoveAll(old(book), Held(j), Held(r))
    {
      assert Headed(L(), book, j) && Headed(L(), book, r) && ChainOk(L(), book, Held(j));
      while heads[j] >= 0
        invariant Shape() && heads.Keys == old(heads).Keys
        invariant Held(j) in book.lists && Held(r) in book.lists
        invariant MoveAll(book, Held(j), Held(r)) == MoveAll(old(book), Held(j), Held(r))
        decreases |book.lists[Held(j)]|
      {
        PassHead(j, r);
      }
      assert ChainOk(L(), book, Held(j));
    }

    /** The bin job is off the hardware; with nothing left to collect its tile data is all in its own list. */
    method TakeOff() returns (j: nat, ghost t: set<int>)
      requires Listed() && Armed() && bin != 0 && !running
      modifies this`bin, this`tiles
      ensures Listed() && Armed() && bin == 0 && j == old(bin) && j in heads && j !in tiles && Held(j) in book.lists
      ensures t == TileSet(old(tiles), j) && tiles == old(tiles) - {j}
      ensures old(Tiled()) ==> Tiled()
      ensures old(Sound()) && consumed == 0 ==> Naming() && forall c :: c in t ==> c in book.lists[Held(j)]
    {
      j := bin;
      t := tiles[bin];
      assert Headed(L(), book, j) && ChainOk(L(), book, Staged);
      if Tiled() {
        if Naming() && consumed == 0 { Settled(book, tiles, bin, stageVa); }
        TilesDrop(book, tiles, bin, stageVa, j, 0);
      }
      tiles := tiles - {j};
      bin := 0;
    }

    /** Job `r` takes over the chunks of job `j`, with the tile data `t` in them. */
    method TakeOver(j: nat, r: nat, ghost t: set<int>)
      requires Listed() && j in heads && r in heads && j != r && j != bin && r != 0 && j !in tiles && Held(j) in book.lists
      modifies next, this`heads, this`book, this`tiles
      ensures Listed() && heads.Keys == old(heads).Keys && j !in tiles
      ensures Held(r) in old(book).lists && book == MoveAll(old(book), Held(j), Held(r))
      ensures tiles == old(tiles)[r := TileSet(old(tiles), r) + t]
      ensures old(Tiled()) && (forall c :: c in t ==> c in old(book).lists[Held(j)]) ==> Tiled()
    {
      ghost var b0 := book;
      assert Headed(L(), book, r) && Headed(L(), book, j);
      MoveAllLists(book, Held(j), Held(r));
      if Tiled() && forall c :: c in t ==> c in b0.lists[Held(j)] { PassTiles(b0, tiles, bin, stageVa, j, r, t); }
      PassChunks(j, r);
      tiles := tiles[r := TileSet(tiles, r) + t];
    }

    /** The binner is done: its chunks pass to the render that reads them, or are freed. */
    method BinDone(r: nat)
      requires Listed() && Armed() && bin != 0 && !running
      requires r != 0 ==> r in heads && r != bin
      modifies next, this`freeHead, this`nfree, this`book, this`heads, this`bin, this`tiles
      ensures Listed() && Armed() && bin == 0 && heads.Keys == old(heads).Keys - {old(bin)}
      ensures Held(old(bin)) in old(book).lists && (r != 0 ==> Held(r) in old(book).lists)
      ensures r != 0 ==> book.lists == Passed(old(book), old(bin), r)
      ensures r == 0 ==> book.lists == Freed(old(book), old(bin))
      ensures tiles == Handed(old(tiles), old(bin), r)
      ensures old(Sound()) && consumed == 0 ==> Sound()
    {
      ghost var b0 := book;
      var j, t := TakeOff();
      if r != 0 {
        TakeOver(j, r, t);
        PassedLists(b0, j, r);
      }
      FreeJob(j);
    }

    /** A render (or a discarded job) is done with its chunks. */
    method JobDone(j: nat)
      requires Listed() && j in heads && j != bin
      modifies next, this`freeHead, this`nfree, this`book, this`heads, this`tiles
      ensures Listed() && heads.Keys == old(heads).Keys - {j} && tiles == old(tiles) - {j}
      ensures Held(j) in old(book).lists && book.lists == Freed(old(book), j)
      ensures old(Tiled()) ==> Tiled()
    {
      if Tiled() { TilesDrop(book, tiles, bin, stageVa, j, bin); }
      tiles := tiles - {j};
      FreeJob(j);
    }

    /** Job `j` becomes the bin job, before anything is started. */
    method Activate(j: nat)
      requires Listed() && bin == 0 && j in heads && j != 0
      modifies this`bin, this`tiles, this`waiting
      ensures Listed() && bin == j && !running && waiting == 0 && tiles == old(tiles)[j := {}]
      ensures old(Tiled()) ==> Tiled()
      ensures old(Sound()) ==> Sound()
    {
      assert Headed(L(), book, j);
      if Tiled() { KickTiles(book, tiles, stageVa, j); }
      bin := j;
      tiles := tiles[j := {}];
      waiting := 0;
    }

    /** A bin job goes to the hardware: nobody waits for it yet, and a chunk is armed if there is one. */
    method KickBin(j: nat)
      requires Listed() && Armed() && bin == 0 && j in heads && j != 0
      modifies this, next
      ensures heads.Keys == old(heads).Keys
      ensures Listed() && Armed() && bin == j && running && waiting == 0 && tiles == old(tiles)[j := {}]
      ensures Grown(old(book), book, j) && (staged < 0 && nchunks > 0 ==> nfree == 0)
      ensures old(Steady()) ==> Steady()
      ensures old(Tiled()) ==> Tiled()
      ensures hand == 0 && (old(nfree) > 0 && nchunks > 0 ==> staged >= 0)
      ensures staged != old(staged) ==> ArmedAt(old(W()), W(), Va(gpuva, chunkBytes, staged))
    {
      Activate(j);
      Stage();
      running := true;
    }

    /** The hardware finishes the bin: the handler that sees it has reported every chunk it handed out. */
    method BinnerFinishes()
      requires Listed() && running && hand == 0
      modifies this`running
      ensures Listed() && !running
    {
      running := false;
    }

    /** One pass over the events: the pool first, so that a chunk handed out to a bin is its own. */
    method Events(outOfMemory: bool, flushDone: bool, r: nat) returns (ok: bool, ghost rep: Reported)
      requires Listed() && Armed()
      requires flushDone && bin != 0 ==> !running && (r != 0 ==> r in heads && r != bin)
      modifies this, next
      ensures ok <==> OfStaged(rep, gpuva, chunkBytes)
      ensures !ok ==> !Described(L(), nchunks)
      ensures ok ==> Listed() && Armed() && running == old(running)
      ensures ok ==> heads.Keys == if flushDone && old(bin) != 0 then old(heads).Keys - {old(bin)} else old(heads).Keys
      ensures ok && flushDone ==> bin == 0 && (old(bin) != 0 ==> Held(old(bin)) !in book.lists)
      ensures ok && flushDone && old(bin) != 0 && r != 0 ==>
                && Held(r) in book.lists && Held(old(bin)) in old(book).lists
                && forall c :: c in old(book).lists[Held(old(bin))] ==> c in book.lists[Held(r)]
      ensures ok && !flushDone ==> bin == old(bin) && Grown(old(book), book, bin)
      ensures old(Steady()) ==> ok && Steady()
    {
      GrownSame(book, bin);
      assert Headed(L(), book, bin) && Headed(L(), book, r);
      ok, rep := true, Nothing;
      if outOfMemory || bin != 0 { ok, rep := Service(); }
      if !ok { return; }
      if flushDone && bin != 0 { BinEnds(r, old(book)); }
    }

    method BinEnds(r: nat, ghost b0: Book)
      requires Listed() && Armed() && bin != 0 && !running && Grown(b0, book, bin)
      requires r != 0 ==> r in heads && r != bin
      modifies next, this`freeHead, this`nfree, this`book, this`heads, this`bin, this`tiles
      ensures Listed() && Armed() && bin == 0 && heads.Keys == old(heads).Keys - {old(bin)} && Held(old(bin)) !in book.lists
      ensures r != 0 ==>
                && Held(r) in book.lists && Held(old(bin)) in b0.lists
                && forall c :: c in b0.lists[Held(old(bin))] ==> c in book.lists[Held(r)]
      ensures old(Sound()) && consumed == 0 ==> Sound()
    {
      ghost var b1, j := book, bin;
      assert JobList(b0, b1, j, j) && JobList(b0, b1, j, r);
      assert Headed(L(), book, j) && Headed(L(), book, r);
      BinDone(r);
      if r != 0 { PassedHas(b0, b1, j, r); }
    }

    /** What a handler has taken and not reported is from now on a late report. */
    method LeaveHand()
      requires Listed()
      modifies this`hand, this`late
      ensures Listed() && hand == 0
      ensures late == if old(hand) != 0 then old(hand) else old(late)
    {
      if hand != 0 { late, hand := hand, 0; }
    }

    /** The hardware forgets the bin, and the shared words are cleared. */
    method ResetWords()
      requires Listed() && hand == 0
      modifies this`stageVa, this`stageSize, this`consumed, this`missed, this`running, this`tiles
      ensures Listed() && Blank(W()) && !running && Naming() && tiles.Keys == old(tiles).Keys
      ensures bin != 0 ==> tiles == old(tiles)[bin := {}]
      ensures bin == 0 ==> tiles == old(tiles)
      ensures old(Tiled()) ==> Tiled()
    {
      if Tiled() { ResetTiles(book, tiles, bin, stageVa); }
      stageVa := 0;
      stageSize := 0;
      consumed := 0;
      missed := 0;
      running := false;
      if bin != 0 { tiles := tiles[bin := {}]; }
    }

    /** The staged chunk, known to nobody after the reset, goes back to the free list. */
    method FreeStaged()
      requires Listed() && Blank(W()) && staged >= 0 && !running
      requires bin != 0 ==> tiles[bin] == {}
      modifies next, this`freeHead, this`nfree, this`book, this`staged
      ensures Listed() && staged == -1
      ensures Staged in old(book).lists && Free in old(book).lists && old(book).lists[Staged] == [old(staged)]
      ensures book == Move(old(book), Staged, Free) && nfree == old(nfree) + 1
      ensures old(Tiled()) ==> Tiled()
    {
      assert ChainOk(L(), book, Staged);
      if Tiled() { StagedTiles(book, tiles, bin); }
      ghost var l := FreeList(staged, Staged, L());
      staged := -1;
      assert l == L();
    }

    /**
     * The reset: the shared words cleared and the staged chunk freed. A handler that has
     * taken that chunk still has it to report.
     */
    method ResetPool()
      requires Listed()
      modifies next, this`freeHead, this`nfree, this`book, this`staged, this`running, this`tiles
      modifies this`stageVa, this`stageSize, this`hand, this`late, this`consumed, this`missed
      ensures Listed() && Armed() && Blank(W()) && Naming() && !running && staged == -1
      ensures late == if old(hand) != 0 then old(hand) else old(late)
      ensures Untouched(old(book), book, {}) && nfree == old(nfree) + (if old(staged) >= 0 then 1 else 0)
      ensures old(Tiled()) ==> Tiled()
    {
      assert ChainOk(L(), book, Staged);
      LeaveHand();
      ResetWords();
      if staged >= 0 { FreeStaged(); }
    }

    /**
     * A wedged GPU: reset at any moment, the staged chunk freed, the jobs on the hardware
     * failed. The words are clear after it, whatever they were before.
     */
    method Wedge(r: nat, active: nat)
      requires Listed() && Armed()
      requires bin != 0 && r != 0 ==> r in heads && r != bin
      requires active != 0 ==> active in heads && active != bin
      modifies this, next
      ensures Listed() && Armed() && bin == 0 && !running && staged == -1 && waiting == 0
      ensures Blank(W()) && Naming() && Untouched(old(book), book, {old(bin), r, active})
      ensures heads.Keys == old(heads).Keys - One(old(bin)) - One(active)
      ensures late == if old(hand) != 0 then old(hand) else old(late)
      ensures old(Tiled()) ==> Tiled()
      ensures nfree >= old(nfree) + (if old(staged) >= 0 then 1 else 0)
    {
      ResetPool();
      waiting := 0;
      FailActive(r, active);
    }

    method FailActive(r: nat, active: nat)
      requires Listed() && Armed() && !running && Blank(W()) && Naming() && staged == -1
      requires bin != 0 && r != 0 ==> r in heads && r != bin
      requires active != 0 ==> active in heads && active != bin
      modifies next, this`freeHead, this`nfree, this`book, this`heads, this`bin, this`tiles
      ensures Listed() && Naming() && bin == 0 && Untouched(old(book), book, {old(bin), r, active})
      ensures heads.Keys == old(heads).Keys - One(old(bin)) - One(active)
      ensures old(Tiled()) ==> Tiled()
      ensures nfree >= old(nfree)
    {
      if bin != 0 { BinDone(r); }
      if active != 0 { JobDone(active); }
    }
    // ---- a report that comes after a reset ----

    /** The free-list walk, begun at a chunk that is on some list: it takes along what follows it there. */
    method FreeFrom(idx: int, ghost l0: Links, ghost v: seq<int>)
      requires v != [] && v[0] == idx && Distinct(v) && Follows(l0, v) && l0.next == next[..] && l0.free == freeHead
      modifies next, this`freeHead, this`nfree
      ensures next[..] == Relinked(l0.next, l0.free, v, |v|) && freeHead == v[|v| - 1]
    {
      var h := idx;
      ghost var i: nat := 0;
      while h >= 0
        invariant i <= |v| && h == (if i < |v| then v[i] else -1)
        invariant freeHead == if i == 0 then l0.free else v[i - 1]
        invariant next[..] == Relinked(l0.next, l0.free, v, i)
        decreases |v| - i
      {
        h := FreeStep(h, l0, v, i);
        i := i + 1;
      }
    }

    method FreeStep(h: int, ghost l0: Links, ghost v: seq<int>, ghost i: nat) returns (after: int)
      requires i < |v| && h == v[i] && Distinct(v) && Follows(l0, v)
      requires freeHead == if i == 0 then l0.free else v[i - 1]
      requires next[..] == Relinked(l0.next, l0.free, v, i)
      modifies next, this`freeHead, this`nfree
      ensures after == After(v, i) && freeHead == v[i] && next[..] == Relinked(l0.next, l0.free, v, i + 1)
    {
      RelinkedAt(l0.next, l0.free, v, i, h);
      assert h !in v[..i];
      assert next[h] == next[..][h];
      after := next[h];
      next[h] := freeHead;
      freeHead := h;
      nfree := nfree + 1;
    }

    method FreeAgain(idx: int, ghost p: Place, ghost k: nat)
      requires Found(L(), book, nchunks, p, k, idx)
      modifies next, this`freeHead, this`nfree
      ensures FreedWalk(old(L()), L(), book.lists[p][k..])
    {
      ghost var l0, v := L(), book.lists[p][k..];
      WalkIn(l0, book, nchunks, p, k, idx);
      FollowsIn(l0, book.lists[p], k);
      FreeFrom(idx, l0, v);
      RelinkedWalk(l0, L(), v);
    }

    /** A report of a chunk that is not the staged one: it is attached, or freed, all the same. */
    method AttributeStale(idx: int)
      requires Shape() && 0 <= idx < nchunks && idx != staged && (bin != 0 ==> bin in heads)
      modifies next, this`heads, this`freeHead, this`nfree
      ensures !Described(L(), nchunks)
      ensures bin != 0 ==> idx < next.Length && L() == Attached(old(L()), idx, bin)
      ensures bin == 0 ==>
        exists p, k: nat :: Found(old(L()), book, nchunks, p, k, idx) && FreedWalk(old(L()), L(), book.lists[p][k..])
    {
      ghost var l0 := L();
      ghost var p, k := Find(l0, book, nchunks, idx);
      if bin != 0 {
        AttachBreaks(l0, book, nchunks, idx, bin);
        next[idx] := heads[bin];
        heads := heads[bin := idx];
        assert L() == Attached(l0, idx, bin);
      } else {
        FreeAgain(idx, p, k);
        FreeBreaks(l0, L(), book, nchunks, p, k, idx);
      }
    }

    /**
     * A reset, and then the report that a handler may still owe, collected at once. The
     * lists survive that if and only if no handler had a chunk in hand.
     */
    method ResetThenReport(r: nat, active: nat)
      requires Listed() && Armed()
      requires bin != 0 && r != 0 ==> r in heads && r != bin
      requires active != 0 ==> active in heads && active != bin
      modifies this, next
      ensures Described(L(), nchunks) <==> old(hand) == 0 && old(late) == 0
    {
      Wedge(r, active);
      if late != 0 {
        Report();
        ghost var rep, n;
        var ok;
        ok, rep, n := Gather();
      } else {
        assert Accounts(L(), nchunks, book);
      }
    }
  }
}
