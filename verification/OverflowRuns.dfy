/**
 * Everything the server does to the overflow pool, in any order, with handler steps in
 * between: bins and renders come and go, the binner runs out of memory, the GPU is reset.
 */
module OverflowRuns {
  import opened Overflow
  import opened OverflowLate
  import opened OverflowPool

  datatype Op =
    | NewJob(j: nat)
    | KickBin(j: nat)
    | BinnerFinishes
    | Events(outOfMemory: bool, flushDone: bool, r: nat)
    | JobDone(j: nat)
    | Reset(r: nat, active: nat)

  /** Every chunk is in one place only. */
  ghost predicate Partitioned(l: Links, n: nat) {
    exists b: Book :: Accounts(l, n, b) && forall c: nat :: c < n ==> InOnePlace(b, c)
  }

  ghost predicate InOnePlace(b: Book, c: nat) {
    (exists p, i :: IsAt(b, p, i, c)) && forall p, q, i, k :: IsAt(b, p, i, c) && IsAt(b, q, k, c) ==> p == q && i == k
  }

  lemma AccountsPartitioned(l: Links, n: nat, b: Book)
    requires Accounts(l, n, b)
    ensures Partitioned(l, n)
  {
    forall c: nat | c < n ensures InOnePlace(b, c) { OnePlace(b, n, c); }
  }

  /** Described links put every chunk in one place. */
  lemma DescribedPartitioned(l: Links, n: nat)
    ensures Described(l, n) <==> Partitioned(l, n)
  {
    if Described(l, n) {
      var b: Book :| Accounts(l, n, b);
      AccountsPartitioned(l, n, b);
    }
  }

  /**
   * One step of the server, if it can happen now. `owed` is whether it was a reset that
   * found a chunk in the handler's hand.
   */
  method Apply(p: Pool, op: Op) returns (ok: bool, ghost rep: Reported, ghost owed: bool)
    requires p.Listed() && p.Armed()
    modifies p, p.next
    ensures ok <==> OfStaged(rep, p.gpuva, p.chunkBytes)
    ensures ok ==> p.Listed() && p.Armed()
    ensures !ok ==> !Described(p.L(), p.nchunks)
    ensures old(p.Steady()) && !owed ==> ok && p.Steady()
  {
    ok, rep, owed := true, Nothing, op.Reset? && p.hand != 0;
    match op
    case NewJob(j) => if j != 0 && j !in p.heads { p.NewJob(j); }
    case KickBin(j) => if p.bin == 0 && j in p.heads && j != 0 { p.KickBin(j); }
    case BinnerFinishes => if p.running && p.hand == 0 { p.BinnerFinishes(); }
    case Events(outOfMemory, flushDone, r) =>
      if !(flushDone && p.bin != 0) || (!p.running && (r != 0 ==> r in p.heads && r != p.bin)) {
        ok, rep := p.Events(outOfMemory, flushDone, r);
      }
    case JobDone(j) => if j in p.heads && j != p.bin { p.JobDone(j); }
    case Reset(r, active) =>
      if (p.bin != 0 && r != 0 ==> r in p.heads && r != p.bin) && (active != 0 ==> active in p.heads && active != p.bin) {
        p.Wedge(r, active);
      }
  }

  /** Handler steps, late reports among them, and then a step of the server. */
  method Turn(p: Pool, op: Op) returns (ok: bool, ghost rep: Reported, ghost owed: bool)
    requires p.Listed() && p.Armed()
    modifies p, p.next
    ensures ok <==> OfStaged(rep, p.gpuva, p.chunkBytes)
    ensures ok ==> p.Listed() && p.Armed()
    ensures !ok ==> !Described(p.L(), p.nchunks)
    ensures old(p.Steady()) && !owed ==> ok && p.Steady()
  {
    ghost var w := p.W();
    ghost var n := p.Interrupts();
    StepsBlank(w, p.running, n);
    ok, rep, owed := Apply(p, op);
  }

  /**
   * Any sequence of steps, with any number of handler steps before each and inside them,
   * late reports included. Each chunk is on exactly one list in every state of the run, if
   * and only if every report collected on the way named the chunk that was staged then; the
   * first that does not ends the run. And all do, if the run begins steady and no reset in
   * it found a chunk in the handler's hand.
   */
  method Drive(p: Pool, ops: seq<Op>)
    returns (ok: bool, ghost trace: seq<Links>, ghost reps: seq<Reported>, ghost owed: bool)
    requires p.Listed() && p.Armed()
    modifies p, p.next
    ensures |trace| == |reps| + 1 <= |ops| + 1 && trace[|reps|] == p.L() && (ok ==> |reps| == |ops|)
    ensures ok ==> p.Listed() && p.Armed()
    ensures ok <==> forall i :: 0 <= i < |reps| ==> OfStaged(reps[i], p.gpuva, p.chunkBytes)
    ensures ok <==> forall i :: 0 <= i < |trace| ==> Partitioned(trace[i], p.nchunks)
    ensures forall i :: 0 <= i < |reps| ==> Partitioned(trace[i], p.nchunks)
    ensures old(p.Steady()) && !owed ==> ok && p.Steady()
  {
    ok, trace, reps, owed := true, [p.L()], [], false;
    AccountsPartitioned(p.L(), p.nchunks, p.book);
    var i := 0;
    while i < |ops| && ok
      invariant i <= |ops| && |trace| == |reps| + 1 == i + 1 && trace[i] == p.L()
      invariant ok ==> p.Listed() && p.Armed()
      invariant ok <==> forall k :: 0 <= k < |reps| ==> OfStaged(reps[k], p.gpuva, p.chunkBytes)
      invariant forall k :: 0 <= k < |reps| ==> Partitioned(trace[k], p.nchunks)
      invariant ok <==> Partitioned(trace[i], p.nchunks)
      invariant old(p.Steady()) && !owed ==> ok && p.Steady()
    {
      ghost var rep, o;
      ok, rep, o := Turn(p, ops[i]);
      if ok { assert Accounts(p.L(), p.nchunks, p.book); }
      DescribedPartitioned(p.L(), p.nchunks);
      trace, reps, owed := trace + [p.L()], reps + [rep], owed || o;
      assert reps[i] == rep;
      i := i + 1;
    }
  }

  // ---- a late report that names the staged chunk, and what comes of it ----

  /** A pool of one chunk. */
  lemma OneBigChunk()
    ensures ChunkBytes(32768) == POOL_BYTES && Chunks(POOL_BYTES) == 1
  {
  }

  lemma AtPlace(b: Book, n: nat, p: Place, c: int)
    requires Ledger(b, n) && p in b.lists && c in b.lists[p]
    ensures 0 <= c < n && b.at[c] == p
  {
    assert ListOk(b, p);
  }

  lemma NoneLeft(b: Book, c: int)
    requires Ledger(b, 1) && c in b.lists[Staged]
    ensures b.lists[Free] == [] && c == 0
  {
    AtPlace(b, 1, Staged, c);
    if b.lists[Free] != [] { AtPlace(b, 1, Free, b.lists[Free][0]); }
  }

  /** The only chunk is staged for a bin, and the handler takes it. */
  method TakenOnce(va: nat) returns (p: Pool)
    requires va > 0
    ensures fresh(p) && fresh(p.next) && p.Valid() && p.Armed() && p.nchunks == 1 && p.heads.Keys == {1} && p.bin == 1
    ensures p.staged == 0 && p.late == 0 && p.hand == Va(p.gpuva, p.chunkBytes, 0) > 0
  {
    OneBigChunk();
    p := new Pool(32768, va);
    p.NewJob(1);
    p.KickBin(1);
    NoneLeft(p.book, p.staged);
    p.Take();
  }

  /** A reset frees it, it is staged for the next bin, and the handler reports it. */
  method ReportedLate(va: nat) returns (p: Pool)
    requires va > 0
    ensures fresh(p) && fresh(p.next) && p.Listed() && p.Owing() && p.nchunks == 1 && p.running && p.nfree == 0
    ensures p.staged >= 0 && p.consumed == Va(p.gpuva, p.chunkBytes, p.staged) && p.hand == 0
  {
    p := TakenOnce(va);
    ghost var x := p.hand;
    p.Wedge(0, 0);
    p.NewJob(2);
    KickLate(p, x);
  }

  method KickLate(p: Pool, ghost x: nat)
    requires p.Listed() && p.Armed() && p.Tiled() && Blank(p.W()) && p.late == x != 0 && x == Va(p.gpuva, p.chunkBytes, 0)
    requires p.nchunks == 1 && p.nfree > 0 && p.staged == -1 && p.bin == 0 && 2 in p.heads
    modifies p, p.next
    ensures p.Listed() && p.Owing() && p.running && p.nfree == 0 && p.staged == 0 && p.consumed == x && p.hand == 0
  {
    p.KickBin(2);
    NoneLeft(p.book, p.staged);
    if p.late != 0 { p.Report(); }
  }

  /**
   * A report that comes after a reset, for the chunk that is staged again: the lists survive
   * it, but with nothing free the word still names the chunk, which now belongs to the
   * second bin. The handler hands it out once more, and the next collection breaks the lists.
   */
  method HandedOutTwice(va: nat) returns (p: Pool, ghost l: Links)
    requires va > 0
    ensures Described(l, p.nchunks) && !Described(p.L(), p.nchunks)
  {
    p := ReportedLate(va);
    ghost var x := p.stageVa;
    Dangle(p, x);
    l := p.L();
    assert Accounts(l, p.nchunks, p.book);
    UseUp(p, x);
  }

  /** The late report is collected and the service goes on; whatever the handler does, a word names the chunk. */
  method Dangle(p: Pool, ghost x: nat)
    requires p.Listed() && p.Owing() && p.running && p.nfree == 0 && p.nchunks > 0 && x == p.stageVa && p.hand == 0
    requires p.staged >= 0 && p.consumed == Va(p.gpuva, p.chunkBytes, p.staged)
    modifies p, p.next
    ensures p.Listed() && p.staged == -1 && p.late == 0 && p.running && Named(p.W(), x) && !Blank(p.W())
  {
    ghost var w := p.W().(consumed := 0);
    ghost var rep, n;
    var ok;
    ok, rep, n := p.Gather();
    ghost var m := p.Settle();
    StepsSum(w, p.running, n, m);
    StepsNamed(w, p.running, n + m, x);
    StepsBlank(w, p.running, n + m);
    p.Stage();
  }

  /** The handler hands out and reports the chunk that the word names, though it is not staged. */
  method UseUp(p: Pool, ghost x: nat)
    requires p.Listed() && p.staged == -1 && p.late == 0 && p.running && Named(p.W(), x) && !Blank(p.W())
    modifies p, p.next
    ensures !Described(p.L(), p.nchunks)
  {
    if p.hand == 0 && p.stageVa != 0 { p.Take(); }
    if p.hand != 0 { p.Give(); }
    ghost var rep, n;
    var ok;
    ok, rep, n := p.Gather();
  }
}
