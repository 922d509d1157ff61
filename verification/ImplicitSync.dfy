/**
 Implicit synchronisation over shared buffers. A buffer keeps one last-use fence per
 queue; a new use overwrites one of them. That the remaining fences still stand for
 every earlier use is an argument over all overwrites of a run, made here with a history:
 for each job, the set of jobs that must have finished before it can finish.

 Runs as in SchedRuns, without client close and without a dropped dependency.
 */
module ImplicitSync {
  import opened SchedState
  import opened SchedInv
  import opened SchedSteps
  import opened SchedRuns
  import opened SchedTheorems

  /** A use of a buffer: the job and the slot that submitted it. */
  datatype Use = Use(g: nat, slot: nat)

  type Cover = map<nat, set<nat>>

  datatype History = History(s: State, cover: Cover, uses: map<nat, set<Use>>)

  function Uses(uses: map<nat, set<Use>>, bo: nat): set<Use> {
    if bo in uses then uses[bo] else {}
  }

  // ------------------------------------------------------------------------
  // Building the history
  // ------------------------------------------------------------------------

  predicate Named(deps: seq<Fence>, f: Fence) {
    exists i :: 0 <= i < |deps| && deps[i] == f
  }

  /** The jobs a new job with these dependencies, at the end of row `c`, has to wait for. */
  function Waits(w: Work, c: Cell, deps: seq<Fence>): set<nat> {
    set d | d in w.jobs && (CellOf(w.jobs[d].fence) == c || Named(deps, w.jobs[d].fence))
  }

  function Covered(cover: Cover, ds: set<nat>): set<nat> {
    set d, x | d in ds && d in cover && x in cover[d] :: x
  }

  function NewCover(w: Work, cover: Cover, c: Cell, deps: seq<Fence>): set<nat> {
    {w.gseq + 1} + Covered(cover, Waits(w, c, deps))
  }

  function EnqueueH(h: History, slot: nat, q: nat, deps: seq<Fence>, bos: seq<nat>): History {
    h.(s := Enqueue(h.s, slot, q, deps, bos),
       cover := h.cover[h.s.w.gseq + 1 := NewCover(h.s.w, h.cover, Cell(slot, q), deps)])
  }

  function LinkH(h: History, b: nat, r: nat): History
    requires b in h.s.w.jobs && r in h.s.w.jobs && b in h.cover && r in h.cover
  {
    h.(s := h.s.(w := LinkPair(h.s.w, b, r)), cover := h.cover[r := h.cover[r] + h.cover[b]])
  }

  function AddUses(uses: map<nat, set<Use>>, bos: seq<nat>, u: Use): map<nat, set<Use>> {
    map b | b in uses.Keys + (set i | 0 <= i < |bos| :: bos[i]) ::
      if b in bos then Uses(uses, b) + {u} else Uses(uses, b)
  }

  /** The last-use record and the history of a use by the newest job. */
  function UseH(h: History, slot: nat, bos: seq<nat>, f: Fence): History {
    h.(s := h.s.(last := MarkUse(h.s.last, bos, f)), uses := AddUses(h.uses, bos, Use(h.s.w.gseq, slot)))
  }

  function QueueH(h: History, slot: nat, rq: Request): History {
    var s := h.s;
    var deps := FirstDeps(s, slot, rq).deps;
    if HasPair(rq.op) then
      var h1 := EnqueueH(h, slot, BIN, deps, []);
      var h2 := EnqueueH(h1, slot, RENDER, ExplicitDeps(s, slot, rq.ins, {true}), rq.bos);
      LinkH(h2, h1.s.w.gseq, h2.s.w.gseq)
    else EnqueueH(h, slot, OneQueue(rq.op), deps, rq.bos)
  }

  /** A submit, recorded; the syncobjs it sets do not matter to the history. */
  function SubmittedH(h: History, slot: nat, rq: Request): History {
    var f := NewFence(h.s.page, slot, OneQueue(rq.op));
    var h1 := UseH(QueueH(h, slot, rq), slot, rq.bos, f);
    h1.(s := h1.s.(syncs := SetOuts(h.s.syncs, slot, rq.outs, f)))
  }

  function JoinedH(h: History, slot: nat, bos: seq<nat>, f: Fence): History {
    UseH(EnqueueH(h, slot, CPU, JoinDeps(h.s, bos, f).deps, []), slot, bos, NewFence(h.s.page, slot, CPU))
  }

  function PrepareH(h: History, step: Step): History {
    match step
    case Submit(slot, rq) => if SubmitCheck(h.s, slot, rq).Ok? then SubmittedH(h, slot, rq) else h
    case SubmitNop(slot) => EnqueueH(h, slot, CPU, [], [])
    case AttachFence(slot, bos, f) => if AttachRejected(h.s, bos, f) then h else JoinedH(h, slot, bos, f)
    case _ => h.(s := Prepare(h.s, step))
  }

  ghost function NextH(h: History, step: Step): History {
    PrepareH(h, step).(s := Next(h.s, step))
  }

  /** The steps of the runs considered here; buffer handles are never reused. */
  ghost predicate EnabledH(h: History, step: Step) {
    && Enabled(h.s, step)
    && !step.CloseClient?
    && (step.Submit? && SubmitCheck(h.s, step.slot, step.rq).Ok? ==> FirstDeps(h.s, step.slot, step.rq).dropped == 0)
    && (step.BoCreate? ==> step.bo !in h.uses)
  }

  lemma QueueHState(h: History, slot: nat, rq: Request)
    ensures QueueH(h, slot, rq).s == Queue(h.s, slot, rq)
    ensures QueueH(h, slot, rq).uses == h.uses && Queue(h.s, slot, rq).last == h.s.last
  {
  }

  /** The history follows the state machine and adds nothing to it. */
  lemma PrepareHState(h: History, step: Step)
    ensures PrepareH(h, step).s == Prepare(h.s, step)
  {
    if step.Submit? { QueueHState(h, step.slot, step.rq); }
  }

  // ------------------------------------------------------------------------
  // The invariant of the history
  // ------------------------------------------------------------------------

  /** `d` directly keeps `g` from running: it is before it in the row, its bin, or a dependency. */
  predicate Blocks(w: Work, d: nat, g: nat) {
    d in w.jobs && g in w.jobs && d < g &&
    (CellOf(w.jobs[d].fence) == CellOf(w.jobs[g].fence) || w.jobs[g].bin == d || Named(w.jobs[g].deps, w.jobs[d].fence))
  }

  ghost predicate HasBlocker(w: Work, cover: Cover, g: nat, x: nat) {
    exists d :: Blocks(w, d, g) && d in cover && x in cover[d]
  }

  /** As long as a job covered by `g` is unfinished, `g` is not on the hardware, and something shows why. */
  ghost predicate Held(w: Work, cover: Cover, g: nat)
    requires g in cover
  {
    forall x :: x in cover[g] && x in w.jobs && x != g ==> !OnQueue(w, g) && HasBlocker(w, cover, g, x)
  }

  ghost predicate HeldAll(w: Work, cover: Cover) {
    forall g :: g in w.jobs ==> g in cover && g in cover[g] && Held(w, cover, g)
  }

  ghost predicate Below(cover: Cover, gseq: nat) {
    && (forall g :: g in cover ==> g <= gseq)
    && (forall g, x :: g in cover && x in cover[g] ==> 0 < x <= g)
  }

  /** A finished job covers only finished jobs. */
  ghost predicate FinishedOk(w: Work, cover: Cover) {
    forall g, x :: g in cover && g !in w.jobs && x in cover[g] ==> x !in w.jobs
  }

  predicate SameRow(w: Work, d: nat, g: nat) {
    d in w.jobs && g in w.jobs && d < g && CellOf(w.jobs[d].fence) == CellOf(w.jobs[g].fence)
  }

  /** In one row a later job covers what an earlier one covers. */
  ghost predicate RowsNested(w: Work, cover: Cover) {
    forall d, g :: SameRow(w, d, g) && d in cover && g in cover ==> cover[d] <= cover[g]
  }

  ghost predicate CoverOk(w: Work, cover: Cover) {
    HeldAll(w, cover) && Below(cover, w.gseq) && FinishedOk(w, cover) && RowsNested(w, cover)
  }

  /** Slot `b` has not used the buffer since job `g`. */
  ghost predicate SilentSince(uses: map<nat, set<Use>>, bo: nat, g: nat, b: nat) {
    forall u :: u in Uses(uses, bo) && u.slot == b ==> u.g <= g
  }

  /** A last-use fence of `bo`, not of slot `b`, belongs to an unfinished job that covers `g`. */
  ghost predicate Shown(w: Work, cover: Cover, last: map<nat, map<nat, Fence>>, bo: nat, g: nat, b: nat) {
    exists q, l :: ShownBy(w, cover, last, bo, g, b, q, l)
  }

  predicate ShownBy(w: Work, cover: Cover, last: map<nat, map<nat, Fence>>, bo: nat, g: nat, b: nat, q: nat, l: nat) {
    bo in last && q in last[bo] && last[bo][q].slot != b && l in w.jobs && w.jobs[l].fence == last[bo][q]
    && l in cover && g in cover[l]
  }

  /** Slot `b` would have to wait for the unfinished use `u` of another slot. */
  ghost predicate Owed(w: Work, last: map<nat, map<nat, Fence>>, uses: map<nat, set<Use>>, bo: nat, u: Use, b: nat) {
    bo in last && u in Uses(uses, bo) && u.g in w.jobs && b != u.slot && SilentSince(uses, bo, u.g, b)
  }

  /**
   Every unfinished use of a buffer shows in the last-use fences, and shows in the eyes
   of any other slot that has not used the buffer since.
   */
  ghost predicate UsesOk(w: Work, cover: Cover, last: map<nat, map<nat, Fence>>, uses: map<nat, set<Use>>) {
    && (forall bo, u, b: nat :: Owed(w, last, uses, bo, u, b) ==> Shown(w, cover, last, bo, u.g, b))
    && (forall bo, u :: u in Uses(uses, bo) ==> 0 < u.g <= w.gseq && u.slot < NSLOTS)
    && (forall bo, q :: bo in last && q in last[bo] ==> last[bo][q].queue == q && last[bo][q].seqno > 0)
  }

  ghost predicate AllUsed(w: Work, used: set<nat>) {
    forall g :: g in w.jobs ==> w.jobs[g].fence.slot in used
  }

  ghost predicate InvH(h: History) {
    && Inv(h.s)
    && AllUsed(h.s.w, h.s.used)
    && CoverOk(h.s.w, h.cover)
    && UsesOk(h.s.w, h.cover, h.s.last, h.uses)
  }

  // ------------------------------------------------------------------------
  // Kicks and completions
  // ------------------------------------------------------------------------

  /** A ready head of an idle queue waits for nothing any more. */
  lemma ReadyHeadIsFree(s: State, cover: Cover, c: Cell, x: nat)
    requires Inv(s) && CoverOk(s.w, cover) && HeadReady(s.w, s.page, c) && c.queue !in s.w.active
    requires Fifo(s.w, c)[0] in cover && x in cover[Fifo(s.w, c)[0]] && x != Fifo(s.w, c)[0]
    ensures x !in s.w.jobs
  {
    var g := Fifo(s.w, c)[0];
    assert RowOk(s.w, s.page, s.used, c);
    assert InRow(s.w, c, g);
    assert JobOk(s.w, s.page, s.used, g);
    if x in s.w.jobs {
      assert Held(s.w, cover, g);
      var d :| Blocks(s.w, d, g) && d in cover && x in cover[d];
      NoReadyBlocker(s, c, d);
    }
  }

  lemma NoReadyBlocker(s: State, c: Cell, d: nat)
    requires Inv(s) && HeadReady(s.w, s.page, c) && c.queue !in s.w.active && d in s.w.jobs
    ensures !Blocks(s.w, d, Fifo(s.w, c)[0])
  {
    var g := Fifo(s.w, c)[0];
    assert RowOk(s.w, s.page, s.used, c);
    assert InRow(s.w, c, g);
    assert JobOk(s.w, s.page, s.used, g) && JobOk(s.w, s.page, s.used, d);
    UnfinishedUnsignaled(s, d);
  }

  lemma KickHeld(w: Work, cover: Cover, c: Cell, g: nat)
    requires Fifo(w, c) != [] && g in w.jobs && g in cover && Held(w, cover, g)
    requires g == Fifo(w, c)[0] ==> forall x :: x in cover[g] && x != g ==> x !in w.jobs
    ensures Held(PopTo(w, c), cover, g)
  {
    var t := PopTo(w, c);
    forall x | x in cover[g] && x in t.jobs && x != g ensures !OnQueue(t, g) && HasBlocker(t, cover, g, x) {
      var d :| Blocks(w, d, g) && d in cover && x in cover[d];
      assert Blocks(t, d, g);
    }
  }

  lemma KickCover(s: State, cover: Cover, c: Cell)
    requires Inv(s) && CoverOk(s.w, cover) && HeadReady(s.w, s.page, c) && c.queue !in s.w.active
    ensures CoverOk(PopTo(s.w, c), cover)
  {
    var h := Fifo(s.w, c)[0];
    forall x | h in cover && x in cover[h] && x != h ensures x !in s.w.jobs { ReadyHeadIsFree(s, cover, c, x); }
    MoveCover(s.w, cover, c);
  }

  lemma MoveCover(w: Work, cover: Cover, c: Cell)
    requires CoverOk(w, cover) && Fifo(w, c) != []
    requires forall x :: Fifo(w, c)[0] in cover && x in cover[Fifo(w, c)[0]] && x != Fifo(w, c)[0] ==> x !in w.jobs
    ensures CoverOk(PopTo(w, c), cover)
  {
    var t := PopTo(w, c);
    forall g | g in t.jobs ensures g in cover && g in cover[g] && Held(t, cover, g) {
      KickHeld(w, cover, c, g);
    }
    forall d, g | SameRow(t, d, g) && d in cover && g in cover ensures cover[d] <= cover[g] {
      assert SameRow(w, d, g);
    }
  }

  lemma KickUses(s: State, cover: Cover, uses: map<nat, set<Use>>, t: State)
    requires UsesOk(s.w, cover, s.last, uses) && t.w.jobs == s.w.jobs && t.w.gseq == s.w.gseq && t.last == s.last
    ensures UsesOk(t.w, cover, t.last, uses)
  {
    forall bo, u, b: nat | Owed(t.w, t.last, uses, bo, u, b) ensures Shown(t.w, cover, t.last, bo, u.g, b) {
      assert Owed(s.w, s.last, uses, bo, u, b);
      var q, l :| ShownBy(s.w, cover, s.last, bo, u.g, b, q, l);
      assert ShownBy(t.w, cover, t.last, bo, u.g, b, q, l);
    }
  }

  lemma KickNextCover(s: State, cover: Cover, q: nat)
    requires Inv(s) && CoverOk(s.w, cover)
    ensures CoverOk(KickNext(s, q).w, cover)
  {
    var i := FirstReady(s, q, FIRST);
    if q !in s.w.active && i < NSLOTS {
      KickCover(s, cover, Cell(RrSlot(s, q, i), q));
    }
  }

  lemma PipelineCover(s: State, cover: Cover, q: nat)
    requires Inv(s) && CoverOk(s.w, cover) && q <= NQUEUES
    ensures CoverOk(RunPipeline(s, q).w, cover)
    decreases NQUEUES - q
  {
    if q < NQUEUES {
      KickNextCover(s, cover, q);
      KickNextKeeps(s, s.used, q);
      PipelineCover(if IsHw(q) then KickNext(s, q) else s, cover, q + 1);
    }
  }

  lemma SerialCover(s: State, cover: Cover)
    requires Inv(s) && CoverOk(s.w, cover)
    ensures CoverOk(RunSerial(s).w, cover)
  {
    var kicked, c := SerialKick(s);
    if kicked { KickCover(s, cover, c); }
  }

  /** A scheduler run keeps the history's invariant. */
  lemma DispatchCover(h: History)
    requires InvH(h)
    ensures InvH(h.(s := Dispatch(h.s)))
  {
    var s := h.s;
    KickNextCover(s, h.cover, CPU);
    KickNextKeeps(s, s.used, CPU);
    var s1 := KickNext(s, CPU);
    if s1.mode == Serial { SerialCover(s1, h.cover); } else { PipelineCover(s1, h.cover, BIN); }
    DispatchKeeps(s, s.used);
    DispatchFrame(s);
    KickUses(s, h.cover, h.uses, Dispatch(s));
  }

  lemma DoneHeld(w: Work, cover: Cover, y: nat, g: nat)
    requires OnQueue(w, y) && y in cover && Held(w, cover, y)
    requires g in w.jobs && g != y && g in cover && Held(w, cover, g)
    ensures Held(TakeOff(w, y, false), cover, g)
  {
    var t := TakeOff(w, y, false);
    forall x | x in cover[g] && x in t.jobs && x != g ensures !OnQueue(t, g) && HasBlocker(t, cover, g, x) {
      var d :| Blocks(w, d, g) && d in cover && x in cover[d];
      assert d != y;
      assert Blocks(t, d, g);
    }
  }

  lemma DoneCover(w: Work, cover: Cover, y: nat)
    requires CoverOk(w, cover) && OnQueue(w, y)
    ensures CoverOk(TakeOff(w, y, false), cover)
  {
    var t := TakeOff(w, y, false);
    assert Held(w, cover, y);
    forall g | g in t.jobs ensures g in cover && g in cover[g] && Held(t, cover, g) { DoneHeld(w, cover, y, g); }
    forall d, g | SameRow(t, d, g) && d in cover && g in cover ensures cover[d] <= cover[g] {
      assert SameRow(w, d, g);
    }
  }

  lemma DoneUses(w: Work, cover: Cover, last: map<nat, map<nat, Fence>>, uses: map<nat, set<Use>>, y: nat)
    requires y in cover && Held(w, cover, y) && UsesOk(w, cover, last, uses) && OnQueue(w, y)
    ensures UsesOk(TakeOff(w, y, false), cover, last, uses)
  {
    var t := TakeOff(w, y, false);
    forall bo, u, b: nat | Owed(t, last, uses, bo, u, b) ensures Shown(t, cover, last, bo, u.g, b) {
      assert Owed(w, last, uses, bo, u, b);
      var q, l :| ShownBy(w, cover, last, bo, u.g, b, q, l);
      assert l != y;
      assert ShownBy(t, cover, last, bo, u.g, b, q, l);
    }
  }

  lemma CompleteEachCover(h: History, done: seq<nat>)
    requires InvH(h)
    ensures InvH(h.(s := CompleteEach(h.s, done)))
    decreases |done|
  {
    var s := h.s;
    if done != [] {
      var q := done[0];
      if q in s.w.active {
        assert QueueOk(s.w, q);
        var y := s.w.active[q];
        DoneKeeps(s, y);
        DoneCover(s.w, h.cover, y);
        DoneUses(s.w, h.cover, s.last, h.uses, y);
        CompleteEachCover(h.(s := JobDone(s, y, false)), done[1..]);
      } else {
        CompleteEachCover(h, done[1..]);
      }
    }
  }

  // ------------------------------------------------------------------------
  // New jobs
  // ------------------------------------------------------------------------

  lemma OldHeld(w: Work, cover: Cover, j: Job, ys: set<nat>, g: nat)
    requires Numbered(w) && g in w.jobs && g in cover && Below(cover, w.gseq) && Held(w, cover, g)
    ensures Held(Push(w, j), cover[w.gseq + 1 := ys], g)
  {
    var t, cover' := Push(w, j), cover[w.gseq + 1 := ys];
    forall x | x in cover'[g] && x in t.jobs && x != g ensures !OnQueue(t, g) && HasBlocker(t, cover', g, x) {
      var d :| Blocks(w, d, g) && d in cover && x in cover[d];
      assert Blocks(t, d, g);
    }
  }

  lemma NewHeld(w: Work, cover: Cover, j: Job)
    requires Numbered(w) && Below(cover, w.gseq) && j.bin == 0
    ensures Held(Push(w, j), cover[w.gseq + 1 := NewCover(w, cover, CellOf(j.fence), j.deps)], w.gseq + 1)
  {
    var n := w.gseq + 1;
    var t, cover' := Push(w, j), cover[n := NewCover(w, cover, CellOf(j.fence), j.deps)];
    forall x | x in cover'[n] && x in t.jobs && x != n ensures !OnQueue(t, n) && HasBlocker(t, cover', n, x) {
      var d :| d in Waits(w, CellOf(j.fence), j.deps) && d in cover && x in cover[d];
      assert Blocks(t, d, n);
    }
  }

  lemma PushCover(w: Work, cover: Cover, j: Job)
    requires Numbered(w) && CoverOk(w, cover) && j.bin == 0
    ensures CoverOk(Push(w, j), cover[w.gseq + 1 := NewCover(w, cover, CellOf(j.fence), j.deps)])
  {
    var n := w.gseq + 1;
    var ys := NewCover(w, cover, CellOf(j.fence), j.deps);
    var t, cover' := Push(w, j), cover[n := ys];
    forall g | g in t.jobs ensures g in cover' && g in cover'[g] && Held(t, cover', g) {
      if g == n { NewHeld(w, cover, j); } else { OldHeld(w, cover, j, ys, g); }
    }
    forall d, g | SameRow(t, d, g) && d in cover' && g in cover' ensures cover'[d] <= cover'[g] {
      if g == n { assert d in Waits(w, CellOf(j.fence), j.deps); } else { assert SameRow(w, d, g); }
    }
  }

  lemma PushUses(w: Work, cover: Cover, last: map<nat, map<nat, Fence>>, uses: map<nat, set<Use>>, j: Job, ys: set<nat>)
    requires Numbered(w) && UsesOk(w, cover, last, uses)
    ensures UsesOk(Push(w, j), cover[w.gseq + 1 := ys], last, uses)
  {
    var t, cover' := Push(w, j), cover[w.gseq + 1 := ys];
    forall bo, u, b: nat | Owed(t, last, uses, bo, u, b) ensures Shown(t, cover', last, bo, u.g, b) {
      assert Owed(w, last, uses, bo, u, b);
      var q, l :| ShownBy(w, cover, last, bo, u.g, b, q, l);
      assert ShownBy(t, cover', last, bo, u.g, b, q, l);
    }
  }

  lemma EnqueueHist(h: History, slot: nat, q: nat, deps: seq<Fence>, bos: seq<nat>)
    requires Numbered(h.s.w) && CoverOk(h.s.w, h.cover) && UsesOk(h.s.w, h.cover, h.s.last, h.uses)
    ensures var h' := EnqueueH(h, slot, q, deps, bos);
      CoverOk(h'.s.w, h'.cover) && UsesOk(h'.s.w, h'.cover, h'.s.last, h'.uses)
  {
    var j := Job(NewFence(h.s.page, slot, q), deps, 0, 0, false, bos);
    var h', ys := EnqueueH(h, slot, q, deps, bos), NewCover(h.s.w, h.cover, Cell(slot, q), deps);
    PushCover(h.s.w, h.cover, j);
    PushUses(h.s.w, h.cover, h.s.last, h.uses, j, ys);
    assert CellOf(j.fence) == Cell(slot, q) && h'.s.w == Push(h.s.w, j) && h'.cover == h.cover[h.s.w.gseq + 1 := ys];
  }

  /** Adding a job with all it waits for keeps the history's invariant. */
  lemma EnqueueHKeeps(h: History, slot: nat, q: nat, deps: seq<Fence>, bos: seq<nat>)
    requires InvH(h) && slot in h.s.used && RealQueue(q) && DepsFit(h.s, deps)
    ensures InvH(EnqueueH(h, slot, q, deps, bos))
  {
    InvNumbered(h.s);
    EnqueueHist(h, slot, q, deps, bos);
    EnqueueKeeps(h.s, slot, q, deps, bos);
  }

  // ------------------------------------------------------------------------
  // Pairs and uses
  // ------------------------------------------------------------------------

  lemma LinkHeld(w: Work, cover: Cover, b: nat, r: nat, g: nat)
    requires Linkable(w, b, r) && b in cover && r in cover && w.gseq == r && Below(cover, w.gseq)
    requires g in w.jobs && g in cover && Held(w, cover, g) && !OnQueue(w, r) && Numbered(w)
    requires b in cover[b]
    ensures Held(LinkPair(w, b, r), cover[r := cover[r] + cover[b]], g)
  {
    var t, cover' := LinkPair(w, b, r), cover[r := cover[r] + cover[b]];
    forall x | x in cover'[g] && x in t.jobs && x != g ensures !OnQueue(t, g) && HasBlocker(t, cover', g, x) {
      if g == r && x in cover[b] {
        assert Blocks(t, b, r);
      } else {
        var d :| Blocks(w, d, g) && d in cover && x in cover[d];
        assert Blocks(t, d, g);
      }
    }
  }

  lemma LinkCover(w: Work, cover: Cover, b: nat, r: nat)
    requires Linkable(w, b, r) && b in cover && r in cover && w.gseq == r && CoverOk(w, cover) && Numbered(w)
    requires !OnQueue(w, r)
    ensures CoverOk(LinkPair(w, b, r), cover[r := cover[r] + cover[b]])
  {
    var t, cover' := LinkPair(w, b, r), cover[r := cover[r] + cover[b]];
    forall g | g in t.jobs ensures g in cover' && g in cover'[g] && Held(t, cover', g) { LinkHeld(w, cover, b, r, g); }
    forall d, g | SameRow(t, d, g) && d in cover' && g in cover' ensures cover'[d] <= cover'[g] {
      assert SameRow(w, d, g);
    }
  }

  lemma LinkUses(w: Work, cover: Cover, last: map<nat, map<nat, Fence>>, uses: map<nat, set<Use>>, b: nat, r: nat)
    requires UsesOk(w, cover, last, uses) && b in w.jobs && r in w.jobs && b in cover && r in cover
    ensures UsesOk(LinkPair(w, b, r), cover[r := cover[r] + cover[b]], last, uses)
  {
    var t, cover' := LinkPair(w, b, r), cover[r := cover[r] + cover[b]];
    forall bo, u, s: nat | Owed(t, last, uses, bo, u, s) ensures Shown(t, cover', last, bo, u.g, s) {
      assert Owed(w, last, uses, bo, u, s);
      var q, l :| ShownBy(w, cover, last, bo, u.g, s, q, l);
      assert ShownBy(t, cover', last, bo, u.g, s, q, l);
    }
  }

  // ------------------------------------------------------------------------
  // What the dependency list collects
  // ------------------------------------------------------------------------

  /** The list waits for `f` or for a later fence of the same row. */
  ghost predicate Has(deps: seq<Fence>, f: Fence) {
    exists i :: 0 <= i < |deps| && SameLine(deps[i], f) && deps[i].seqno >= f.seqno
  }

  lemma SetAddHas(d: DepSet, f: Fence, g: Fence)
    ensures SetAdd(d, f).dropped >= d.dropped
    ensures SetAdd(d, f).dropped == d.dropped ==> Has(SetAdd(d, f).deps, f)
    ensures Has(d.deps, g) ==> Has(SetAdd(d, f).deps, g)
  {
    var d' := SetAdd(d, f);
    var k := FindLine(d.deps, f, FIRST);
    if d'.dropped == d.dropped {
      var i := if k < |d.deps| then k else |d.deps|;
      assert SameLine(d'.deps[i], f) && d'.deps[i].seqno >= f.seqno;
    }
    if Has(d.deps, g) {
      var i :| 0 <= i < |d.deps| && SameLine(d.deps[i], g) && d.deps[i].seqno >= g.seqno;
      assert SameLine(d'.deps[i], g) && d'.deps[i].seqno >= g.seqno;
    }
  }

  lemma BoDepsHas(s: State, skip: set<nat>, h: nat, q: nat, d: DepSet, p: nat, g: Fence)
    requires q <= NQUEUES
    ensures BoDeps(s, skip, h, q, d).dropped >= d.dropped
    ensures Has(d.deps, g) ==> Has(BoDeps(s, skip, h, q, d).deps, g)
    ensures BoDeps(s, skip, h, q, d).dropped == d.dropped && q <= p < NQUEUES && PendingUse(s, skip, h, p)
      ==> Has(BoDeps(s, skip, h, q, d).deps, s.last[h][p])
    decreases NQUEUES - q
  {
    if q < NQUEUES {
      var d1 := if PendingUse(s, skip, h, q) then SetAdd(d, s.last[h][q]) else d;
      if PendingUse(s, skip, h, q) {
        SetAddHas(d, s.last[h][q], g);
        BoDepsHas(s, skip, h, q + 1, d1, q, s.last[h][q]);
      }
      BoDepsHas(s, skip, h, q + 1, d1, p, g);
    }
  }

  lemma ImplicitHas(s: State, skip: set<nat>, bos: seq<nat>, d: DepSet, bo: nat, p: nat, g: Fence)
    ensures ImplicitDeps(s, skip, bos, d).dropped >= d.dropped
    ensures Has(d.deps, g) ==> Has(ImplicitDeps(s, skip, bos, d).deps, g)
    ensures ImplicitDeps(s, skip, bos, d).dropped == d.dropped && bo in bos && p < NQUEUES && PendingUse(s, skip, bo, p)
      ==> Has(ImplicitDeps(s, skip, bos, d).deps, s.last[bo][p])
    decreases |bos|
  {
    if bos != [] {
      var d1 := BoDeps(s, skip, bos[0], BIN, d);
      BoDepsHas(s, skip, bos[0], BIN, d, p, g);
      ImplicitHas(s, skip, bos[1..], d1, bo, p, g);
      if bos[0] == bo && PendingUse(s, skip, bo, p) {
        ImplicitHas(s, skip, bos[1..], d1, bo, p, s.last[bo][p]);
      }
    }
  }

  /** A job the list waits for, directly or by a later job of its row, is covered by the waiting job. */
  lemma HasCovers(h: History, c: Cell, deps: seq<Fence>, l: nat)
    requires InvH(h) && DepsFit(h.s, deps) && l in h.s.w.jobs && Has(deps, h.s.w.jobs[l].fence)
    ensures l in h.cover && h.cover[l] <= NewCover(h.s.w, h.cover, c, deps)
  {
    var w := h.s.w;
    var f := w.jobs[l].fence;
    var i :| 0 <= i < |deps| && SameLine(deps[i], f) && deps[i].seqno >= f.seqno;
    UnfinishedUnsignaled(h.s, l);
    assert DepOk(w, h.s.page, h.s.used, w.gseq + 1, deps[i]);
    var d: nat :| d < w.gseq + 1 && Carries(w, h.s.page, h.s.used, d, deps[i]);
    assert w.jobs[d].fence == deps[i];
    assert Named(deps, w.jobs[d].fence);
    assert d in Waits(w, c, deps);
    assert h.cover[l] <= h.cover[d] by { RowOrder(h, l, d); }
  }

  lemma SeqOrder(w: Work, p: Page, c: Cell, l: nat, d: nat)
    requires RowOrdered(w, p, c) && InRow(w, c, l) && InRow(w, c, d) && JobSane(w, p, l) && JobSane(w, p, d)
    requires w.jobs[d].fence.seqno >= w.jobs[l].fence.seqno
    ensures l <= d
  {
    assert OnQueue(w, l) || OnQueue(w, d) ==> ActiveIn(w, c);
  }

  /** In one row, a seqno that is not smaller covers as much. */
  lemma RowOrder(h: History, l: nat, d: nat)
    requires InvH(h) && l in h.s.w.jobs && d in h.s.w.jobs
    requires SameLine(h.s.w.jobs[d].fence, h.s.w.jobs[l].fence) && h.s.w.jobs[d].fence.seqno >= h.s.w.jobs[l].fence.seqno
    ensures l in h.cover && d in h.cover && h.cover[l] <= h.cover[d]
  {
    var w := h.s.w;
    assert JobOk(w, h.s.page, h.s.used, l) && JobOk(w, h.s.page, h.s.used, d);
    assert RowOk(w, h.s.page, h.s.used, CellOf(w.jobs[l].fence));
    SeqOrder(w, h.s.page, CellOf(w.jobs[l].fence), l, d);
    assert l < d ==> SameRow(w, l, d);
  }

  // ------------------------------------------------------------------------
  // Recording a use
  // ------------------------------------------------------------------------

  /** The job that overwrites a last-use fence covers the job it hides. */
  ghost predicate Overwrites(w: Work, cover: Cover, last: map<nat, map<nat, Fence>>, bos: seq<nat>, r: nat)
    requires r in w.jobs
  {
    forall bo, l ::
      (bo in bos && bo in last && w.jobs[r].fence.queue in last[bo] && l in w.jobs && l in cover && r in cover
       && w.jobs[l].fence == last[bo][w.jobs[r].fence.queue])
      ==> cover[l] <= cover[r]
  }

  lemma UseShown(w: Work, cover: Cover, last: map<nat, map<nat, Fence>>, uses: map<nat, set<Use>>, bos: seq<nat>, r: nat,
      bo: nat, u: Use, b: nat)
    requires r in w.jobs && r in cover && r in cover[r] && UsesOk(w, cover, last, uses) && Overwrites(w, cover, last, bos, r)
    requires forall x, v :: v in Uses(uses, x) ==> v.g < r
    requires var f := w.jobs[r].fence;
      Owed(w, MarkUse(last, bos, f), AddUses(uses, bos, Use(r, f.slot)), bo, u, b)
    ensures Shown(w, cover, MarkUse(last, bos, w.jobs[r].fence), bo, u.g, b)
  {
    var f := w.jobs[r].fence;
    var last', uses' := MarkUse(last, bos, f), AddUses(uses, bos, Use(r, f.slot));
    if u == Use(r, f.slot) {
      assert bo in bos;
      assert ShownBy(w, cover, last', bo, u.g, b, f.queue, r);
    } else {
      assert u in Uses(uses, bo);
      assert Owed(w, last, uses, bo, u, b) by {
        forall v | v in Uses(uses, bo) && v.slot == b ensures v.g <= u.g { assert v in Uses(uses', bo); }
      }
      var q, l :| ShownBy(w, cover, last, bo, u.g, b, q, l);
      if bo in bos && q == f.queue {
        assert Use(r, f.slot) in Uses(uses', bo);
        assert cover[l] <= cover[r];
        assert ShownBy(w, cover, last', bo, u.g, b, q, r);
      } else {
        assert ShownBy(w, cover, last', bo, u.g, b, q, l);
      }
    }
  }

  lemma UseUses(w: Work, cover: Cover, last: map<nat, map<nat, Fence>>, uses: map<nat, set<Use>>, bos: seq<nat>, r: nat)
    requires 0 < r <= w.gseq && r in w.jobs && r in cover && r in cover[r]
    requires UsesOk(w, cover, last, uses) && Overwrites(w, cover, last, bos, r)
    requires forall x, v :: v in Uses(uses, x) ==> v.g < r
    requires w.jobs[r].fence.slot < NSLOTS && w.jobs[r].fence.seqno > 0
    ensures var f := w.jobs[r].fence; UsesOk(w, cover, MarkUse(last, bos, f), AddUses(uses, bos, Use(r, f.slot)))
  {
    var f := w.jobs[r].fence;
    var last', uses' := MarkUse(last, bos, f), AddUses(uses, bos, Use(r, f.slot));
    forall bo, u, b: nat | Owed(w, last', uses', bo, u, b) ensures Shown(w, cover, last', bo, u.g, b) {
      UseShown(w, cover, last, uses, bos, r, bo, u, b);
    }
    forall bo, u | u in Uses(uses', bo) ensures 0 < u.g <= w.gseq && u.slot < NSLOTS {
      assert u == Use(r, f.slot) || u in Uses(uses, bo);
    }
  }
}
