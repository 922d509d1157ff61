/**
 Runs in which the GPU is reset, and one of them: a render reaped behind a render that
 still runs makes a fence signalled and then pending again.
 */
module ResetRuns {
  import opened SchedState
  import opened SchedInv
  import opened SchedSteps
  import opened SchedRuns
  import opened SchedFailures

  /**
   A request, or a pass of the event thread: completions, perhaps a reset, and the
   scheduler. `reaped` are the rows whose failed heads the scheduler completes.
   */
  datatype Move = Ask(step: Step, reaped: seq<Cell>) | Pass(done: seq<nat>, reset: bool, reaped: seq<Cell>)

  function Completed(s: State, done: seq<nat>, reset: bool): State {
    var t := CompleteEach(s, done);
    if reset then Wedge(t, BIN) else t
  }

  /** Where a move leads, the reaping of failed heads included. */
  ghost predicate Moves(s: State, move: Move, t: State) {
    match move
    case Ask(step, reaped) =>
      && Allowed(s, step) && !step.Events?
      && (if Schedules(s, step) then exists m :: Scheduled(Prepare(s, step), reaped, m) && t == Leave(m, step)
          else reaped == [] && t == Leave(Prepare(s, step), step))
    case Pass(done, reset, reaped) => Scheduled(Completed(s, done, reset), reaped, t)
  }

  ghost predicate IsResetRun(states: seq<State>, moves: seq<Move>) {
    && |states| == |moves| + 1
    && (exists m :: states[0] == Init(m))
    && (forall i: nat :: i < |moves| ==> MovedAt(states, moves, i))
  }

  ghost predicate MovedAt(states: seq<State>, moves: seq<Move>, i: nat)
    requires |states| == |moves| + 1 && i < |moves|
  {
    Moves(states[i], moves[i], states[i + 1])
  }

  lemma SameMoved(states: seq<State>, moves: seq<Move>, states': seq<State>, moves': seq<Move>, i: nat)
    requires |states| == |moves| + 1 && i < |moves| && MovedAt(states, moves, i)
    requires |states'| == |moves'| + 1 && i < |moves'|
    requires states'[i] == states[i] && states'[i + 1] == states[i + 1] && moves'[i] == moves[i]
    ensures MovedAt(states', moves', i)
  {
  }

  lemma LastMoved(states: seq<State>, moves: seq<Move>, i: nat, s: State, move: Move, t: State)
    requires |states| == |moves| + 1 && i < |moves| && Moves(s, move, t)
    requires states[i] == s && moves[i] == move && states[i + 1] == t
    ensures MovedAt(states, moves, i)
  {
  }

  lemma Extend(states: seq<State>, moves: seq<Move>, move: Move, t: State)
    requires IsResetRun(states, moves) && Moves(states[|moves|], move, t)
    ensures IsResetRun(states + [t], moves + [move])
  {
    var states', moves' := states + [t], moves + [move];
    var n, s := |moves|, states[|moves|];
    assert states'[0] == states[0];
    LastMoved(states', moves', n, s, move, t);
    forall i: nat | i < |moves'| ensures MovedAt(states', moves', i) {
      if i < n { SameMoved(states, moves, states', moves', i); }
    }
  }

  // ------------------------------------------------------------------------
  // The counters stay exact
  // ------------------------------------------------------------------------

  /** No job is in two places, none is numbered beyond the last, and the kick and completion counters are exact. */
  ghost predicate Exact(s: State) {
    Apart(s.w) && (forall g :: g in s.w.jobs ==> g <= s.w.gseq) && HwCounted(s.hw, s.w.active)
  }

  lemma KickExact(s: State, c: Cell)
    requires Exact(s) && Fifo(s.w, c) != [] && c.queue !in s.w.active
    ensures Exact(Kick(s, c))
  {
    KickApart(s, c);
    KickCounted(s.hw, s.w.active, c.queue, Fifo(s.w, c)[0]);
  }

  lemma KickNextExact(s: State, q: nat)
    requires Exact(s)
    ensures Exact(KickNext(s, q))
  {
    var i := FirstReady(s, q, FIRST);
    if q !in s.w.active && i < NSLOTS { KickExact(s, Cell(RrSlot(s, q, i), q)); }
  }

  lemma PipelineExact(s: State, q: nat)
    requires Exact(s) && q <= NQUEUES
    ensures Exact(RunPipeline(s, q))
    decreases NQUEUES - q
  {
    if q < NQUEUES {
      KickNextExact(s, q);
      PipelineExact(if IsHw(q) then KickNext(s, q) else s, q + 1);
    }
  }

  lemma DispatchExact(s: State)
    requires Exact(s)
    ensures Exact(Dispatch(s))
  {
    KickNextExact(s, CPU);
    var s1 := KickNext(s, CPU);
    if s1.mode == Serial {
      var kicked, c := SerialKick(s1);
      if kicked { KickExact(s1, c); }
    } else {
      PipelineExact(s1, BIN);
    }
  }

  lemma ReapExact(s: State, c: Cell)
    requires Exact(s) && FailedHead(s, c)
    ensures Exact(Reap(s, c))
  {
    ReapApart(s, c);
    ReapCounted(s, c);
  }

  lemma ReapsExact(s: State, cs: seq<Cell>, t: State)
    requires Exact(s) && Reaps(s, cs, t)
    ensures Exact(t)
    decreases |cs|
  {
    if cs != [] {
      ReapExact(s, cs[0]);
      ReapsExact(Reap(s, cs[0]), cs[1..], t);
    }
  }

  lemma ScheduledExact(s: State, cs: seq<Cell>, t: State)
    requires Exact(s) && Scheduled(s, cs, t)
    ensures Exact(t)
  {
    var r :| Reaps(s, cs, r) && NoneFailed(r) && t == Dispatch(r);
    ReapsExact(s, cs, r);
    DispatchExact(r);
  }

  lemma DoneExact(s: State, g: nat, err: bool)
    requires Exact(s) && OnQueue(s.w, g)
    ensures Exact(JobDone(s, g, err))
  {
    DoneApart(s, g, err);
    DoneCounted(s.hw, s.w.active, s.w.jobs[g].fence.queue);
  }

  lemma CompleteEachExact(s: State, done: seq<nat>)
    requires Exact(s)
    ensures Exact(CompleteEach(s, done))
    decreases |done|
  {
    if done != [] {
      var q := done[0];
      if q in s.w.active {
        assert QueueOk(s.w, q);
        DoneExact(s, s.w.active[q], false);
        CompleteEachExact(JobDone(s, s.w.active[q], false), done[1..]);
      } else {
        CompleteEachExact(s, done[1..]);
      }
    }
  }

  lemma WedgeExact(s: State, q: nat)
    requires Exact(s) && q <= NQUEUES
    ensures Exact(Wedge(s, q))
    decreases NQUEUES - q
  {
    if q < NQUEUES {
      if IsHw(q) && q in s.w.active {
        assert QueueOk(s.w, q);
        DoneExact(s, s.w.active[q], true);
        WedgeExact(JobDone(s, s.w.active[q], true), q + 1);
      } else {
        WedgeExact(s, q + 1);
      }
    }
  }

  lemma EnqueueExact(s: State, slot: nat, q: nat, deps: seq<Fence>, bos: seq<nat>)
    requires Exact(s)
    ensures Exact(Enqueue(s, slot, q, deps, bos))
  {
    var t := Enqueue(s, slot, q, deps, bos).w;
    forall d: Cell ensures RowApart(t, d) {
      assert RowApart(s.w, d);
      assert Fifo(t, d) == if d == Cell(slot, q) then Fifo(s.w, d) + [s.w.gseq + 1] else Fifo(s.w, d);
      forall k | 0 <= k < |Fifo(s.w, d)| ensures InRow(t, d, Fifo(s.w, d)[k]) && !OnQueue(t, Fifo(s.w, d)[k]) {
        assert InRow(s.w, d, Fifo(s.w, d)[k]);
      }
      if q in s.w.active { assert QueueOk(s.w, q); }
    }
    forall p: nat ensures QueueOk(t, p) { assert QueueOk(s.w, p); }
  }

  lemma LinkExact(s: State, b: nat, r: nat)
    requires Exact(s) && b in s.w.jobs && r in s.w.jobs
    ensures Exact(s.(w := LinkPair(s.w, b, r)))
  {
    var t := LinkPair(s.w, b, r);
    forall d: Cell ensures RowApart(t, d) {
      assert RowApart(s.w, d);
      assert Fifo(t, d) == Fifo(s.w, d);
    }
    forall p: nat ensures QueueOk(t, p) { assert QueueOk(s.w, p); }
  }

  lemma QueueExact(s: State, slot: nat, rq: Request)
    requires Exact(s)
    ensures Exact(Queue(s, slot, rq))
  {
    var deps := FirstDeps(s, slot, rq).deps;
    if HasPair(rq.op) {
      var late := ExplicitDeps(s, slot, rq.ins, {true});
      EnqueueExact(s, slot, BIN, deps, []);
      var s1 := Enqueue(s, slot, BIN, deps, []);
      EnqueueExact(s1, slot, RENDER, late, rq.bos);
      LinkExact(Enqueue(s1, slot, RENDER, late, rq.bos), s1.w.gseq, s1.w.gseq + 1);
    } else {
      EnqueueExact(s, slot, OneQueue(rq.op), deps, rq.bos);
    }
  }

  lemma GoneExact(s: State, slot: nat)
    requires Exact(s)
    ensures Exact(Gone(s, slot))
  {
    var t := Discard(s.w, slot);
    forall q: nat | q in s.w.active ensures s.w.active[q] in t.jobs {
      assert QueueOk(s.w, q);
      assert RowApart(s.w, CellOf(s.w.jobs[s.w.active[q]].fence));
    }
    forall d: Cell ensures RowApart(t, d) { DiscardApart(s.w, slot, d); }
    forall p: nat ensures QueueOk(t, p) { assert QueueOk(s.w, p); }
  }

  lemma DiscardApart(w: Work, slot: nat, d: Cell)
    requires Apart(w)
    ensures RowApart(Discard(w, slot), d)
  {
    var t := Discard(w, slot);
    assert RowApart(w, d);
    if d !in RowCells(slot) {
      assert Fifo(t, d) == Fifo(w, d);
      forall k | 0 <= k < |Fifo(w, d)| ensures InRow(t, d, Fifo(w, d)[k]) && !OnQueue(t, Fifo(w, d)[k]) {
        assert InRow(w, d, Fifo(w, d)[k]) && !OnQueue(w, Fifo(w, d)[k]);
      }
    } else {
      assert Fifo(t, d) == [];
    }
  }

  lemma PrepareExact(s: State, step: Step)
    requires Exact(s)
    ensures Exact(Prepare(s, step))
  {
    match step
    case CloseClient(slot) => GoneExact(s, slot);
    case Submit(slot, rq) => QueueExact(s, slot, rq);
    case SubmitNoMem(lost) => LostExact(s, lost);
    case SubmitNop(slot) => EnqueueExact(s, slot, CPU, [], []);
    case AttachFence(slot, bos, f) => EnqueueExact(s, slot, CPU, JoinDeps(s, bos, f).deps, []);
    case Events(done) => CompleteEachExact(s, done);
    case _ =>
  }

  lemma LostExact(s: State, lost: nat)
    requires Exact(s)
    ensures Exact(s.(w := s.w.(gseq := s.w.gseq + lost)))
  {
    var t := s.w.(gseq := s.w.gseq + lost);
    forall d: Cell ensures RowApart(t, d) {
      assert RowApart(s.w, d);
      assert Fifo(t, d) == Fifo(s.w, d);
    }
    forall p: nat ensures QueueOk(t, p) { assert QueueOk(s.w, p); }
  }

  lemma MoveExact(s: State, move: Move, t: State)
    requires Exact(s) && Moves(s, move, t)
    ensures Exact(t)
  {
    match move
    case Ask(step, reaped) =>
      PrepareExact(s, step);
      if Schedules(s, step) {
        var m :| Scheduled(Prepare(s, step), reaped, m) && t == Leave(m, step);
        ScheduledExact(Prepare(s, step), reaped, m);
      }
    case Pass(done, reset, reaped) =>
      CompleteEachExact(s, done);
      if reset { WedgeExact(CompleteEach(s, done), BIN); }
      ScheduledExact(Completed(s, done, reset), reaped, t);
  }

  /**
   In every state of every run, resets and reaped renders included, each queue has been
   sent as many jobs as it has finished and holds, and the busy count is exact.
   */
  lemma {:induction false} CountersExact(states: seq<State>, moves: seq<Move>, i: nat)
    requires IsResetRun(states, moves) && i < |states|
    ensures Exact(states[i])
  {
    if i == 0 {
      var m :| states[0] == Init(m);
      assert HwActive(states[0].w.active) == {};
    } else {
      CountersExact(states, moves, i - 1);
      assert MovedAt(states, moves, i - 1);
      MoveExact(states[i - 1], moves[i - 1], states[i]);
    }
  }

  // ------------------------------------------------------------------------
  // The scheduler with one client
  // ------------------------------------------------------------------------

  /** Only the client in slot 0 has anything queued. */
  ghost predicate Lone(w: Work) {
    forall c: Cell :: c.slot != 0 ==> Fifo(w, c) == []
  }

  predicate Starts(w: Work, p: Page, q: nat) {
    q !in w.active && HeadReady(w, p, Cell(0, q))
  }

  /** `t` is `s` after queue `q` had its turn, or (without `turn`) kept as it was. */
  ghost predicate Turned(s: Work, p: Page, q: nat, turn: bool, t: Work) {
    var on := turn && Starts(s, p, q);
    && Fifo(t, Cell(0, q)) == (if on then Fifo(s, Cell(0, q))[1..] else Fifo(s, Cell(0, q)))
    && (q in t.active <==> q in s.active || on)
    && (q in s.active ==> t.active[q] == s.active[q])
    && (on ==> t.active[q] == Fifo(s, Cell(0, q))[0])
    && t.jobs == s.jobs && t.gseq == s.gseq
  }

  lemma LoneKick(s: State, q: nat, p: nat)
    requires Lone(s.w)
    ensures Turned(s.w, s.page, p, p == q, KickNext(s, q).w) && Lone(KickNext(s, q).w)
    ensures KickNext(s, q).page == s.page && KickNext(s, q).mode == s.mode
  {
    var i := FirstReady(s, q, FIRST);
    if q !in s.w.active {
      if i < NSLOTS {
        assert RrSlot(s, q, i) == 0;
      } else {
        ScanCoversAll(s, q, 0);
      }
    }
  }

  lemma LonePipeline(s: State, q: nat, p: nat)
    requires Lone(s.w) && q <= NQUEUES
    ensures Turned(s.w, s.page, p, q <= p && IsHw(p), RunPipeline(s, q).w) && Lone(RunPipeline(s, q).w)
    decreases NQUEUES - q
  {
    if q < NQUEUES {
      if IsHw(q) { LoneKick(s, q, p); }
      LonePipeline(if IsHw(q) then KickNext(s, q) else s, q + 1, p);
    }
  }

  /** In PIPELINE mode every queue that is idle takes the client's head, if it is ready. */
  lemma LoneDispatch(s: State, t: State, q: nat)
    requires Lone(s.w) && s.mode == Pipeline && t == Dispatch(s) && RealQueue(q)
    ensures Turned(s.w, s.page, q, true, t.w) && Lone(t.w)
  {
    LoneKick(s, CPU, q);
    LonePipeline(KickNext(s, CPU), BIN, q);
    TurnedThen(s.w, KickNext(s, CPU).w, t.w, s.page, q, q == CPU, IsHw(q));
  }

  lemma TurnedThen(s: Work, m: Work, t: Work, p: Page, q: nat, a: bool, b: bool)
    requires Turned(s, p, q, a, m) && Turned(m, p, q, b, t) && (!a || !b)
    ensures Turned(s, p, q, a || b, t)
  {
  }

  // ------------------------------------------------------------------------
  // What one client's bins and renders look like
  // ------------------------------------------------------------------------

  /** The jobs, the two FIFOs, the jobs on the two queues (0: none), and the numbers of the two rows. */
  datatype View = View(jobs: map<nat, Job>, bins: seq<nat>, renders: seq<nat>, onBin: nat, onRender: nat,
                       gseq: nat, nextBin: nat, nextRender: nat, doneRender: nat)

  /** Jobs are numbered, wait for no fence, and carry the client's first generation. */
  predicate PlainJob(v: View, g: nat) {
    && g in v.jobs && 0 < g <= v.gseq && v.jobs[g].deps == []
    && v.jobs[g].fence.slot == 0 && v.jobs[g].fence.gen == 1
    && (v.jobs[g].fence.queue == BIN || v.jobs[g].fence.queue == RENDER)
  }

  ghost predicate Plain(v: View) {
    && (forall g :: g in v.jobs ==> PlainJob(v, g))
    && (forall k :: 0 <= k < |v.bins| ==> v.bins[k] in v.jobs)
    && (forall k :: 0 <= k < |v.renders| ==> v.renders[k] in v.jobs)
    && (v.onBin != 0 ==> v.onBin in v.jobs && v.jobs[v.onBin].fence.queue == BIN)
    && (v.onRender != 0 ==> v.onRender in v.jobs && v.jobs[v.onRender].fence.queue == RENDER)
  }

  predicate Holds(active: map<nat, nat>, q: nat, g: nat) {
    (q in active <==> g != 0) && (q in active ==> active[q] == g)
  }

  ghost predicate Shows(s: State, v: View) {
    && Plain(v) && s.mode == Pipeline && s.used == {0} && s.last == map[]
    && Lone(s.w) && s.w.jobs == v.jobs && s.w.gseq == v.gseq
    && Fifo(s.w, Cell(0, BIN)) == v.bins && Fifo(s.w, Cell(0, RENDER)) == v.renders
    && (forall q: nat :: q != BIN && q != RENDER ==> Fifo(s.w, Cell(0, q)) == [] && q !in s.w.active)
    && Holds(s.w.active, BIN, v.onBin) && Holds(s.w.active, RENDER, v.onRender)
    && Num(s.page.slotGen, 0) == 1
    && Num(s.page.nextSeq, Cell(0, BIN)) == v.nextBin && Num(s.page.nextSeq, Cell(0, RENDER)) == v.nextRender
    && Num(s.page.completed, Cell(0, RENDER)) == v.doneRender
  }

  /** The view after a scheduler run. */
  function Kicked(v: View): View {
    var b := v.onBin == 0 && v.bins != [];
    var r := v.onRender == 0 && v.renders != [] && v.renders[0] in v.jobs && v.jobs[v.renders[0]].bin == 0;
    v.(bins := if b then v.bins[1..] else v.bins, onBin := if b then v.bins[0] else v.onBin,
       renders := if r then v.renders[1..] else v.renders, onRender := if r then v.renders[0] else v.onRender)
  }

  predicate RowsMatch(v: View) {
    && (v.bins != [] ==> v.bins[0] in v.jobs && v.jobs[v.bins[0]].fence.queue == BIN)
    && (v.renders != [] ==> v.renders[0] in v.jobs && v.jobs[v.renders[0]].fence.queue == RENDER)
  }

  lemma HeadStarts(s: State, v: View)
    requires Shows(s, v) && RowsMatch(v)
    ensures Starts(s.w, s.page, BIN) <==> v.onBin == 0 && v.bins != []
    ensures Starts(s.w, s.page, RENDER) <==> v.onRender == 0 && v.renders != [] && v.jobs[v.renders[0]].bin == 0
  {
  }

  lemma KickedRows(s: State, t: State, v: View)
    requires Shows(s, v) && RowsMatch(v)
    requires Turned(s.w, s.page, BIN, true, t.w) && Turned(s.w, s.page, RENDER, true, t.w)
    ensures Fifo(t.w, Cell(0, BIN)) == Kicked(v).bins && Fifo(t.w, Cell(0, RENDER)) == Kicked(v).renders
    ensures Holds(t.w.active, BIN, Kicked(v).onBin) && Holds(t.w.active, RENDER, Kicked(v).onRender)
    ensures Plain(Kicked(v))
  {
    HeadStarts(s, v);
    forall g | g in v.jobs ensures PlainJob(Kicked(v), g) { assert PlainJob(v, g); }
  }

  lemma KickedShows(s: State, t: State, v: View)
    requires Shows(s, v) && RowsMatch(v) && t == Dispatch(s)
    ensures Shows(t, Kicked(v))
  {
    DispatchFrame(s);
    LoneDispatch(s, t, BIN);
    LoneDispatch(s, t, RENDER);
    KickedRows(s, t, v);
    forall q: nat | q != BIN && q != RENDER ensures Fifo(t.w, Cell(0, q)) == [] && q !in t.w.active {
      QuietQueue(s, t, q);
    }
  }

  lemma QuietQueue(s: State, t: State, q: nat)
    requires Lone(s.w) && s.mode == Pipeline && t == Dispatch(s)
    requires Fifo(s.w, Cell(0, q)) == [] && q !in s.w.active
    ensures Fifo(t.w, Cell(0, q)) == [] && q !in t.w.active
  {
    LoneKick(s, CPU, q);
    LonePipeline(KickNext(s, CPU), BIN, q);
  }

  /** Without a failed head a scheduler run is its dispatch. */
  lemma NoFailedRun(s: State, v: View)
    requires Shows(s, v) && RowsMatch(v)
    requires v.bins != [] ==> !v.jobs[v.bins[0]].depError
    requires v.renders != [] ==> !v.jobs[v.renders[0]].depError
    ensures Scheduled(s, [], Dispatch(s))
  {
    forall c ensures !FailedHead(s, c) {
      if c.slot == 0 { assert Fifo(s.w, c) == Fifo(s.w, Cell(0, c.queue)); }
    }
    assert Reaps(s, [], s);
  }

  /** A render, alone or behind a bin, that waits for nothing else and names no buffer. */
  function ClRequest(pair: bool): Request {
    Request(SubmitCl(false, pair), [], [], [])
  }

  function BinJob(seqno: nat, render: nat): Job {
    Job(Fence(0, BIN, 1, seqno), [], 0, render, false, [])
  }

  function RenderJob(seqno: nat, bin: nat, failed: bool): Job {
    Job(Fence(0, RENDER, 1, seqno), [], bin, 0, failed, [])
  }

  function WithBin(v: View): View {
    var g := v.gseq + 1;
    v.(jobs := v.jobs[g := BinJob(v.nextBin + 1, 0)], bins := v.bins + [g], gseq := g, nextBin := v.nextBin + 1)
  }

  function WithRender(v: View): View {
    var g := v.gseq + 1;
    v.(jobs := v.jobs[g := RenderJob(v.nextRender + 1, 0, false)], renders := v.renders + [g], gseq := g,
       nextRender := v.nextRender + 1)
  }

  function Linked(v: View, b: nat, r: nat): View
    requires b in v.jobs && r in v.jobs
  {
    v.(jobs := v.jobs[b := v.jobs[b].(render := r)][r := v.jobs[r].(bin := b)])
  }

  function Queued(v: View, pair: bool): View {
    if pair then Linked(WithRender(WithBin(v)), v.gseq + 1, v.gseq + 2) else WithRender(v)
  }

  lemma NoDeps(s: State, pair: bool)
    ensures SubmitCheck(s, 0, ClRequest(pair)) == Ok && FirstDeps(s, 0, ClRequest(pair)).deps == []
    ensures ExplicitDeps(s, 0, [], {true}) == []
  {
  }

  lemma RenderQueued(s: State, v: View)
    requires Shows(s, v)
    ensures Shows(Enqueue(s, 0, RENDER, [], []), WithRender(v))
  {
    var t := Enqueue(s, 0, RENDER, [], []);
    assert NewFence(s.page, 0, RENDER) == Fence(0, RENDER, 1, v.nextRender + 1);
  }

  lemma BinQueued(s: State, v: View)
    requires Shows(s, v)
    ensures Shows(Enqueue(s, 0, BIN, [], []), WithBin(v))
  {
    assert NewFence(s.page, 0, BIN) == Fence(0, BIN, 1, v.nextBin + 1);
  }

  lemma LinkedShows(s: State, v: View, b: nat, r: nat)
    requires Shows(s, v) && b in v.jobs && r in v.jobs && b != r
    ensures Shows(s.(w := LinkPair(s.w, b, r)), Linked(v, b, r))
  {
    var t := LinkPair(s.w, b, r);
    forall c: Cell ensures Fifo(t, c) == Fifo(s.w, c) {}
  }

  lemma PairQueued(s: State, s1: State, s2: State, v: View)
    requires Shows(s, v) && s1 == Enqueue(s, 0, BIN, [], []) && s2 == Enqueue(s1, 0, RENDER, [], [])
    ensures v.gseq + 1 in s2.w.jobs && v.gseq + 2 in s2.w.jobs
    ensures Shows(s2.(w := LinkPair(s2.w, v.gseq + 1, v.gseq + 2)), Queued(v, true))
  {
    BinQueued(s, v);
    RenderQueued(s1, WithBin(v));
    LinkedShows(s2, WithRender(WithBin(v)), v.gseq + 1, v.gseq + 2);
  }

  lemma QueuedShows(s: State, t: State, v: View, pair: bool)
    requires Shows(s, v) && t == Submitted(s, 0, ClRequest(pair))
    ensures Shows(t, Queued(v, pair))
  {
    NoDeps(s, pair);
    if pair {
      var s1 := Enqueue(s, 0, BIN, [], []);
      PairQueued(s, s1, Enqueue(s1, 0, RENDER, [], []), v);
    } else { RenderQueued(s, v); }
    assert MarkUse(s.last, [], NewFence(s.page, 0, RENDER)) == map[];
  }

  function Finished(v: View, g: nat, err: bool): View
    requires g in v.jobs
  {
    v.(jobs := DoneJobs(v.jobs, g, err),
       onBin := if v.onBin == g then 0 else v.onBin, onRender := if v.onRender == g then 0 else v.onRender,
       doneRender := if v.jobs[g].fence.queue == RENDER then v.jobs[g].fence.seqno else v.doneRender)
  }

  lemma FinishedShows(s: State, t: State, v: View, g: nat, err: bool)
    requires Shows(s, v) && g in v.jobs && g !in v.bins && g !in v.renders && (g == v.onBin || g == v.onRender)
    requires t == JobDone(s, g, err)
    ensures Shows(t, Finished(v, g, err))
  {
    forall x | x in DoneJobs(v.jobs, g, err) ensures PlainJob(Finished(v, g, err), x) { assert PlainJob(v, x); }
    forall c: Cell ensures Fifo(t.w, c) == Fifo(s.w, c) {}
    assert PlainJob(v, g);
  }

  function Reaped(v: View): View
    requires v.renders != [] && v.renders[0] in v.jobs
  {
    v.(jobs := DoneJobs(v.jobs, v.renders[0], true), renders := v.renders[1..],
       doneRender := v.jobs[v.renders[0]].fence.seqno)
  }

  predicate FailedRender(v: View) {
    && v.renders != [] && v.renders[0] in v.jobs && v.jobs[v.renders[0]].fence.queue == RENDER
    && v.jobs[v.renders[0]].depError && v.jobs[v.renders[0]].bin == 0
    && v.renders[0] !in v.bins && v.renders[0] !in v.renders[1..] && v.onBin != v.renders[0] && v.onRender != v.renders[0]
  }

  lemma ReapedShows(s: State, v: View)
    requires Shows(s, v) && FailedRender(v)
    ensures FailedHead(s, Cell(0, RENDER)) && Shows(Reap(s, Cell(0, RENDER)), Reaped(v))
  {
    var c, g := Cell(0, RENDER), v.renders[0];
    var t := Reap(s, c);
    assert PlainJob(v, g);
    forall x | x in DoneJobs(v.jobs, g, true) ensures PlainJob(Reaped(v), x) { assert PlainJob(v, x); }
    forall d: Cell ensures Fifo(t.w, d) == if d == c then v.renders[1..] else Fifo(s.w, d) {}
  }

  /** No head of the view is failed. */
  predicate Sound(v: View) {
    && RowsMatch(v)
    && (v.bins != [] ==> !v.jobs[v.bins[0]].depError)
    && (v.renders != [] ==> !v.jobs[v.renders[0]].depError)
  }

  lemma SubmitMove(s: State, v: View, pair: bool) returns (move: Move, t: State)
    requires Shows(s, v) && Sound(Queued(v, pair))
    ensures Moves(s, move, t) && Shows(t, Kicked(Queued(v, pair)))
  {
    var m := Submitted(s, 0, ClRequest(pair));
    NoDeps(s, pair);
    QueuedShows(s, m, v, pair);
    NoFailedRun(m, Queued(v, pair));
    t := Dispatch(m);
    KickedShows(m, t, Queued(v, pair));
    move := Ask(Submit(0, ClRequest(pair)), []);
    SubmitMoves(s, m, t, move, pair);
  }

  lemma SubmitMoves(s: State, m: State, t: State, move: Move, pair: bool)
    requires 0 in s.used && SubmitCheck(s, 0, ClRequest(pair)) == Ok && m == Submitted(s, 0, ClRequest(pair))
    requires Scheduled(m, [], t) && move == Ask(Submit(0, ClRequest(pair)), [])
    ensures Moves(s, move, t)
  {
    assert Leave(t, move.step) == t;
  }

  /** A pass that leaves no failed head. */
  lemma PassMove(s: State, m: State, v: View, done: seq<nat>, reset: bool) returns (move: Move, t: State)
    requires m == Completed(s, done, reset) && Shows(m, v) && Sound(v)
    ensures move == Pass(done, reset, []) && Moves(s, move, t) && Shows(t, Kicked(v))
  {
    NoFailedRun(m, v);
    t := Dispatch(m);
    KickedShows(m, t, v);
    move := Pass(done, reset, []);
  }

  /** A pass that reports nothing and reaps one render. */
  lemma ReapMove(s: State, v: View) returns (move: Move, t: State)
    requires Shows(s, v) && FailedRender(v) && Sound(Reaped(v))
    ensures move == Pass([], false, [Cell(0, RENDER)]) && Moves(s, move, t) && Shows(t, Kicked(Reaped(v)))
  {
    var c := Cell(0, RENDER);
    ReapedShows(s, v);
    var r := Reap(s, c);
    NoFailedRun(r, Reaped(v));
    t := Dispatch(r);
    KickedShows(r, t, Reaped(v));
    move := Pass([], false, [c]);
    ReapFirst(s, c, r, t);
  }

  lemma ReapFirst(s: State, c: Cell, r: State, t: State)
    requires FailedHead(s, c) && r == Reap(s, c) && Scheduled(r, [], t)
    ensures Scheduled(s, [c], t)
  {
    var u :| Reaps(r, [], u) && NoneFailed(u) && t == Dispatch(u);
    assert [c][1..] == [];
    assert Reaps(s, [c], u);
  }

  lemma OneCompleted(s: State, q: nat)
    requires q in s.w.active && s.w.active[q] in s.w.jobs
    ensures Completed(s, [q], false) == JobDone(s, s.w.active[q], false)
  {
    assert [q][1..] == [];
    assert CompleteEach(JobDone(s, s.w.active[q], false), []) == JobDone(s, s.w.active[q], false);
  }

  lemma WedgeNone(s: State, q: nat)
    requires q <= NQUEUES && forall p :: p in s.w.active ==> p < q
    ensures Wedge(s, q) == s
    decreases NQUEUES - q
  {
    if q < NQUEUES { WedgeNone(s, q + 1); }
  }

  /** A reset with a bin and a render on the hardware fails both. */
  lemma BothFail(s: State, m: State, v: View)
    requires Shows(s, v) && v.onBin != 0 && v.onRender != 0 && m == Completed(s, [], true)
    requires v.onBin !in v.bins && v.onBin !in v.renders && v.onRender !in v.bins && v.onRender !in v.renders
    ensures v.onBin in v.jobs && v.onRender in Finished(v, v.onBin, true).jobs
    ensures Shows(m, Finished(Finished(v, v.onBin, true), v.onRender, true))
  {
    var s1 := JobDone(s, v.onBin, true);
    FinishedShows(s, s1, v, v.onBin, true);
    var v1 := Finished(v, v.onBin, true);
    var s2 := JobDone(s1, v.onRender, true);
    FinishedShows(s1, s2, v1, v.onRender, true);
    WedgeNone(s2, TFU);
    assert Wedge(s1, RENDER) == Wedge(s2, TFU);
    assert Wedge(s, BIN) == Wedge(s1, RENDER);
  }

  // ------------------------------------------------------------------------
  // A run that makes a fence pending again
  // ------------------------------------------------------------------------

  /** A render on the hardware. */
  function OneRender(): View {
    View(map[1 := RenderJob(1, 0, false)], [], [], 0, 1, 1, 0, 1, 0)
  }

  /** Then a bin/render pair, its bin on the hardware. */
  function OnePair(): View {
    View(map[1 := RenderJob(1, 0, false), 2 := BinJob(1, 3), 3 := RenderJob(2, 2, false)], [], [3], 2, 1, 3, 1, 2, 0)
  }

  /** Then a second pair. */
  function TwoPairs(): View {
    View(map[1 := RenderJob(1, 0, false), 2 := BinJob(1, 3), 3 := RenderJob(2, 2, false),
             4 := BinJob(2, 5), 5 := RenderJob(3, 4, false)], [4], [3, 5], 2, 1, 5, 2, 3, 0)
  }

  /** The first bin is done, the second on the hardware. */
  function FirstBinDone(): View {
    View(map[1 := RenderJob(1, 0, false), 3 := RenderJob(2, 0, false), 4 := BinJob(2, 5), 5 := RenderJob(3, 4, false)],
         [], [3, 5], 4, 1, 5, 2, 3, 0)
  }

  /** A reset failed the second bin and the first render; the second render runs. */
  function AfterReset(): View {
    View(map[3 := RenderJob(2, 0, false), 5 := RenderJob(3, 0, true)], [], [5], 0, 3, 5, 2, 3, 1)
  }

  /** The third render is reaped, the second still runs. */
  function AfterReap(): View {
    View(map[3 := RenderJob(2, 0, false)], [], [], 0, 3, 5, 2, 3, 3)
  }

  lemma Submits()
    ensures var v := View(map[], [], [], 0, 0, 0, 0, 0, 0);
      && Sound(Queued(v, false)) && Kicked(Queued(v, false)) == OneRender()
      && Sound(Queued(OneRender(), true)) && Kicked(Queued(OneRender(), true)) == OnePair()
  {
    assert [1][1..] == [];
    assert [2][1..] == [];
  }

  lemma SecondPair()
    ensures Sound(Queued(OnePair(), true)) && Kicked(Queued(OnePair(), true)) == TwoPairs()
  {
  }

  lemma BinDone()
    ensures Sound(Finished(TwoPairs(), 2, false)) && Kicked(Finished(TwoPairs(), 2, false)) == FirstBinDone()
  {
    assert [4][1..] == [];
    assert Finished(TwoPairs(), 2, false).jobs == FirstBinDone().jobs;
  }

  lemma SecondBinFails()
    ensures var jobs := map[1 := RenderJob(1, 0, false), 3 := RenderJob(2, 0, false), 5 := RenderJob(3, 0, true)];
      Finished(FirstBinDone(), 4, true) == FirstBinDone().(jobs := jobs, onBin := 0)
  {
    assert Finished(FirstBinDone(), 4, true).jobs
        == map[1 := RenderJob(1, 0, false), 3 := RenderJob(2, 0, false), 5 := RenderJob(3, 0, true)];
  }

  lemma ResetDone()
    ensures var v := Finished(Finished(FirstBinDone(), 4, true), 1, true);
      Sound(v) && Kicked(v) == AfterReset()
  {
    SecondBinFails();
    assert [3, 5][1..] == [5];
    assert Finished(Finished(FirstBinDone(), 4, true), 1, true).jobs == AfterReset().jobs;
  }

  lemma ReapDone()
    ensures FailedRender(AfterReset()) && Sound(Reaped(AfterReset())) && Kicked(Reaped(AfterReset())) == AfterReap()
  {
    assert [5][1..] == [];
    assert Reaped(AfterReset()).jobs == AfterReap().jobs;
  }

  /** From the start to two pairs, in three submits. */
  lemma TwoPairsReached() returns (states: seq<State>, moves: seq<Move>)
    ensures IsResetRun(states, moves) && Shows(states[|moves|], TwoPairs())
  {
    var s0 := Init(Pipeline);
    states, moves := [s0], [];
    assert IsResetRun(states, moves);
    var s := Open(s0, 0);
    assert Moves(s0, Ask(OpenClient(0), []), s) by { assert Free(s0, 0); }
    Extend(states, moves, Ask(OpenClient(0), []), s);
    states, moves := states + [s], moves + [Ask(OpenClient(0), [])];
    var v := View(map[], [], [], 0, 0, 0, 0, 0, 0);
    OpenShows(s);
    Submits();
    SecondPair();
    var move, t := SubmitMove(s, v, false);
    Extend(states, moves, move, t);
    states, moves := states + [t], moves + [move];
    move, t := SubmitMove(t, OneRender(), true);
    Extend(states, moves, move, t);
    states, moves := states + [t], moves + [move];
    move, t := SubmitMove(t, OnePair(), true);
    Extend(states, moves, move, t);
    states, moves := states + [t], moves + [move];
  }

  lemma OpenShows(s: State)
    requires s == Open(Init(Pipeline), 0)
    ensures Shows(s, View(map[], [], [], 0, 0, 0, 0, 0, 0))
  {
  }

  /** From there, the first bin completes and a reset comes. */
  lemma ResetReached() returns (states: seq<State>, moves: seq<Move>)
    ensures IsResetRun(states, moves) && Shows(states[|moves|], AfterReset())
  {
    states, moves := TwoPairsReached();
    var s := states[|moves|];
    var m := JobDone(s, 2, false);
    FinishedShows(s, m, TwoPairs(), 2, false);
    OneCompleted(s, BIN);
    BinDone();
    var move, t := PassMove(s, m, Finished(TwoPairs(), 2, false), [BIN], false);
    Extend(states, moves, move, t);
    states, moves := states + [t], moves + [move];
    var r := Completed(t, [], true);
    BothFail(t, r, FirstBinDone());
    ResetDone();
    move, s := PassMove(t, r, Finished(Finished(FirstBinDone(), 4, true), 1, true), [], true);
    Extend(states, moves, move, s);
    states, moves := states + [s], moves + [move];
  }

  lemma LastDone()
    ensures var v := Finished(AfterReap(), 3, false);
      Sound(v) && Kicked(v) == View(map[], [], [], 0, 0, 5, 2, 3, 2)
  {
    assert Finished(AfterReap(), 3, false).jobs == map[];
  }

  lemma RenderSignaled(s: State, v: View, seqno: nat)
    requires Shows(s, v)
    ensures Signaled(s.page, Fence(0, RENDER, 1, seqno)) <==> seqno <= v.doneRender
  {
  }

  /**
   A run of the server from its start - three submits of one client, a completed bin, a
   reset, two more passes - in which a fence is signalled, and pending one pass later. In
   between the row's count has also passed a render that is still on the hardware.
   */
  lemma ReapGoesBackReachable() returns (states: seq<State>, moves: seq<Move>, f: Fence, i: nat)
    ensures IsResetRun(states, moves) && i + 2 == |states| - 1
    ensures 5 in states[i].w.jobs && states[i].w.jobs[5].fence == f && !Signaled(states[i].page, f)
    ensures Signaled(states[i + 1].page, f)
    ensures RENDER in states[i + 1].w.active && states[i + 1].w.active[RENDER] in states[i + 1].w.jobs
      && Signaled(states[i + 1].page, states[i + 1].w.jobs[states[i + 1].w.active[RENDER]].fence)
    ensures !Signaled(states[i + 2].page, f)
  {
    states, moves := ResetReached();
    i, f := |moves|, Fence(0, RENDER, 1, 3);
    var s := states[i];
    ReapDone();
    RenderSignaled(s, AfterReset(), 3);
    var move, t := ReapMove(s, AfterReset());
    Extend(states, moves, move, t);
    states, moves := states + [t], moves + [move];
    RenderSignaled(t, AfterReap(), 3);
    RenderSignaled(t, AfterReap(), 2);
    var m := JobDone(t, 3, false);
    FinishedShows(t, m, AfterReap(), 3, false);
    OneCompleted(t, RENDER);
    LastDone();
    var u: State;
    move, u := PassMove(t, m, Finished(AfterReap(), 3, false), [RENDER], false);
    RenderSignaled(u, View(map[], [], [], 0, 0, 5, 2, 3, 2), 3);
    Extend(states, moves, move, u);
    states, moves := states + [u], moves + [move];
  }
}
