/**
 The PIPELINE scheduler serves clients in turn: while a ready job waits at the head of
 its FIFO, its queue takes at most NSLOTS - 1 other jobs.
 */
module RoundRobin {
  import opened SchedState
  import opened SchedInv
  import opened SchedSteps
  import opened SchedRuns
  import opened SchedTheorems

  /** `g` waits at the head of row `c`, ready to run. */
  predicate Waiting(w: Work, p: Page, c: Cell, g: nat) {
    c.slot < NSLOTS && Fifo(w, c) != [] && Fifo(w, c)[0] == g && Ready(w, p, g)
  }

  /** How many slots the scan visits before `u` when it starts at cursor `r`. */
  function Dist(r: nat, u: nat): nat
    requires u < NSLOTS
  {
    if u >= r % NSLOTS then u - r % NSLOTS else u + NSLOTS - r % NSLOTS
  }

  lemma DistIsOffset(r: nat, u: nat, i: nat)
    requires u < NSLOTS && i < NSLOTS
    ensures (r + i) % NSLOTS == u <==> i == Dist(r, u)
  {
    var m := r % NSLOTS;
    assert r == (r / NSLOTS) * NSLOTS + m;
    assert (r + i) % NSLOTS == if m + i < NSLOTS then m + i else m + i - NSLOTS by {
      if m + i < NSLOTS {
        assert r + i == (r / NSLOTS) * NSLOTS + (m + i);
      } else {
        assert r + i == (r / NSLOTS + 1) * NSLOTS + (m + i - NSLOTS);
      }
    }
  }

  /** Moving the cursor just past a slot that comes earlier brings `u` that much closer. */
  lemma CursorCloser(r: nat, u: nat, i: nat)
    requires u < NSLOTS && i < Dist(r, u)
    ensures Dist((r + i) % NSLOTS + 1, u) == Dist(r, u) - i - 1
  {
    var m := r % NSLOTS;
    DistIsOffset(r, (r + i) % NSLOTS, i);
  }

  function Kicks(s: State, q: nat): nat {
    Num(s.hw.submitted, q)
  }

  function DistTo(s: State, c: Cell): nat
    requires c.slot < NSLOTS
  {
    Dist(Num(s.rr, c.queue), c.slot)
  }

  /** Still waiting, and each kick of the queue has brought its turn closer. */
  predicate Closer(s: State, t: State, c: Cell, g: nat) {
    && Waiting(t.w, t.page, c, g)
    && c.slot < NSLOTS
    && Kicks(t, c.queue) + DistTo(t, c) <= Kicks(s, c.queue) + DistTo(s, c)
  }

  lemma KickNextTurn(s: State, c: Cell, g: nat)
    requires Waiting(s.w, s.page, c, g)
    ensures var t := KickNext(s, c.queue);
      (c.queue in t.w.active && t.w.active[c.queue] == g) || Closer(s, t, c, g)
  {
    var q := c.queue;
    if q !in s.w.active {
      FoundInTime(s, c, g);
      if FirstReady(s, q, FIRST) < DistTo(s, c) { KickEarlier(s, c, g); }
    }
  }

  /** Another slot's head goes first: the cursor moves past it and this one's turn comes closer. */
  lemma KickEarlier(s: State, c: Cell, g: nat)
    requires Waiting(s.w, s.page, c, g) && c.queue !in s.w.active
    requires FirstReady(s, c.queue, FIRST) < DistTo(s, c) < NSLOTS
    ensures Closer(s, KickNext(s, c.queue), c, g)
  {
    var q := c.queue;
    var i := FirstReady(s, q, FIRST);
    DistIsOffset(Num(s.rr, q), c.slot, i);
    CursorCloser(Num(s.rr, q), c.slot, i);
  }

  /** The scan stops at the waiting head at the latest. */
  lemma FoundInTime(s: State, c: Cell, g: nat)
    requires Waiting(s.w, s.page, c, g)
    ensures c.slot < NSLOTS && FirstReady(s, c.queue, FIRST) <= DistTo(s, c) < NSLOTS
    ensures RrSlot(s, c.queue, DistTo(s, c)) == c.slot
  {
    var d := DistTo(s, c);
    DistIsOffset(Num(s.rr, c.queue), c.slot, d);
    assert RrSlot(s, c.queue, d) == c.slot;
  }

  lemma KickNextOther(s: State, q: nat, c: Cell, g: nat)
    requires Waiting(s.w, s.page, c, g) && q != c.queue
    ensures Closer(s, KickNext(s, q), c, g)
  {
  }

  lemma CloserTrans(s: State, t: State, u: State, c: Cell, g: nat)
    requires Closer(s, t, c, g) && Closer(t, u, c, g)
    ensures Closer(s, u, c, g)
  {
  }

  predicate Taken(w: Work, c: Cell, g: nat) {
    c.queue in w.active && w.active[c.queue] == g
  }

  lemma KickNextTaken(s: State, q: nat, c: Cell, g: nat)
    requires Taken(s.w, c, g)
    ensures Taken(KickNext(s, q).w, c, g)
  {
  }

  lemma PipelineTaken(s: State, q: nat, c: Cell, g: nat)
    requires q <= NQUEUES && Taken(s.w, c, g)
    ensures Taken(RunPipeline(s, q).w, c, g)
    decreases NQUEUES - q
  {
    if q < NQUEUES {
      KickNextTaken(s, q, c, g);
      PipelineTaken(if IsHw(q) then KickNext(s, q) else s, q + 1, c, g);
    }
  }

  lemma PipelineTurn(s: State, q: nat, c: Cell, g: nat)
    requires q <= NQUEUES && Waiting(s.w, s.page, c, g)
    ensures Taken(RunPipeline(s, q).w, c, g) || Closer(s, RunPipeline(s, q), c, g)
    decreases NQUEUES - q
  {
    if q < NQUEUES {
      var t := if IsHw(q) then KickNext(s, q) else s;
      if IsHw(q) {
        if q == c.queue { KickNextTurn(s, c, g); } else { KickNextOther(s, q, c, g); }
      }
      if Taken(t.w, c, g) {
        PipelineTaken(t, q + 1, c, g);
      } else {
        PipelineTurn(t, q + 1, c, g);
        if !Taken(RunPipeline(t, q + 1).w, c, g) { CloserTrans(s, t, RunPipeline(t, q + 1), c, g); }
      }
    }
  }

  /** One scheduler run in PIPELINE mode takes the waiting job or brings its turn closer. */
  lemma DispatchTurn(s: State, c: Cell, g: nat)
    requires Waiting(s.w, s.page, c, g) && s.mode == Pipeline
    ensures Taken(Dispatch(s).w, c, g) || Closer(s, Dispatch(s), c, g)
  {
    var s1 := KickNext(s, CPU);
    if c.queue == CPU { KickNextTurn(s, c, g); } else { KickNextOther(s, CPU, c, g); }
    if Taken(s1.w, c, g) {
      PipelineTaken(s1, BIN, c, g);
    } else {
      PipelineTurn(s1, BIN, c, g);
      if !Taken(Dispatch(s).w, c, g) { CloserTrans(s, s1, Dispatch(s), c, g); }
    }
  }

  // ------------------------------------------------------------------------
  // Everything else leaves the waiting job where it is
  // ------------------------------------------------------------------------

  /** Same turn: still at the head and ready, cursor and kick count untouched. */
  predicate SameTurn(s: State, t: State, c: Cell, g: nat) {
    Waiting(t.w, t.page, c, g) && t.rr == s.rr && t.hw.submitted == s.hw.submitted
  }

  lemma DoneSameTurn(s: State, y: nat, c: Cell, g: nat)
    requires Inv(s) && Waiting(s.w, s.page, c, g) && OnQueue(s.w, y)
    ensures SameTurn(s, JobDone(s, y, false), c, g)
  {
    assert RowOk(s.w, s.page, s.used, c) && RowOk(s.w, s.page, s.used, CellOf(s.w.jobs[y].fence));
    assert InRow(s.w, c, g);
    assert y != g;
  }

  lemma CompleteEachSameTurn(s: State, done: seq<nat>, c: Cell, g: nat)
    requires Inv(s) && Waiting(s.w, s.page, c, g)
    ensures SameTurn(s, CompleteEach(s, done), c, g)
    decreases |done|
  {
    if done != [] {
      var q := done[0];
      if q in s.w.active {
        assert QueueOk(s.w, q);
        DoneKeeps(s, s.w.active[q]);
        DoneSameTurn(s, s.w.active[q], c, g);
        CompleteEachSameTurn(JobDone(s, s.w.active[q], false), done[1..], c, g);
      } else {
        CompleteEachSameTurn(s, done[1..], c, g);
      }
    }
  }

  lemma EnqueueSameTurn(s: State, slot: nat, q: nat, deps: seq<Fence>, bos: seq<nat>, c: Cell, g: nat)
    requires g <= s.w.gseq && Waiting(s.w, s.page, c, g)
    ensures SameTurn(s, Enqueue(s, slot, q, deps, bos), c, g)
  {
  }

  lemma QueueSameTurn(s: State, slot: nat, rq: Request, c: Cell, g: nat)
    requires g <= s.w.gseq && Waiting(s.w, s.page, c, g)
    ensures SameTurn(s, Queue(s, slot, rq), c, g)
  {
    var deps := FirstDeps(s, slot, rq).deps;
    if HasPair(rq.op) {
      EnqueueSameTurn(s, slot, BIN, deps, [], c, g);
      var s1 := Enqueue(s, slot, BIN, deps, []);
      EnqueueSameTurn(s1, slot, RENDER, ExplicitDeps(s, slot, rq.ins, {true}), rq.bos, c, g);
    } else {
      EnqueueSameTurn(s, slot, OneQueue(rq.op), deps, rq.bos, c, g);
    }
  }

  lemma JoinSameTurn(s: State, slot: nat, bos: seq<nat>, f: Fence, c: Cell, g: nat)
    requires g <= s.w.gseq && Waiting(s.w, s.page, c, g)
    ensures SameTurn(s, Joined(s, slot, bos, f), c, g)
  {
    EnqueueSameTurn(s, slot, CPU, JoinDeps(s, bos, f).deps, [], c, g);
  }

  lemma OpenSameTurn(s: State, slot: nat, c: Cell, g: nat)
    requires Inv(s) && Enabled(s, OpenClient(slot)) && Waiting(s.w, s.page, c, g)
    ensures SameTurn(s, Open(s, slot), c, g)
  {
    assert JobOk(s.w, s.page, s.used, g);
    forall i | 0 <= i < |s.w.jobs[g].deps| ensures Signaled(Open(s, slot).page, s.w.jobs[g].deps[i]) {
      assert DepOk(s.w, s.page, s.used, g, s.w.jobs[g].deps[i]);
      StepKeepsSignaled(s, OpenClient(slot), s.w.jobs[g].deps[i]);
    }
  }

  lemma RequestSameTurn(s: State, step: Step, c: Cell, g: nat)
    requires g <= s.w.gseq && Waiting(s.w, s.page, c, g)
    requires !step.OpenClient? && !step.CloseClient? && !step.Events?
    ensures SameTurn(s, Prepare(s, step), c, g)
  {
    match step
    case Submit(slot, rq) => QueueSameTurn(s, slot, rq, c, g);
    case SubmitNop(slot) => EnqueueSameTurn(s, slot, CPU, [], [], c, g);
    case AttachFence(slot, bos, f) => JoinSameTurn(s, slot, bos, f, c, g);
    case _ =>
  }

  lemma PrepareSameTurn(s: State, step: Step, c: Cell, g: nat)
    requires Inv(s) && Enabled(s, step) && !step.CloseClient? && Waiting(s.w, s.page, c, g)
    ensures SameTurn(s, Prepare(s, step), c, g)
  {
    if step.OpenClient? {
      OpenSameTurn(s, step.slot, c, g);
    } else if step.Events? {
      CompleteEachSameTurn(s, step.done, c, g);
    } else {
      assert JobOk(s.w, s.page, s.used, g);
      RequestSameTurn(s, step, c, g);
    }
  }

  /** Any step but a close leaves a ready head ready: it is taken, or its turn is no further off. */
  lemma StepTurn(s: State, step: Step, c: Cell, g: nat)
    requires Inv(s) && Enabled(s, step) && !step.CloseClient?
    requires Waiting(s.w, s.page, c, g) && Next(s, step).mode == Pipeline
    ensures Taken(Next(s, step).w, c, g) || Closer(s, Next(s, step), c, g)
  {
    PrepareSameTurn(s, step, c, g);
    if Schedules(s, step) {
      DispatchFrame(Prepare(s, step));
      DispatchTurn(Prepare(s, step), c, g);
    }
  }

  /**
   Round-robin bound: over any stretch of a run in PIPELINE mode with no client closing, a
   job that was ready at the head of its FIFO stays so until it is taken, and while it
   waits its queue kicks at most NSLOTS - 1 jobs: fewer with every slot the cursor passes.
   */
  lemma {:induction false} RoundRobinBound(states: seq<State>, steps: seq<Step>, i: nat, j: nat, c: Cell, g: nat)
    requires IsRun(states, steps) && i <= j < |states|
    requires forall k :: i <= k <= j ==> states[k].mode == Pipeline && g in Fifo(states[k].w, c)
    requires forall k :: i <= k < j ==> !steps[k].CloseClient?
    requires Waiting(states[i].w, states[i].page, c, g)
    ensures Waiting(states[j].w, states[j].page, c, g)
    ensures Kicks(states[j], c.queue) - Kicks(states[i], c.queue) <= DistTo(states[i], c) - DistTo(states[j], c)
    ensures Kicks(states[j], c.queue) - Kicks(states[i], c.queue) <= NSLOTS - 1
    decreases j - i
  {
    if i < j {
      RunInv(states, steps, i);
      RunInv(states, steps, i + 1);
      StepTurn(states[i], steps[i], c, g);
      NotTakenAndQueued(states[i + 1], c, g);
      RoundRobinBound(states, steps, i + 1, j, c, g);
    }
  }

  lemma NotTakenAndQueued(s: State, c: Cell, g: nat)
    requires Inv(s) && g in Fifo(s.w, c)
    ensures !Taken(s.w, c, g)
  {
    assert RowOk(s.w, s.page, s.used, c);
    assert InRow(s.w, c, g);
    assert Taken(s.w, c, g) ==> ActiveIn(s.w, c);
  }
}
