/**
 What the scheduler promises on every run without a GPU reset: it never stops with work
 left, its fences never read signalled early, and they never go back.
 */
module SchedTheorems {
  import opened SchedState
  import opened SchedInv
  import opened SchedSteps
  import opened SchedRuns

  // ------------------------------------------------------------------------
  // No deadlock
  // ------------------------------------------------------------------------

  lemma OldestJob(jobs: map<nat, Job>, g: nat) returns (m: nat)
    requires g in jobs
    ensures m in jobs && forall x :: x in jobs ==> m <= x
    decreases g
  {
    if forall x :: x in jobs ==> g <= x {
      m := g;
    } else {
      var x :| x in jobs && x < g;
      m := OldestJob(jobs, x);
    }
  }

  /** With all queues empty, the job submitted first is at the head of its FIFO and ready. */
  lemma OldestIsReady(s: State, g: nat)
    requires Inv(s) && s.w.active == map[]
    requires g in s.w.jobs && forall x :: x in s.w.jobs ==> g <= x
    ensures HeadReady(s.w, s.page, CellOf(s.w.jobs[g].fence)) && Fifo(s.w, CellOf(s.w.jobs[g].fence))[0] == g
  {
    var c := CellOf(s.w.jobs[g].fence);
    assert JobOk(s.w, s.page, s.used, g);
    assert RowOk(s.w, s.page, s.used, c);
    var k :| 0 <= k < |Fifo(s.w, c)| && Fifo(s.w, c)[k] == g;
    assert InRow(s.w, c, Fifo(s.w, c)[0]);
    forall i | 0 <= i < |s.w.jobs[g].deps| ensures Signaled(s.page, s.w.jobs[g].deps[i]) {
      assert DepOk(s.w, s.page, s.used, g, s.w.jobs[g].deps[i]);
    }
  }

  /** In a settled state a ready head means that something runs. */
  lemma ReadyMeansBusy(s: State, g: nat)
    requires Inv(s) && Settled(s) && g in s.w.jobs && HeadReady(s.w, s.page, CellOf(s.w.jobs[g].fence))
    ensures s.w.active != map[]
  {
    var c := CellOf(s.w.jobs[g].fence);
    assert JobOk(s.w, s.page, s.used, g);
    if c.queue != CPU && s.mode == Serial {
      assert HwHeadReady(s.w, s.page, c);
      var q :| q in HwActive(s.w.active);
    }
  }

  /** As long as a job exists, some queue has one on the hardware. */
  lemma NoDeadlock(s: State)
    requires Inv(s) && Settled(s) && s.w.jobs != map[]
    ensures s.w.active != map[]
  {
    var g :| g in s.w.jobs;
    var m := OldestJob(s.w.jobs, g);
    if s.w.active == map[] {
      OldestIsReady(s, m);
      ReadyMeansBusy(s, m);
    }
  }

  /** Deadlock freedom: on every run, in both modes, a job left means a job on the hardware. */
  lemma DeadlockFree(states: seq<State>, steps: seq<Step>, i: nat)
    requires IsRun(states, steps) && i < |states|
    ensures states[i].w.jobs != map[] ==> states[i].w.active != map[]
  {
    RunInv(states, steps, i);
    if states[i].w.jobs != map[] {
      NoDeadlock(states[i]);
    }
  }

  lemma DoneShrinks(s: State, g: nat)
    requires g in s.w.jobs
    ensures |JobDone(s, g, false).w.jobs| == |s.w.jobs| - 1
  {
    assert JobDone(s, g, false).w.jobs.Keys == s.w.jobs.Keys - {g};
  }

  lemma CompleteEachShrinks(s: State, done: seq<nat>)
    requires Inv(s)
    ensures |CompleteEach(s, done).w.jobs| <= |s.w.jobs|
    ensures (exists q :: q in done && q in s.w.active) ==> |CompleteEach(s, done).w.jobs| < |s.w.jobs|
    decreases |done|
  {
    if done != [] {
      var q := done[0];
      if q in s.w.active {
        assert QueueOk(s.w, q);
        DoneKeeps(s, s.w.active[q]);
        DoneShrinks(s, s.w.active[q]);
        CompleteEachShrinks(JobDone(s, s.w.active[q], false), done[1..]);
      } else {
        CompleteEachShrinks(s, done[1..]);
        assert forall p :: p in done && p in s.w.active ==> p in done[1..];
      }
    }
  }

  /** Event passes one after another, each reporting at least one job of the moment as done. */
  ghost predicate Draining(s: State, passes: seq<seq<nat>>)
    decreases |passes|
  {
    passes == [] ||
    ((exists q :: q in passes[0] && q in s.w.active) && Draining(EventPass(s, passes[0]), passes[1..]))
  }

  ghost function Drain(s: State, passes: seq<seq<nat>>): State
    decreases |passes|
  {
    if passes == [] then s else Drain(EventPass(s, passes[0]), passes[1..])
  }

  /**
   Nothing submitted is ever stuck: however the hardware orders its completions, at most
   as many passes as there are jobs leave none, the hardware is never idle before that,
   and then every fence handed out is signalled.
   */
  lemma {:induction false} DrainFinishes(s: State, passes: seq<seq<nat>>)
    requires Inv(s) && Settled(s) && Draining(s, passes)
    ensures var t := Drain(s, passes);
      && Inv(t) && Settled(t)
      && |t.w.jobs| + |passes| <= |s.w.jobs|
      && (t.w.active == map[] ==> t.w.jobs == map[] && forall f :: HandedOut(t.page, f) ==> Signaled(t.page, f))
    decreases |passes|
  {
    if passes == [] {
      if s.w.active == map[] {
        if s.w.jobs != map[] { NoDeadlock(s); }
        forall f | HandedOut(s.page, f) ensures Signaled(s.page, f) {
          if !Signaled(s.page, f) { PendingIsCarried(s.w, s.page, s.used, f); }
        }
      }
    } else {
      CompleteEachShrinks(s, passes[0]);
      var mid := CompleteEach(s, passes[0]);
      DispatchFrame(mid);
      StepKeeps(s, Events(passes[0]));
      StepSettles(s, Events(passes[0]));
      DrainFinishes(EventPass(s, passes[0]), passes[1..]);
    }
  }

  // ------------------------------------------------------------------------
  // Fences
  // ------------------------------------------------------------------------

  /** A job still queued or running never reads signalled. */
  lemma UnfinishedUnsignaled(s: State, g: nat)
    requires Inv(s) && g in s.w.jobs
    ensures !Signaled(s.page, s.w.jobs[g].fence)
  {
    var f := s.w.jobs[g].fence;
    assert JobOk(s.w, s.page, s.used, g);
    assert RowOk(s.w, s.page, s.used, CellOf(f));
    assert OnQueue(s.w, g) ==> ActiveIn(s.w, CellOf(f));
  }

  /** The job of a row on the hardware, then its FIFO. */
  function Window(w: Work, c: Cell): seq<nat> {
    (if ActiveIn(w, c) then [w.active[c.queue]] else []) + Fifo(w, c)
  }

  /** The seqnos completed+1 .. next_seq of an open slot are exactly its window, in order. */
  lemma SeqnoWindow(s: State, c: Cell)
    requires Inv(s) && c.slot in s.used && c.queue < NQUEUES
    ensures Num(s.page.completed, c) + |Window(s.w, c)| == Num(s.page.nextSeq, c)
    ensures forall k :: 0 <= k < |Window(s.w, c)| ==>
      && Window(s.w, c)[k] in s.w.jobs
      && s.w.jobs[Window(s.w, c)[k]].fence
         == Fence(c.slot, c.queue, Num(s.page.slotGen, c.slot), Num(s.page.completed, c) + 1 + k)
    ensures forall g :: g in s.w.jobs && CellOf(s.w.jobs[g].fence) == c ==> g in Window(s.w, c)
  {
    assert RowOk(s.w, s.page, s.used, c);
    forall k | 0 <= k < |Window(s.w, c)| ensures InRow(s.w, c, Window(s.w, c)[k]) && JobOk(s.w, s.page, s.used, Window(s.w, c)[k]) {
      var r := Running(s.w, c);
      assert Window(s.w, c)[k] == if k < r then s.w.active[c.queue] else Fifo(s.w, c)[k - r];
    }
    forall g | g in s.w.jobs && CellOf(s.w.jobs[g].fence) == c ensures g in Window(s.w, c) {
      assert JobOk(s.w, s.page, s.used, g);
    }
  }

  /** A fence of an open slot's present owner is pending exactly while it names a job that exists. */
  lemma PendingIffJob(s: State, f: Fence)
    requires Inv(s) && f.slot in s.used && f.queue < NQUEUES && f.gen == Num(s.page.slotGen, f.slot)
    ensures !Signaled(s.page, f) && f.seqno <= Num(s.page.nextSeq, CellOf(f))
      <==> exists g :: g in s.w.jobs && s.w.jobs[g].fence == f
  {
    var c := CellOf(f);
    SeqnoWindow(s, c);
    if !Signaled(s.page, f) && f.seqno <= Num(s.page.nextSeq, c) {
      var g := Window(s.w, c)[f.seqno - Num(s.page.completed, c) - 1];
      assert s.w.jobs[g].fence == f;
    }
    if exists g :: g in s.w.jobs && s.w.jobs[g].fence == f {
      var g :| g in s.w.jobs && s.w.jobs[g].fence == f;
      UnfinishedUnsignaled(s, g);
      var k :| 0 <= k < |Window(s.w, c)| && Window(s.w, c)[k] == g;
    }
  }

  /** The page of a later moment, under the same owners. */
  ghost predicate Advanced(p: Page, p': Page) {
    && p'.slotGen == p.slotGen
    && (forall c: Cell :: Num(p.completed, c) <= Num(p'.completed, c))
    && (forall c: Cell :: Num(p.nextSeq, c) <= Num(p'.nextSeq, c))
  }

  lemma CompleteEachAdvances(s: State, done: seq<nat>)
    requires Inv(s)
    ensures Advanced(s.page, CompleteEach(s, done).page)
    decreases |done|
  {
    if done != [] {
      var q := done[0];
      if q in s.w.active {
        assert QueueOk(s.w, q);
        var g := s.w.active[q];
        DoneKeeps(s, g);
        assert Advanced(s.page, JobDone(s, g, false).page) by {
          assert RowOk(s.w, s.page, s.used, CellOf(s.w.jobs[g].fence));
        }
        CompleteEachAdvances(JobDone(s, g, false), done[1..]);
      } else {
        CompleteEachAdvances(s, done[1..]);
      }
    }
  }

  lemma TakeSeqAdvances(p: Page, c: Cell)
    ensures Advanced(p, TakeSeq(p, c))
  {
  }

  lemma SubmittedAdvances(s: State, slot: nat, rq: Request)
    ensures Advanced(s.page, Submitted(s, slot, rq).page)
  {
    TakeSeqAdvances(s.page, Cell(slot, OneQueue(rq.op)));
    if HasPair(rq.op) {
      TakeSeqAdvances(s.page, Cell(slot, BIN));
      TakeSeqAdvances(TakeSeq(s.page, Cell(slot, BIN)), Cell(slot, RENDER));
    }
  }

  lemma GoneAdvances(s: State, slot: nat)
    ensures Advanced(s.page, Gone(s, slot).page)
  {
  }

  lemma PrepareAdvances(s: State, step: Step)
    requires Inv(s) && Enabled(s, step) && !step.OpenClient?
    ensures Advanced(s.page, Prepare(s, step).page)
  {
    match step
    case CloseClient(slot) => GoneAdvances(s, slot);
    case Submit(slot, rq) => SubmittedAdvances(s, slot, rq);
    case Events(done) => CompleteEachAdvances(s, done);
    case _ =>
  }

  /** Every step but opening a slot only moves the page forward. */
  lemma StepAdvances(s: State, step: Step)
    requires Inv(s) && Enabled(s, step) && !step.OpenClient?
    ensures Advanced(s.page, Next(s, step).page)
  {
    PrepareAdvances(s, step);
    DispatchFrame(Prepare(s, step));
  }

  /** A handed-out fence stays handed out, and once signalled stays signalled, through any step. */
  lemma StepKeepsSignaled(s: State, step: Step, f: Fence)
    requires Inv(s) && Enabled(s, step) && HandedOut(s.page, f)
    ensures HandedOut(Next(s, step).page, f)
    ensures Signaled(s.page, f) ==> Signaled(Next(s, step).page, f)
  {
    if !step.OpenClient? {
      StepAdvances(s, step);
    }
  }

  /** Fences never go back, over completions, client death and slot reassignment. */
  lemma {:induction false} SignaledForever(states: seq<State>, steps: seq<Step>, i: nat, j: nat, f: Fence)
    requires IsRun(states, steps) && i <= j < |states|
    requires HandedOut(states[i].page, f)
    ensures HandedOut(states[j].page, f)
    ensures Signaled(states[i].page, f) ==> Signaled(states[j].page, f)
    decreases j - i
  {
    if i < j {
      RunInv(states, steps, i);
      StepKeepsSignaled(states[i], steps[i], f);
      SignaledForever(states, steps, i + 1, j, f);
    }
  }
}
