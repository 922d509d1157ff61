/**
 Fences that clients bring themselves. v3da_fence_valid is meant to let in only fences
 that have been handed out. It also lets in two others: any seqno of a slot that nobody
 uses, and any fence of a generation the slot has not reached yet.
 */
module FenceImports {
  import opened SchedState
  import opened SchedInv
  import opened SchedSteps
  import opened SchedRuns
  import opened SchedTheorems

  /** A seqno of the slot's present generation that nobody has got yet. */
  predicate Unissued(p: Page, f: Fence) {
    f.slot < NSLOTS && f.queue < NQUEUES
    && Num(p.slotGen, f.slot) % GEN_MOD == f.gen && f.seqno > Num(p.nextSeq, CellOf(f))
  }

  /** Signalled, or a job exists whose completion signals it. */
  ghost predicate Held(s: State, f: Fence) {
    Signaled(s.page, f) || CarriedBelow(s.w, s.page, s.used, s.w.gseq + 1, f)
  }

  lemma UnissuedNow(p: Page, f: Fence)
    requires f.slot < NSLOTS && f.queue < NQUEUES && Num(p.slotGen, f.slot) == f.gen < GEN_MOD
    requires f.seqno > Num(p.nextSeq, CellOf(f))
    ensures Unissued(p, f)
  {
  }

  lemma HeldIff(s: State, f: Fence)
    requires Inv(s)
    ensures Held(s, f) <==> !Unissued(s.page, f)
  {
    var c := CellOf(f);
    assert RowOk(s.w, s.page, s.used, c);
    assert Num(s.page.slotGen, f.slot) < GEN_MOD;
    if Unissued(s.page, f) {
      forall d: nat ensures !Carries(s.w, s.page, s.used, d, f) {
        if d in s.w.jobs && CellOf(s.w.jobs[d].fence) == c {
          assert JobOk(s.w, s.page, s.used, d);
          assert OnQueue(s.w, d) ==> ActiveIn(s.w, c);
        }
      }
    } else if !Signaled(s.page, f) {
      PendingIsCarried(s.w, s.page, s.used, f);
    }
  }

  /**
   Reassigning a slot leaves a fence signalled unless the fence already carries the new
   32-bit generation: one from the future, or one as old as a whole wrap.
   */
  lemma AssignSignals(p: Page, slot: nat, f: Fence)
    requires Signaled(p, f)
    ensures Signaled(Assign(p, slot), f)
      <==> !(f.slot == slot && slot < NSLOTS && f.queue < NQUEUES && f.seqno > 0
             && (Num(p.slotGen, slot) + 1) % GEN_MOD == f.gen)
  {
  }

  // ------------------------------------------------------------------------
  // What follows a state
  // ------------------------------------------------------------------------

  /** A stretch of a run, from any state. */
  ghost predicate IsPath(states: seq<State>, steps: seq<Step>) {
    |states| == |steps| + 1 && forall i: nat :: i < |steps| ==> WentAt(states, steps, i)
  }

  ghost predicate WentAt(states: seq<State>, steps: seq<Step>, i: nat)
    requires |states| == |steps| + 1 && i < |steps|
  {
    Enabled(states[i], steps[i]) && states[i + 1] == Next(states[i], steps[i])
  }

  ghost predicate Reaches(s: State, t: State) {
    exists states, steps :: IsPath(states, steps) && states[0] == s && states[|steps|] == t
  }

  /** In this state and in every one that can follow it, the fence is signalled or will be. */
  ghost predicate HeldFromNow(s: State, f: Fence) {
    forall t :: Reaches(s, t) ==> Held(t, f)
  }

  lemma ReachesSelf(s: State)
    ensures Reaches(s, s)
  {
    var states, steps: seq<Step> := [s], [];
    assert IsPath(states, steps) && states[0] == s && states[|steps|] == s;
  }

  lemma ReachesNext(s: State, t: State, step: Step)
    requires Reaches(s, t) && Enabled(t, step)
    ensures Reaches(s, Next(t, step))
  {
    var states, steps :| IsPath(states, steps) && states[0] == s && states[|steps|] == t;
    LongerPath(states, steps, step);
  }

  lemma SameWent(states: seq<State>, steps: seq<Step>, states': seq<State>, steps': seq<Step>, i: nat)
    requires |states| == |steps| + 1 && i < |steps| && WentAt(states, steps, i)
    requires |states'| == |steps'| + 1 && i < |steps'|
    requires states'[i] == states[i] && states'[i + 1] == states[i + 1] && steps'[i] == steps[i]
    ensures WentAt(states', steps', i)
  {
  }

  lemma LongerPath(states: seq<State>, steps: seq<Step>, step: Step)
    requires IsPath(states, steps) && Enabled(states[|steps|], step)
    ensures Reaches(states[0], Next(states[|steps|], step))
  {
    var states', steps' := states + [Next(states[|steps|], step)], steps + [step];
    forall i: nat | i < |steps'| ensures WentAt(states', steps', i) {
      if i < |steps| { SameWent(states, steps, states', steps', i); }
    }
    assert IsPath(states', steps') && states'[0] == states[0];
  }

  lemma {:induction false} PathKnown(states: seq<State>, steps: seq<Step>, i: nat, f: Fence)
    requires IsPath(states, steps) && i < |states| && Inv(states[0]) && HandedOut(states[0].page, f)
    ensures Inv(states[i]) && HandedOut(states[i].page, f)
  {
    if i > 0 {
      PathKnown(states, steps, i - 1, f);
      assert WentAt(states, steps, i - 1);
      StepKeeps(states[i - 1], steps[i - 1]);
      StepKeepsSignaled(states[i - 1], steps[i - 1], f);
    }
  }

  /** A handed-out fence is safe for good. */
  lemma HandedOutHeld(s: State, f: Fence)
    requires Inv(s) && HandedOut(s.page, f)
    ensures HeldFromNow(s, f)
  {
    forall t | Reaches(s, t) ensures Held(t, f) {
      var states, steps :| IsPath(states, steps) && states[0] == s && states[|steps|] == t;
      PathKnown(states, steps, |steps|, f);
      assert Num(t.page.slotGen, f.slot) < GEN_MOD;
      HeldIff(t, f);
    }
  }

  // ------------------------------------------------------------------------
  // Slots that can no longer be opened
  // ------------------------------------------------------------------------

  predicate WornOut(s: State, u: nat) {
    Free(s, u) && Num(s.page.slotGen, u) + 1 >= GEN_MOD
  }

  /** A free slot that has used up its generations stands before `slot`, where the runs end. */
  ghost predicate Shut(s: State, slot: nat) {
    exists u: nat :: u < slot && WornOut(s, u)
  }

  lemma SubmittedPage(s: State, slot: nat, rq: Request)
    ensures Submitted(s, slot, rq).page ==
      if HasPair(rq.op) then TakeSeq(TakeSeq(s.page, Cell(slot, BIN)), Cell(slot, RENDER))
      else TakeSeq(s.page, Cell(slot, OneQueue(rq.op)))
  {
  }

  lemma PrepareSeq(s: State, step: Step, c: Cell)
    requires Allowed(s, step) && c.slot !in s.used && step != OpenClient(c.slot)
    ensures Num(Prepare(s, step).page.nextSeq, c) == Num(s.page.nextSeq, c)
    ensures Num(Prepare(s, step).page.slotGen, c.slot) == Num(s.page.slotGen, c.slot)
  {
    match step
    case Submit(slot, rq) => SubmittedPage(s, slot, rq);
    case Events(done) => CompleteEachSeq(s, done);
    case _ =>
  }

  /** The row of a slot that nobody uses gives out no numbers. */
  lemma UnusedSeq(s: State, step: Step, c: Cell)
    requires Allowed(s, step) && c.slot !in s.used && step != OpenClient(c.slot)
    ensures Num(Next(s, step).page.nextSeq, c) == Num(s.page.nextSeq, c)
    ensures Num(Next(s, step).page.slotGen, c.slot) == Num(s.page.slotGen, c.slot)
  {
    PrepareSeq(s, step, c);
    DispatchFrame(Prepare(s, step));
  }

  lemma CompleteEachSeq(s: State, done: seq<nat>)
    ensures var t := CompleteEach(s, done);
      t.page.nextSeq == s.page.nextSeq && t.page.slotGen == s.page.slotGen && t.page.deadFlush == s.page.deadFlush
      && t.used == s.used && t.w.fifo == s.w.fifo && t.w.gseq == s.w.gseq
    decreases |done|
  {
    if done != [] {
      var q := done[0];
      CompleteEachSeq(if q in s.w.active && s.w.active[q] in s.w.jobs then JobDone(s, s.w.active[q], false) else s, done[1..]);
    }
  }

  lemma WornOutStays(s: State, step: Step, u: nat)
    requires Inv(s) && Enabled(s, step) && WornOut(s, u)
    ensures WornOut(Next(s, step), u)
  {
    var t := Next(s, step);
    StepKeeps(s, step);
    FreeRow(s, u);
    assert u !in t.used by { DispatchFrame(Prepare(s, step)); UsedGrows(s, step, u); }
    forall q | 0 <= q < NQUEUES ensures !ActiveIn(t.w, Cell(u, q)) && Num(t.page.slotGen, u) == Num(s.page.slotGen, u) {
      var c := Cell(u, q);
      UnusedSeq(s, step, c);
      assert RowOk(s.w, s.page, s.used, c) && RowOk(t.w, t.page, t.used, c);
      if !step.OpenClient? { StepAdvances(s, step); }
    }
    assert Num(t.page.slotGen, u) == Num(s.page.slotGen, u) by { UnusedSeq(s, step, Cell(u, BIN)); }
  }

  lemma UsedGrows(s: State, step: Step, u: nat)
    requires u !in s.used && step != OpenClient(u)
    ensures u !in Next(s, step).used
  {
    DispatchFrame(Prepare(s, step));
    match step
    case Events(done) => CompleteEachSeq(s, done);
    case _ =>
  }

  /** Behind a worn-out slot, `slot` is never assigned again. */
  lemma {:induction false} ShutGen(states: seq<State>, steps: seq<Step>, i: nat, u: nat, slot: nat)
    requires IsPath(states, steps) && i < |states| && Inv(states[0]) && WornOut(states[0], u) && u < slot
    ensures Inv(states[i]) && WornOut(states[i], u)
    ensures Num(states[i].page.slotGen, slot) == Num(states[0].page.slotGen, slot)
  {
    if i > 0 {
      ShutGen(states, steps, i - 1, u, slot);
      assert WentAt(states, steps, i - 1);
      var s, step := states[i - 1], steps[i - 1];
      StepKeeps(s, step);
      WornOutStays(s, step, u);
      assert step != OpenClient(slot);
      GenKept(s, step, slot);
    }
  }

  lemma GenKept(s: State, step: Step, slot: nat)
    requires Inv(s) && Enabled(s, step) && step != OpenClient(slot)
    ensures Num(Next(s, step).page.slotGen, slot) == Num(s.page.slotGen, slot)
  {
    if !step.OpenClient? { StepAdvances(s, step); }
  }

  lemma ShutHeld(s: State, f: Fence)
    requires Inv(s) && Shut(s, f.slot) && f.gen != Num(s.page.slotGen, f.slot)
    ensures HeldFromNow(s, f)
  {
    var u: nat :| u < f.slot && WornOut(s, u);
    forall t | Reaches(s, t) ensures Held(t, f) {
      var states, steps :| IsPath(states, steps) && states[0] == s && states[|steps|] == t;
      ShutGen(states, steps, |steps|, u, f.slot);
      assert Num(t.page.slotGen, f.slot) < GEN_MOD;
      HeldIff(t, f);
    }
  }

  // ------------------------------------------------------------------------
  // Reaching a later generation
  // ------------------------------------------------------------------------

  lemma PipelineActive(s: State, q: nat, p: nat)
    requires q <= NQUEUES && p in s.w.active
    ensures p in RunPipeline(s, q).w.active && RunPipeline(s, q).w.active[p] == s.w.active[p]
    decreases NQUEUES - q
  {
    if q < NQUEUES { PipelineActive(if IsHw(q) then KickNext(s, q) else s, q + 1, p); }
  }

  /** The scheduler takes no job off a queue. */
  lemma DispatchActive(s: State, p: nat)
    requires HwCounted(s.hw, s.w.active) && p in s.w.active
    ensures p in Dispatch(s).w.active && Dispatch(s).w.active[p] == s.w.active[p]
  {
    var s1 := KickNext(s, CPU);
    if s1.mode == Serial {
      KickNextCounted(s);
      var kicked, c := SerialKick(s1);
    } else {
      PipelineActive(s1, BIN, p);
    }
  }

  lemma KickNextCounted(s: State)
    requires HwCounted(s.hw, s.w.active)
    ensures HwCounted(KickNext(s, CPU).hw, KickNext(s, CPU).w.active)
  {
    var i := FirstReady(s, CPU, FIRST);
    if CPU !in s.w.active && i < NSLOTS {
      KickCounted(s.hw, s.w.active, CPU, Fifo(s.w, Cell(RrSlot(s, CPU, i), CPU))[0]);
    }
  }

  ghost predicate NoneFreeBelow(s: State, slot: nat) {
    forall u: nat :: u < slot ==> !Free(s, u)
  }

  lemma BusyStays(s: State, t: State, u: nat)
    requires u < NSLOTS && !Free(s, u) && (u in s.used ==> u in t.used)
    requires forall q: nat :: q < NQUEUES && ActiveIn(s.w, Cell(u, q)) ==> ActiveIn(t.w, Cell(u, q))
    ensures !Free(t, u)
  {
    if u !in s.used {
      var q :| 0 <= q < NQUEUES && ActiveIn(s.w, Cell(u, q));
      assert ActiveIn(t.w, Cell(u, q));
    }
  }

  /** A client closes: the slots before it are no freer than they were. */
  lemma ClosedBelow(s: State, slot: nat)
    requires Inv(s) && slot in s.used && NoneFreeBelow(s, slot)
    ensures NoneFreeBelow(Next(s, CloseClient(slot)), slot)
  {
    var m, t := Gone(s, slot), Next(s, CloseClient(slot));
    GoneKeeps(s, slot);
    DispatchFrame(m);
    forall u: nat | u < slot ensures !Free(t, u) {
      assert u < NSLOTS;
      forall q: nat | q < NQUEUES && ActiveIn(s.w, Cell(u, q)) ensures ActiveIn(t.w, Cell(u, q)) {
        DiscardShape(s.w, s.page, s.used, slot, Cell(u, q));
        DispatchActive(m, q);
      }
      BusyStays(s, t, u);
    }
  }

  /** One job of `slot` completes: likewise. */
  lemma CompletedBelow(s: State, slot: nat, q: nat)
    requires Inv(s) && ActiveIn(s.w, Cell(slot, q)) && slot <= NSLOTS && NoneFreeBelow(s, slot)
    ensures NoneFreeBelow(EventPass(s, [q]), slot)
    ensures |EventPass(s, [q]).w.jobs| < |s.w.jobs|
  {
    var g := s.w.active[q];
    assert QueueOk(s.w, q);
    var m := JobDone(s, g, false);
    assert [q][1..] == [];
    assert CompleteEach(s, [q]) == m;
    DoneKeeps(s, g);
    DoneShrinks(s, g);
    DispatchFrame(m);
    forall u: nat | u < slot ensures !Free(EventPass(s, [q]), u) {
      forall p: nat | p < NQUEUES && ActiveIn(s.w, Cell(u, p)) ensures ActiveIn(Dispatch(m).w, Cell(u, p)) {
        assert p != q;
        assert QueueOk(s.w, p);
        DispatchActive(m, p);
      }
      BusyStays(s, Dispatch(m), u);
    }
  }

  lemma OpenBelow(s0: State, s: State, slot: nat, u: nat) returns (t: State)
    requires Reaches(s0, s) && Inv(s) && u <= slot < NSLOTS && NoneFreeBelow(s, u)
    requires forall v: nat :: v < slot ==> !WornOut(s, v)
    ensures Reaches(s0, t) && Inv(t) && NoneFreeBelow(t, slot)
    ensures Num(t.page.slotGen, slot) == Num(s.page.slotGen, slot)
    decreases slot - u
  {
    if u == slot {
      t := s;
    } else if !Free(s, u) {
      t := OpenBelow(s0, s, slot, u + 1);
    } else {
      assert !WornOut(s, u);
      ReachesNext(s0, s, OpenClient(u));
      OpenKeeps(s, u);
      var s1 := Open(s, u);
      forall v: nat ensures Free(s1, v) <==> Free(s, v) && v != u {}
      forall v: nat | v < slot ensures !WornOut(s1, v) { assert !WornOut(s, v); }
      t := OpenBelow(s0, s1, slot, u + 1);
    }
  }

  lemma Emptied(s0: State, s: State, slot: nat) returns (t: State)
    requires Reaches(s0, s) && Inv(s) && slot < NSLOTS && slot !in s.used && NoneFreeBelow(s, slot)
    ensures Reaches(s0, t) && Inv(t) && Free(t, slot) && NoneFreeBelow(t, slot)
    ensures Num(t.page.slotGen, slot) == Num(s.page.slotGen, slot)
    decreases |s.w.jobs|
  {
    if !SlotBusy(s.w, slot) {
      t := s;
    } else {
      var q :| 0 <= q < NQUEUES && ActiveIn(s.w, Cell(slot, q));
      var step := Events([q]);
      CompletedBelow(s, slot, q);
      StepKeeps(s, step);
      UsedGrows(s, step, slot);
      GenKept(s, step, slot);
      ReachesNext(s0, s, step);
      t := Emptied(s0, Next(s, step), slot);
    }
  }

  lemma Vacated(s0: State, s: State, slot: nat) returns (t: State)
    requires Reaches(s0, s) && Inv(s) && slot < NSLOTS && NoneFreeBelow(s, slot)
    ensures Reaches(s0, t) && Inv(t) && Free(t, slot) && NoneFreeBelow(t, slot)
    ensures Num(t.page.slotGen, slot) == Num(s.page.slotGen, slot)
  {
    if slot in s.used {
      var step := CloseClient(slot);
      ClosedBelow(s, slot);
      StepKeeps(s, step);
      GenKept(s, step, slot);
      ReachesNext(s0, s, step);
      t := Emptied(s0, Next(s, step), slot);
    } else {
      t := Emptied(s0, s, slot);
    }
  }

  /** The slot closed and opened until it has generation `n`. */
  lemma Reopened(s0: State, s: State, slot: nat, n: nat) returns (t: State)
    requires Reaches(s0, s) && Inv(s) && slot < NSLOTS && NoneFreeBelow(s, slot)
    requires Num(s.page.slotGen, slot) < n < GEN_MOD
    ensures Reaches(s0, t) && Inv(t)
    ensures Num(t.page.slotGen, slot) == n && forall q: nat :: q < NQUEUES ==> Num(t.page.nextSeq, Cell(slot, q)) == 0
    decreases n - Num(s.page.slotGen, slot)
  {
    var r := Vacated(s0, s, slot);
    ReachesNext(s0, r, OpenClient(slot));
    OpenKeeps(r, slot);
    t := Open(r, slot);
    if Num(t.page.slotGen, slot) < n {
      forall u: nat | u < slot ensures !Free(t, u) { assert !Free(r, u); }
      t := Reopened(s0, t, slot, n);
    }
  }

  /** Every later generation of a slot can come, unless a worn-out slot stands before it. */
  lemma LaterGeneration(s: State, slot: nat, n: nat) returns (t: State)
    requires Inv(s) && slot < NSLOTS && Num(s.page.slotGen, slot) < n < GEN_MOD && !Shut(s, slot)
    ensures Reaches(s, t) && Inv(t)
    ensures Num(t.page.slotGen, slot) == n && forall q: nat :: q < NQUEUES ==> Num(t.page.nextSeq, Cell(slot, q)) == 0
  {
    ReachesSelf(s);
    forall v: nat | v < slot ensures !WornOut(s, v) {}
    var r := OpenBelow(s, s, slot, 0);
    t := Reopened(s, r, slot, n);
  }

  /** A fence of a generation to come is signalled now, and pending without a job once that generation is there. */
  lemma FutureUnheld(s: State, f: Fence) returns (t: State)
    requires Inv(s) && f.slot < NSLOTS && f.queue < NQUEUES && f.seqno > 0
    requires Num(s.page.slotGen, f.slot) < f.gen < GEN_MOD && !Shut(s, f.slot)
    ensures Held(s, f) && Reaches(s, t) && !Held(t, f)
  {
    t := LaterGeneration(s, f.slot, f.gen);
    assert Unissued(t.page, f) && !Unissued(s.page, f) by { assert Num(s.page.slotGen, f.slot) < GEN_MOD; }
    HeldIff(s, f);
    HeldIff(t, f);
  }

  /**
   Of a fence that the server accepts, a signal is certain - now and after whatever may
   follow - if and only if the fence has been handed out. (Where a slot that used up its
   generations keeps the fence's slot from being assigned again, the runs end before the
   fence's generation comes.)
   */
  lemma AcceptedFenceHeldIff(s: State, f: Fence)
    requires Inv(s) && FenceValid(s, f) && f.gen < GEN_MOD
    ensures HeldFromNow(s, f)
      <==> HandedOut(s.page, f) || (f.gen > Num(s.page.slotGen, f.slot) && Shut(s, f.slot))
  {
    assert Num(s.page.slotGen, f.slot) < GEN_MOD;
    ReachesSelf(s);
    if HandedOut(s.page, f) {
      HandedOutHeld(s, f);
    } else if f.gen == Num(s.page.slotGen, f.slot) {
      HeldIff(s, f);
      assert !Held(s, f);
    } else if Shut(s, f.slot) {
      ShutHeld(s, f);
    } else {
      var t := FutureUnheld(s, f);
    }
  }

  // ------------------------------------------------------------------------
  // A submit that waits for a fence nobody was given
  // ------------------------------------------------------------------------

  /** Any course of requests that the server takes, imports of any fence included. */
  ghost predicate IsTrail(states: seq<State>, steps: seq<Step>) {
    |states| == |steps| + 1 && forall i: nat :: i < |steps| ==> TookAt(states, steps, i)
  }

  ghost predicate TookAt(states: seq<State>, steps: seq<Step>, i: nat)
    requires |states| == |steps| + 1 && i < |steps|
  {
    Took(states[i], steps[i], states[i + 1])
  }

  ghost predicate Took(s: State, step: Step, t: State) {
    Allowed(s, step) && t == Next(s, step)
  }

  /** A job of row `at` in its FIFO, on no queue, that depends on `f`. */
  predicate QueuedOn(w: Work, at: Cell, g: nat, f: Fence) {
    && g in w.jobs && g <= w.gseq && f in w.jobs[g].deps
    && CellOf(w.jobs[g].fence) == at && g in Fifo(w, at)
    && (forall q :: q in w.active ==> w.active[q] != g)
  }

  /** No job and no record of the row is beyond the last number given out. */
  predicate RowWithin(w: Work, p: Page, c: Cell) {
    && Num(p.completed, c) <= Num(p.nextSeq, c)
    && Num(p.deadFlush, c) <= Num(p.nextSeq, c)
    && (forall x :: x in w.jobs && CellOf(w.jobs[x].fence) == c ==> w.jobs[x].fence.seqno <= Num(p.nextSeq, c))
  }

  predicate WaitsFor(s: State, at: Cell, g: nat, f: Fence) {
    QueuedOn(s.w, at, g, f) && Unissued(s.page, f) && RowWithin(s.w, s.page, CellOf(f))
  }

  /** Such a job is not ready, so no scheduler run takes it. */
  lemma WaitsUnready(s: State, at: Cell, g: nat, f: Fence)
    requires WaitsFor(s, at, g, f)
    ensures !Signaled(s.page, f) && !Ready(s.w, s.page, g)
  {
    var i :| 0 <= i < |s.w.jobs[g].deps| && s.w.jobs[g].deps[i] == f;
  }

  lemma PopQueued(w: Work, p: Page, c: Cell, at: Cell, g: nat, f: Fence)
    requires QueuedOn(w, at, g, f) && HeadReady(w, p, c) && !Ready(w, p, g)
    ensures QueuedOn(PopTo(w, c), at, g, f)
  {
    var k :| 0 <= k < |Fifo(w, at)| && Fifo(w, at)[k] == g;
    if at == c { assert Fifo(PopTo(w, c), at)[k - 1] == g; }
  }

  lemma KickNextQueued(s: State, q: nat, at: Cell, g: nat, f: Fence)
    requires QueuedOn(s.w, at, g, f) && !Ready(s.w, s.page, g)
    ensures QueuedOn(KickNext(s, q).w, at, g, f) && !Ready(KickNext(s, q).w, s.page, g)
  {
    var i := FirstReady(s, q, FIRST);
    if q !in s.w.active && i < NSLOTS { PopQueued(s.w, s.page, Cell(RrSlot(s, q, i), q), at, g, f); }
  }

  lemma PipelineQueued(s: State, q: nat, at: Cell, g: nat, f: Fence)
    requires q <= NQUEUES && QueuedOn(s.w, at, g, f) && !Ready(s.w, s.page, g)
    ensures QueuedOn(RunPipeline(s, q).w, at, g, f)
    decreases NQUEUES - q
  {
    if q < NQUEUES {
      KickNextQueued(s, q, at, g, f);
      PipelineQueued(if IsHw(q) then KickNext(s, q) else s, q + 1, at, g, f);
    }
  }

  lemma DispatchQueued(s: State, at: Cell, g: nat, f: Fence)
    requires QueuedOn(s.w, at, g, f) && !Ready(s.w, s.page, g)
    ensures QueuedOn(Dispatch(s).w, at, g, f)
  {
    KickNextQueued(s, CPU, at, g, f);
    var s1 := KickNext(s, CPU);
    if s1.mode == Serial {
      if s1.hw.nbusy == 0 && exists c :: IsOldest(s1, c) {
        var c :| IsOldest(s1, c) && RunSerial(s1) == Kick(s1, c);
        PopQueued(s1.w, s1.page, c, at, g, f);
      }
    } else {
      PipelineQueued(s1, BIN, at, g, f);
    }
  }

  lemma DispatchWaits(s: State, at: Cell, g: nat, f: Fence)
    requires WaitsFor(s, at, g, f)
    ensures WaitsFor(Dispatch(s), at, g, f)
  {
    WaitsUnready(s, at, g, f);
    DispatchQueued(s, at, g, f);
    DispatchFrame(s);
  }

  lemma CompleteEachWaits(s: State, done: seq<nat>, at: Cell, g: nat, f: Fence)
    requires WaitsFor(s, at, g, f)
    ensures WaitsFor(CompleteEach(s, done), at, g, f)
    decreases |done|
  {
    if done != [] {
      var q := done[0];
      if q in s.w.active && s.w.active[q] in s.w.jobs {
        DoneWaits(s, s.w.active[q], at, g, f);
        CompleteEachWaits(JobDone(s, s.w.active[q], false), done[1..], at, g, f);
      } else {
        CompleteEachWaits(s, done[1..], at, g, f);
      }
    }
  }

  lemma DoneWaits(s: State, x: nat, at: Cell, g: nat, f: Fence)
    requires WaitsFor(s, at, g, f) && x in s.w.jobs && x != g
    ensures WaitsFor(JobDone(s, x, false), at, g, f)
  {
  }

  lemma EnqueueWaits(s: State, slot: nat, q: nat, deps: seq<Fence>, bos: seq<nat>, at: Cell, g: nat, f: Fence)
    requires WaitsFor(s, at, g, f) && Unissued(TakeSeq(s.page, Cell(slot, q)), f)
    ensures WaitsFor(Enqueue(s, slot, q, deps, bos), at, g, f)
  {
    var t := Enqueue(s, slot, q, deps, bos);
    assert Fifo(t.w, at) == Fifo(s.w, at) || Fifo(t.w, at) == Fifo(s.w, at) + [s.w.gseq + 1];
  }

  lemma QueueWaits(s: State, slot: nat, rq: Request, at: Cell, g: nat, f: Fence)
    requires WaitsFor(s, at, g, f) && Unissued(Submitted(s, slot, rq).page, f)
    ensures WaitsFor(Queue(s, slot, rq), at, g, f)
  {
    var deps := FirstDeps(s, slot, rq).deps;
    SubmittedPage(s, slot, rq);
    if HasPair(rq.op) {
      EnqueueWaits(s, slot, BIN, deps, [], at, g, f);
      var s1 := Enqueue(s, slot, BIN, deps, []);
      EnqueueWaits(s1, slot, RENDER, ExplicitDeps(s, slot, rq.ins, {true}), rq.bos, at, g, f);
    } else {
      EnqueueWaits(s, slot, OneQueue(rq.op), deps, rq.bos, at, g, f);
    }
  }

  lemma JoinWaits(s: State, slot: nat, bos: seq<nat>, x: Fence, at: Cell, g: nat, f: Fence)
    requires WaitsFor(s, at, g, f) && Unissued(Joined(s, slot, bos, x).page, f)
    ensures WaitsFor(Joined(s, slot, bos, x), at, g, f)
  {
    EnqueueWaits(s, slot, CPU, JoinDeps(s, bos, x).deps, [], at, g, f);
  }

  lemma GoneWaits(s: State, slot: nat, at: Cell, g: nat, f: Fence)
    requires WaitsFor(s, at, g, f) && slot != at.slot
    ensures WaitsFor(Gone(s, slot), at, g, f)
  {
  }

  lemma OpenWaits(s: State, slot: nat, at: Cell, g: nat, f: Fence)
    requires WaitsFor(s, at, g, f) && slot != f.slot
    ensures WaitsFor(Open(s, slot), at, g, f)
  {
    assert CellOf(f) !in RowCells(slot);
  }

  lemma RequestWaits(s: State, step: Step, at: Cell, g: nat, f: Fence)
    requires WaitsFor(s, at, g, f) && Unissued(Prepare(s, step).page, f)
    requires !step.OpenClient? && !step.CloseClient? && !step.Events?
    ensures WaitsFor(Prepare(s, step), at, g, f)
  {
    match step
    case Submit(slot, rq) => if SubmitCheck(s, slot, rq).Ok? { QueueWaits(s, slot, rq, at, g, f); }
    case SubmitNop(slot) => EnqueueWaits(s, slot, CPU, [], [], at, g, f);
    case AttachFence(slot, bos, x) => if !AttachRejected(s, bos, x) { JoinWaits(s, slot, bos, x, at, g, f); }
    case _ =>
  }

  lemma PrepareWaits(s: State, step: Step, at: Cell, g: nat, f: Fence)
    requires WaitsFor(s, at, g, f) && Unissued(Prepare(s, step).page, f)
    requires step != CloseClient(at.slot)
    ensures WaitsFor(Prepare(s, step), at, g, f)
  {
    if step.OpenClient? {
      OpenWaits(s, step.slot, at, g, f);
    } else if step.CloseClient? {
      GoneWaits(s, step.slot, at, g, f);
    } else if step.Events? {
      CompleteEachWaits(s, step.done, at, g, f);
    } else {
      RequestWaits(s, step, at, g, f);
    }
  }

  /** A step takes the job off its FIFO only if it gives the number out, reassigns the slot or closes the submitter. */
  lemma StepWaits(s: State, step: Step, t: State, at: Cell, g: nat, f: Fence)
    requires Took(s, step, t) && WaitsFor(s, at, g, f) && Unissued(t.page, f) && step != CloseClient(at.slot)
    ensures WaitsFor(t, at, g, f)
  {
    DispatchFrame(Prepare(s, step));
    PrepareWaits(s, step, at, g, f);
    DispatchWaits(Prepare(s, step), at, g, f);
  }

  /**
   As long as the number is not given out, its slot not reassigned and the submitter not
   gone, a job that waits for it stays in its FIFO, not ready, whatever else happens.
   */
  lemma {:induction false} QueuedWhileUnissued(
    states: seq<State>, steps: seq<Step>, i: nat, j: nat, at: Cell, g: nat, f: Fence)
    requires IsTrail(states, steps) && i <= j < |states| && WaitsFor(states[i], at, g, f)
    requires forall k :: i <= k <= j ==> Unissued(states[k].page, f)
    requires forall k :: i <= k < j ==> steps[k] != CloseClient(at.slot)
    ensures WaitsFor(states[j], at, g, f)
    decreases j - i
  {
    if i < j {
      assert TookAt(states, steps, i);
      StepWaits(states[i], steps[i], states[i + 1], at, g, f);
      QueuedWhileUnissued(states, steps, i + 1, j, at, g, f);
    }
  }

  /** A number of a slot that nobody uses is given out by no step; only opening the slot ends the wait. */
  lemma UnusedStaysUnissued(s: State, step: Step, t: State, f: Fence)
    requires Took(s, step, t) && f.slot !in s.used && Unissued(s.page, f) && step != OpenClient(f.slot)
    ensures f.slot !in t.used && Unissued(t.page, f)
  {
    UnusedSeq(s, step, CellOf(f));
    UsedGrows(s, step, f.slot);
  }

  /** Reassigning the slot makes such a fence read signalled: a job that waited for it alone is ready. */
  lemma ReadyAtReassignment(s: State, at: Cell, g: nat, f: Fence)
    requires WaitsFor(s, at, g, f)
    ensures var t := Open(s, f.slot);
      && Signaled(t.page, f)
      && (s.w.jobs[g].deps == [f] && at.queue != RENDER ==> Ready(t.w, t.page, g))
  {
    var n := Num(s.page.slotGen, f.slot);
    assert (n + 1) % GEN_MOD != n % GEN_MOD;
  }

  /** A TFU submit that names no buffer and waits for one syncobj. */
  function WaitRequest(k: nat): Request {
    Request(SubmitTfu, [InSem(k, false)], [], [])
  }

  lemma WaitDeps(s: State, slot: nat, k: nat, f: Fence)
    requires SyncKey(slot, k) in s.syncs && s.syncs[SyncKey(slot, k)] == Attached(f) && !Signaled(s.page, f)
    ensures SubmitCheck(s, slot, WaitRequest(k)) == Ok
    ensures FirstDeps(s, slot, WaitRequest(k)).deps == [f]
  {
    var ins := [InSem(k, false)];
    assert ins[..0] == [];
    assert ExplicitDeps(s, slot, ins[..0], {false, true}) == [];
    assert ExplicitDeps(s, slot, ins, {false, true}) == [f];
  }

  lemma FirstWaits(s: State, slot: nat, q: nat, deps: seq<Fence>, bos: seq<nat>, f: Fence)
    requires Numbered(s.w) && Unissued(s.page, f) && RowWithin(s.w, s.page, CellOf(f)) && slot != f.slot && f in deps
    ensures WaitsFor(Enqueue(s, slot, q, deps, bos), Cell(slot, q), s.w.gseq + 1, f)
  {
    var t := Enqueue(s, slot, q, deps, bos);
    assert Fifo(t.w, Cell(slot, q)) == Fifo(s.w, Cell(slot, q)) + [s.w.gseq + 1];
  }

  lemma PairWaits(s: State, slot: nat, deps: seq<Fence>, late: seq<Fence>, bos: seq<nat>, f: Fence)
    requires f in deps && slot != f.slot
    requires Numbered(s.w) && Unissued(s.page, f) && RowWithin(s.w, s.page, CellOf(f))
    ensures var s1 := Enqueue(s, slot, BIN, deps, []);
      var s2 := Enqueue(s1, slot, RENDER, late, bos);
      WaitsFor(s2.(w := LinkPair(s2.w, s1.w.gseq, s2.w.gseq)), Cell(slot, BIN), s.w.gseq + 1, f)
  {
    FirstWaits(s, slot, BIN, deps, [], f);
    var s1 := Enqueue(s, slot, BIN, deps, []);
    EnqueueWaits(s1, slot, RENDER, late, bos, Cell(slot, BIN), s.w.gseq + 1, f);
  }

  lemma QueueWaitsFirst(s: State, slot: nat, rq: Request, at: Cell, g: nat, f: Fence)
    requires f in FirstDeps(s, slot, rq).deps && slot != f.slot
    requires Numbered(s.w) && Unissued(s.page, f) && RowWithin(s.w, s.page, CellOf(f))
    requires at == Cell(slot, FirstQueue(rq.op)) && g == s.w.gseq + 1
    ensures WaitsFor(Queue(s, slot, rq), at, g, f)
  {
    var deps := FirstDeps(s, slot, rq).deps;
    if HasPair(rq.op) {
      PairWaits(s, slot, deps, ExplicitDeps(s, slot, rq.ins, {true}), rq.bos, f);
    } else {
      FirstWaits(s, slot, OneQueue(rq.op), deps, rq.bos, f);
    }
  }

  /** A submit whose first dependencies include such a fence leaves its first job waiting. */
  lemma SubmittedWaits(s: State, m: State, slot: nat, rq: Request, at: Cell, g: nat, f: Fence)
    requires f in FirstDeps(s, slot, rq).deps && slot != f.slot && m == Submitted(s, slot, rq)
    requires Numbered(s.w) && Unissued(s.page, f) && RowWithin(s.w, s.page, CellOf(f))
    requires at == Cell(slot, FirstQueue(rq.op)) && g == s.w.gseq + 1
    ensures WaitsFor(m, at, g, f)
  {
    QueueWaitsFirst(s, slot, rq, at, g, f);
  }

  lemma SubmitNext(s: State, step: Step, t: State, slot: nat, rq: Request) returns (m: State)
    requires Took(s, step, t) && step == Submit(slot, rq) && SubmitCheck(s, slot, rq) == Ok
    ensures m == Submitted(s, slot, rq) && t == Dispatch(m)
  {
    m := Submitted(s, slot, rq);
  }

  lemma SubmitWaits(s: State, step: Step, t: State, slot: nat, rq: Request, at: Cell, g: nat, f: Fence)
    requires SubmitCheck(s, slot, rq) == Ok && f in FirstDeps(s, slot, rq).deps && slot != f.slot
    requires Numbered(s.w) && Unissued(s.page, f) && RowWithin(s.w, s.page, CellOf(f))
    requires Took(s, step, t) && step == Submit(slot, rq) && at == Cell(slot, FirstQueue(rq.op)) && g == s.w.gseq + 1
    ensures WaitsFor(t, at, g, f)
  {
    var m := SubmitNext(s, step, t, slot, rq);
    SubmittedWaits(s, m, slot, rq, at, g, f);
    DispatchWaits(m, at, g, f);
  }

  lemma UnusedWithin(s: State, c: Cell)
    requires Inv(s) && c.slot !in s.used && c.queue < NQUEUES
    ensures RowWithin(s.w, s.page, c)
  {
    assert RowOk(s.w, s.page, s.used, c);
    forall x | x in s.w.jobs && CellOf(s.w.jobs[x].fence) == c ensures s.w.jobs[x].fence.seqno <= Num(s.page.nextSeq, c) {
      assert JobOk(s.w, s.page, s.used, x);
      assert OnQueue(s.w, x) ==> ActiveIn(s.w, c);
    }
  }

  lemma ImportedNext(s: State, t: State, k: SyncKey, f: Fence)
    requires k in s.syncs && FenceValid(s, f) && Took(s, SyncImport(k, f), t)
    ensures t.w == s.w && t.page == s.page && k.slot in s.used && k in t.syncs && t.syncs[k] == Attached(f)
  {
  }

  lemma ImportedWaits(states: seq<State>, steps: seq<Step>, i: nat, k: SyncKey, rq: Request, at: Cell, g: nat, f: Fence)
    requires IsTrail(states, steps) && 2 <= i < |states| && steps[0] == SyncImport(k, f) && steps[1] == Submit(k.slot, rq)
    requires k in states[0].syncs && FenceValid(states[0], f) && f.slot !in states[0].used
    requires Numbered(states[0].w) && RowWithin(states[0].w, states[0].page, CellOf(f))
    requires SubmitCheck(states[1], k.slot, rq) == Ok && f in FirstDeps(states[1], k.slot, rq).deps
    requires at == Cell(k.slot, FirstQueue(rq.op)) && g == states[0].w.gseq + 1
    requires forall j :: 0 <= j <= i ==> Unissued(states[j].page, f)
    requires forall j :: 2 <= j < i ==> steps[j] != CloseClient(k.slot)
    ensures k in states[1].syncs && states[1].syncs[k] == Attached(f)
    ensures WaitsFor(states[i], at, g, f)
  {
    assert TookAt(states, steps, 0) && TookAt(states, steps, 1);
    ImportedNext(states[0], states[1], k, f);
    SubmitWaits(states[1], steps[1], states[2], k.slot, rq, at, g, f);
    QueuedWhileUnissued(states, steps, 2, i, at, g, f);
  }

  /**
   Why it matters: in any state of any run, a client may import a number that the departed
   owner of a slot never got, and any submit may then wait for it. The import is accepted,
   and the submit's first job stays in its FIFO through every course of requests and events
   in which its own client stays and the other slot is not opened.
   */
  lemma UnissuedFenceWaits(states: seq<State>, steps: seq<Step>, i: nat, k: SyncKey, rq: Request, f: Fence)
    requires IsTrail(states, steps) && 2 <= i < |states| && Inv(states[0])
    requires k in states[0].syncs && FenceValid(states[0], f) && Unissued(states[0].page, f)
    requires steps[0] == SyncImport(k, f) && steps[1] == Submit(k.slot, rq)
    requires SubmitCheck(states[1], k.slot, rq) == Ok && f in FirstDeps(states[1], k.slot, rq).deps
    requires forall j :: 2 <= j < i ==> steps[j] != CloseClient(k.slot) && steps[j] != OpenClient(f.slot)
    ensures k in states[1].syncs && states[1].syncs[k] == Attached(f)
    ensures WaitsFor(states[i], Cell(k.slot, FirstQueue(rq.op)), states[0].w.gseq + 1, f)
    ensures !Ready(states[i].w, states[i].page, states[0].w.gseq + 1)
  {
    InvNumbered(states[0]);
    UnusedWithin(states[0], CellOf(f));
    UnusedTrail(states, steps, i, f);
    var at, g := Cell(k.slot, FirstQueue(rq.op)), states[0].w.gseq + 1;
    ImportedWaits(states, steps, i, k, rq, at, g, f);
    WaitsUnready(states[i], at, g, f);
  }

  lemma {:induction false} UnusedTrail(states: seq<State>, steps: seq<Step>, i: nat, f: Fence)
    requires IsTrail(states, steps) && i < |states| && f.slot !in states[0].used && Unissued(states[0].page, f)
    requires forall j :: 0 <= j < i ==> steps[j] != OpenClient(f.slot)
    ensures forall j :: 0 <= j <= i ==> f.slot !in states[j].used && Unissued(states[j].page, f)
  {
    if i > 0 {
      UnusedTrail(states, steps, i - 1, f);
      assert TookAt(states, steps, i - 1);
      UnusedStaysUnissued(states[i - 1], steps[i - 1], states[i], f);
    }
  }

  // ------------------------------------------------------------------------
  // Concrete cases
  // ------------------------------------------------------------------------

  lemma NothingReadyNothingKicked(s: State)
    requires forall c: Cell :: !HeadReady(s.w, s.page, c)
    ensures Dispatch(s) == s
  {
    PipelineIdle(s, BIN);
  }

  lemma PipelineIdle(s: State, q: nat)
    requires q <= NQUEUES && forall c: Cell :: !HeadReady(s.w, s.page, c)
    ensures RunPipeline(s, q) == s
    decreases NQUEUES - q
  {
    if q < NQUEUES { PipelineIdle(s, q + 1); }
  }

  predicate NoWork(s: State) {
    s.w.jobs == map[] && s.w.fifo == map[] && s.w.active == map[]
  }

  lemma ClosedIdle(s: State, step: Step, t: State, slot: nat)
    requires NoWork(s) && Took(s, step, t) && step == CloseClient(slot)
    ensures t.w == s.w && t.used == s.used - {slot} && t.syncs == s.syncs
    ensures t.page.slotGen == s.page.slotGen && t.page.nextSeq == s.page.nextSeq
  {
    assert Discard(s.w, slot) == s.w;
    NothingReadyNothingKicked(Gone(s, slot));
  }

  lemma OpenedIdle(s: State, step: Step, t: State, slot: nat, q: nat)
    requires Took(s, step, t) && step == OpenClient(slot) && q < NQUEUES
    ensures t.w == s.w && t.used == s.used + {slot}
    ensures t.page.slotGen == s.page.slotGen[slot := Num(s.page.slotGen, slot) + 1]
    ensures Num(t.page.completed, Cell(slot, q)) == 0
    ensures Num(t.page.nextSeq, Cell(slot, q)) == Num(t.page.deadFlush, Cell(slot, q)) == 0
    ensures forall u: nat, p: nat :: u != slot ==> Num(t.page.nextSeq, Cell(u, p)) == Num(s.page.nextSeq, Cell(u, p))
    ensures forall k :: k in s.syncs && k.slot != slot ==> k in t.syncs && t.syncs[k] == s.syncs[k]
  {
    assert Cell(slot, q) in RowCells(slot);
  }

  lemma IdleAllowed(s: State, slot: nat)
    requires NoWork(s) && slot < NSLOTS && slot !in s.used && forall u: nat :: u < slot ==> u in s.used
    ensures Allowed(s, OpenClient(slot))
  {
  }

  lemma ExtendRun(states: seq<State>, steps: seq<Step>, step: Step, t: State)
    requires IsRun(states, steps) && Took(states[|steps|], step, t) && Tame(states[|steps|], step)
    ensures IsRun(states + [t], steps + [step])
  {
    RunWent(states, steps);
    ExtendPath(states, steps, step, t);
    WentIsRun(states + [t], steps + [step]);
  }

  lemma ExtendPath(states: seq<State>, steps: seq<Step>, step: Step, t: State)
    requires IsPath(states, steps) && Took(states[|steps|], step, t) && Tame(states[|steps|], step)
    ensures IsPath(states + [t], steps + [step]) && (states + [t])[0] == states[0]
  {
    var states', steps', n := states + [t], steps + [step], |steps|;
    LastWent(states', steps', n, states[n], step, t);
    forall i: nat | i < |steps'| ensures WentAt(states', steps', i) {
      if i < n { SameWent(states, steps, states', steps', i); }
    }
  }

  lemma LastWent(states: seq<State>, steps: seq<Step>, i: nat, s: State, step: Step, t: State)
    requires |states| == |steps| + 1 && i < |steps| && Took(s, step, t) && Tame(s, step)
    requires states[i] == s && steps[i] == step && states[i + 1] == t
    ensures WentAt(states, steps, i)
  {
  }

  lemma RunWent(states: seq<State>, steps: seq<Step>)
    requires IsRun(states, steps)
    ensures IsPath(states, steps)
  {
  }

  lemma WentIsRun(states: seq<State>, steps: seq<Step>)
    requires IsPath(states, steps) && exists m :: states[0] == Init(m)
    ensures IsRun(states, steps)
  {
    forall i | 0 <= i < |steps| ensures Enabled(states[i], steps[i]) && states[i + 1] == Next(states[i], steps[i]) {
      assert WentAt(states, steps, i);
    }
  }

  /** Two clients that have submitted nothing, the second with an empty syncobj. */
  ghost predicate TwoIdle(s: State) {
    && NoWork(s) && s.used == {0, 1} && SyncKey(1, 1) in s.syncs
    && Num(s.page.slotGen, 0) == 1 && Num(s.page.nextSeq, Cell(0, TFU)) == 0
  }

  lemma OneClient() returns (states: seq<State>, steps: seq<Step>)
    ensures IsRun(states, steps) && NoWork(states[|steps|]) && states[|steps|].used == {0}
    ensures Num(states[|steps|].page.slotGen, 0) == 1 && Num(states[|steps|].page.nextSeq, Cell(0, TFU)) == 0
    ensures Num(states[|steps|].page.slotGen, 1) == 0
  {
    var s0 := Init(Serial);
    states, steps := [s0], [];
    assert IsRun(states, steps);
    IdleAllowed(s0, 0);
    var s1 := Next(s0, OpenClient(0));
    OpenedIdle(s0, OpenClient(0), s1, 0, TFU);
    ExtendRun(states, steps, OpenClient(0), s1);
    states, steps := states + [s1], steps + [OpenClient(0)];
  }

  lemma TwoClients() returns (states: seq<State>, steps: seq<Step>)
    ensures IsRun(states, steps) && TwoIdle(states[|steps|])
  {
    states, steps := OneClient();
    var s1 := states[|steps|];
    IdleAllowed(s1, 1);
    var s2 := Next(s1, OpenClient(1));
    OpenedIdle(s1, OpenClient(1), s2, 1, TFU);
    ExtendRun(states, steps, OpenClient(1), s2);
    states, steps := states + [s2], steps + [OpenClient(1)];
    var step := SyncSet(SyncKey(1, 1), false);
    ExtendRun(states, steps, step, Next(s2, step));
    states, steps := states + [Next(s2, step)], steps + [step];
  }

  lemma WaitAfter(s: State, k: SyncKey, f: Fence)
    requires !Signaled(s.page, f)
    ensures f in FirstDeps(s.(syncs := s.syncs[k := Attached(f)]), k.slot, WaitRequest(k.handle)).deps
  {
    WaitDeps(s.(syncs := s.syncs[k := Attached(f)]), k.slot, k.handle, f);
  }

  lemma UnissuedAfterClose(s: State, t: State, f: Fence)
    requires TwoIdle(s) && Took(s, CloseClient(0), t) && f == Fence(0, TFU, 1, 1)
    ensures 1 in t.used && SyncKey(1, 1) in t.syncs && FenceValid(t, f) && Unissued(t.page, f)
  {
    ClosedIdle(s, CloseClient(0), t, 0);
    UnissuedNow(t.page, f);
  }

  /** Two clients open and the first closes: the second may import seqno 1 of the first, and wait for it. */
  lemma UnissuedFenceReachable() returns (states: seq<State>, steps: seq<Step>, s: State, k: SyncKey, f: Fence)
    ensures IsRun(states, steps) && s == states[|steps|]
    ensures k.slot in s.used && k in s.syncs && FenceValid(s, f) && Unissued(s.page, f)
    ensures f in FirstDeps(s.(syncs := s.syncs[k := Attached(f)]), k.slot, WaitRequest(k.handle)).deps
  {
    states, steps := TwoClients();
    k, f := SyncKey(1, 1), Fence(0, TFU, 1, 1);
    var r := states[|steps|];
    s := Next(r, CloseClient(0));
    assert Took(r, CloseClient(0), s) && Tame(r, CloseClient(0));
    ExtendRun(states, steps, CloseClient(0), s);
    UnissuedAfterClose(r, s, f);
    states, steps := states + [s], steps + [CloseClient(0)];
    RunInv(states, steps, |steps|);
    assert !Signaled(s.page, f) by { HeldIff(s, f); }
    WaitAfter(s, k, f);
  }

  /**
   The second case: a fence of the first client's next generation is accepted while it
   reads signalled. Once the first slot has a new owner the fence is pending, nobody has
   been given it, and a submit that waits for it is queued.
   */
  lemma FutureFenceReachable()
    returns (states: seq<State>, steps: seq<Step>, s: State, s1: State, s2: State, s3: State, s4: State, f: Fence)
    ensures IsRun(states, steps) && s == states[|steps|]
    ensures FenceValid(s, f) && Signaled(s.page, f) && !HandedOut(s.page, f)
    ensures Took(s, SyncImport(SyncKey(1, 1), f), s1) && Took(s1, CloseClient(f.slot), s2)
    ensures Took(s2, OpenClient(f.slot), s3) && Took(s3, Submit(1, WaitRequest(1)), s4)
    ensures WaitsFor(s4, Cell(1, TFU), s3.w.gseq + 1, f)
  {
    states, steps := TwoClients();
    s, f := states[|steps|], Fence(0, TFU, 2, 1);
    s1 := FutureImported(s, f);
    s2 := Next(s1, CloseClient(0));
    s3 := FutureOpened(s1, s2, f);
    s4 := FutureWaits(s3, f);
  }

  lemma FutureImported(s: State, f: Fence) returns (t: State)
    requires TwoIdle(s) && f == Fence(0, TFU, 2, 1)
    ensures FenceValid(s, f) && Signaled(s.page, f) && !HandedOut(s.page, f)
    ensures Took(s, SyncImport(SyncKey(1, 1), f), t) && TwoIdle(t) && t.syncs[SyncKey(1, 1)] == Attached(f)
  {
    t := Next(s, SyncImport(SyncKey(1, 1), f));
    ImportedNext(s, t, SyncKey(1, 1), f);
  }

  lemma FutureOpened(s: State, t: State, f: Fence) returns (u: State)
    requires TwoIdle(s) && f == Fence(0, TFU, 2, 1) && s.syncs[SyncKey(1, 1)] == Attached(f) && t == Next(s, CloseClient(0))
    ensures Took(s, CloseClient(0), t) && Took(t, OpenClient(0), u)
    ensures NoWork(u) && 1 in u.used && SyncKey(1, 1) in u.syncs && u.syncs[SyncKey(1, 1)] == Attached(f)
    ensures Unissued(u.page, f) && RowWithin(u.w, u.page, CellOf(f))
  {
    ClosedIdle(s, CloseClient(0), t, 0);
    IdleAllowed(t, 0);
    u := Next(t, OpenClient(0));
    OpenedIdle(t, OpenClient(0), u, 0, TFU);
    UnissuedNow(u.page, f);
  }

  lemma FutureWaits(s: State, f: Fence) returns (t: State)
    requires NoWork(s) && 1 in s.used && SyncKey(1, 1) in s.syncs && s.syncs[SyncKey(1, 1)] == Attached(f)
    requires Unissued(s.page, f) && RowWithin(s.w, s.page, CellOf(f)) && f.slot != 1
    ensures Took(s, Submit(1, WaitRequest(1)), t) && WaitsFor(t, Cell(1, TFU), s.w.gseq + 1, f)
  {
    WaitDeps(s, 1, 1, f);
    t := Next(s, Submit(1, WaitRequest(1)));
    SubmitWaits(s, Submit(1, WaitRequest(1)), t, 1, WaitRequest(1), Cell(1, TFU), s.w.gseq + 1, f);
  }
}
