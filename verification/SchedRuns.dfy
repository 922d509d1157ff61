/**
 Whole runs of the scheduler without a GPU reset: requests of any clients, clients
 opening and closing, mode switches and completions, in any order.
 */
module SchedRuns {
  import opened SchedState
  import opened SchedInv
  import opened SchedSteps

  /** One critical section of the server. */
  datatype Step =
    | OpenClient(slot: nat)
    | CloseClient(slot: nat)
    | Submit(slot: nat, rq: Request)
    | SubmitNoMem(lost: nat)
    | SubmitNop(slot: nat)
    | AttachFence(slot: nat, bos: seq<nat>, fence: Fence)
    | SyncImport(key: SyncKey, fence: Fence)
    | SyncSet(key: SyncKey, signal: bool)
    | SyncDestroy(key: SyncKey)
    | SetMode(mode: Mode)
    | Events(done: seq<nat>)
    | BoCreate(bo: nat)
    | BoGone(bo: nat)

  predicate AttachRejected(s: State, bos: seq<nat>, f: Fence) {
    || (f.seqno != 0 && !FenceValid(s, f))
    || bos == []
    || f.seqno == 0
    || Signaled(s.page, f)
    || JoinDeps(s, bos, f).dropped > 0
  }

  /** v3da_syncobj_import: an already signalled snapshot, a fence that passes the check, or a refusal. */
  function Imported(s: State, k: SyncKey, f: Fence): State {
    if k !in s.syncs then s
    else if f.seqno == 0 then s.(syncs := s.syncs[k := Done])
    else if FenceValid(s, f) then s.(syncs := s.syncs[k := Attached(f)])
    else s
  }

  /** A step up to the scheduler run it ends with, if it has one. */
  function Prepare(s: State, step: Step): State {
    match step
    case OpenClient(slot) => Open(s, slot)
    case CloseClient(slot) => Gone(s, slot)
    case Submit(slot, rq) => if SubmitCheck(s, slot, rq).Ok? then Submitted(s, slot, rq) else s
    case SubmitNoMem(lost) => s.(w := s.w.(gseq := s.w.gseq + lost))
    case SubmitNop(slot) => Enqueue(s, slot, CPU, [], [])
    case AttachFence(slot, bos, f) => if AttachRejected(s, bos, f) then s else Joined(s, slot, bos, f)
    case SyncImport(k, f) => Imported(s, k, f)
    case SyncSet(k, signal) => s.(syncs := s.syncs[k := if signal then Done else Unset])
    case SyncDestroy(k) => s.(syncs := s.syncs - {k})
    case SetMode(mode) => s.(mode := mode)
    case Events(done) => CompleteEach(s, done)
    case BoCreate(h) => s.(last := s.last[h := map[]])
    case BoGone(h) => s.(last := s.last - {h})
  }

  predicate Schedules(s: State, step: Step) {
    match step
    case Submit(slot, rq) => SubmitCheck(s, slot, rq).Ok?
    case AttachFence(slot, bos, f) => !AttachRejected(s, bos, f)
    case CloseClient(_) => true
    case SubmitNop(_) => true
    case SetMode(_) => true
    case Events(_) => true
    case _ => false
  }

  /** client_close ends with the slot no longer used; the scheduler ran while it still was. */
  function Leave(s: State, step: Step): State {
    if step.CloseClient? then s.(used := s.used - {step.slot}) else s
  }

  ghost function Next(s: State, step: Step): State {
    var t := Prepare(s, step);
    Leave(if Schedules(s, step) then Dispatch(t) else t, step)
  }

  /** When the server takes a step. */
  ghost predicate Allowed(s: State, step: Step) {
    match step
    case OpenClient(slot) => Free(s, slot) && forall u: nat :: u < slot ==> !Free(s, u)
    case CloseClient(slot) => slot in s.used
    case Submit(slot, rq) => slot in s.used
    case SubmitNoMem(lost) => lost <= 2
    case SubmitNop(slot) => slot in s.used
    case AttachFence(slot, bos, f) => slot in s.used && forall i :: 0 <= i < |bos| ==> bos[i] in s.last
    case SyncImport(k, f) => k.slot in s.used
    case SyncSet(k, _) => k.slot in s.used
    case SyncDestroy(k) => k in s.syncs
    case SetMode(_) => true
    case Events(_) => true
    case BoCreate(h) => h !in s.last
    case BoGone(h) => h in s.last
  }

  /**
   What the runs narrow: an imported or attached fence is one the server handed out, and
   no slot is opened so often that its 32-bit fence generation wraps.
   */
  predicate Tame(s: State, step: Step) {
    match step
    case OpenClient(slot) => Num(s.page.slotGen, slot) + 1 < GEN_MOD
    case AttachFence(_, _, f) => FenceValid(s, f) ==> HandedOut(s.page, f)
    case SyncImport(_, f) => FenceValid(s, f) ==> HandedOut(s.page, f)
    case _ => true
  }

  ghost predicate Enabled(s: State, step: Step) {
    Allowed(s, step) && Tame(s, step)
  }

  ghost predicate CpuSettled(w: Work, p: Page) {
    forall u: nat :: u < NSLOTS && HeadReady(w, p, Cell(u, CPU)) ==> CPU in w.active
  }

  /** Nothing that could run now is left waiting by the scheduler. */
  ghost predicate Settled(s: State) {
    && CpuSettled(s.w, s.page)
    && (s.mode == Serial && s.hw.nbusy == 0 ==> forall c :: !HwHeadReady(s.w, s.page, c))
    && (s.mode == Pipeline ==> forall c :: HwHeadReady(s.w, s.page, c) ==> c.queue in s.w.active)
  }

  ghost predicate IsRun(states: seq<State>, steps: seq<Step>) {
    && |states| == |steps| + 1
    && (exists m :: states[0] == Init(m))
    && (forall i :: 0 <= i < |steps| ==> Enabled(states[i], steps[i]) && states[i + 1] == Next(states[i], steps[i]))
  }

  // ------------------------------------------------------------------------
  // The dependencies of a submit
  // ------------------------------------------------------------------------

  lemma SetAddFits(s: State, d: DepSet, f: Fence)
    requires DepsFit(s, d.deps) && DepOk(s.w, s.page, s.used, s.w.gseq + 1, f)
    ensures DepsFit(s, SetAdd(d, f).deps)
  {
    var k := FindLine(d.deps, f, FIRST);
    if k < |d.deps| && f.seqno > d.deps[k].seqno {
      assert d.deps[k].(seqno := f.seqno) == f;
    }
  }

  lemma KnownFits(s: State, f: Fence)
    requires Inv(s) && HandedOut(s.page, f)
    ensures DepOk(s.w, s.page, s.used, s.w.gseq + 1, f)
  {
    if !Signaled(s.page, f) {
      PendingIsCarried(s.w, s.page, s.used, f);
    }
  }

  lemma BoDepsFit(s: State, skip: set<nat>, h: nat, q: nat, d: DepSet)
    requires Inv(s) && q <= NQUEUES && DepsFit(s, d.deps)
    ensures DepsFit(s, BoDeps(s, skip, h, q, d).deps)
    decreases NQUEUES - q
  {
    if q < NQUEUES {
      if PendingUse(s, skip, h, q) {
        KnownFits(s, s.last[h][q]);
        SetAddFits(s, d, s.last[h][q]);
      }
      BoDepsFit(s, skip, h, q + 1, if PendingUse(s, skip, h, q) then SetAdd(d, s.last[h][q]) else d);
    }
  }

  lemma ImplicitDepsFit(s: State, skip: set<nat>, bos: seq<nat>, d: DepSet)
    requires Inv(s) && DepsFit(s, d.deps)
    ensures DepsFit(s, ImplicitDeps(s, skip, bos, d).deps)
    decreases |bos|
  {
    if bos != [] {
      BoDepsFit(s, skip, bos[0], BIN, d);
      ImplicitDepsFit(s, skip, bos[1..], BoDeps(s, skip, bos[0], BIN, d));
    }
  }

  lemma ExplicitFit(s: State, slot: nat, ins: seq<InSem>, flags: set<bool>)
    requires Inv(s)
    ensures DepsFit(s, ExplicitDeps(s, slot, ins, flags))
  {
    var deps := ExplicitDeps(s, slot, ins, flags);
    forall i | 0 <= i < |deps| ensures DepOk(s.w, s.page, s.used, s.w.gseq + 1, deps[i]) {
      KnownFits(s, deps[i]);
    }
  }

  lemma QueueKeeps(s: State, slot: nat, rq: Request)
    requires Inv(s) && slot in s.used
    ensures Inv(Queue(s, slot, rq))
  {
    var flags := if HasPair(rq.op) then {false} else {false, true};
    ExplicitFit(s, slot, rq.ins, flags);
    ImplicitDepsFit(s, {slot}, rq.bos, DepSet(ExplicitDeps(s, slot, rq.ins, flags), 0));
    var deps := FirstDeps(s, slot, rq).deps;
    if HasPair(rq.op) {
      var late := ExplicitDeps(s, slot, rq.ins, {true});
      ExplicitFit(s, slot, rq.ins, {true});
      EnqueueKeeps(s, slot, BIN, deps, []);
      DepsFitLater(s, slot, BIN, deps, [], late);
      var s1 := Enqueue(s, slot, BIN, deps, []);
      EnqueueKeeps(s1, slot, RENDER, late, rq.bos);
      LinkKeeps(Enqueue(s1, slot, RENDER, late, rq.bos), s1.w.gseq, s1.w.gseq + 1);
    } else {
      EnqueueKeeps(s, slot, OneQueue(rq.op), deps, rq.bos);
    }
  }

  lemma SubmittedKeeps(s: State, slot: nat, rq: Request)
    requires Inv(s) && slot in s.used
    ensures Inv(Submitted(s, slot, rq))
  {
    QueueKeeps(s, slot, rq);
    assert HandedOut(Queue(s, slot, rq).page, NewFence(s.page, slot, OneQueue(rq.op)));
  }

  lemma JoinedKeeps(s: State, slot: nat, bos: seq<nat>, f: Fence)
    requires Inv(s) && slot in s.used && HandedOut(s.page, f)
    ensures Inv(Joined(s, slot, bos, f))
  {
    KnownFits(s, f);
    SetAddFits(s, DepSet([], 0), f);
    ImplicitDepsFit(s, {}, bos, SetAdd(DepSet([], 0), f));
    EnqueueKeeps(s, slot, CPU, JoinDeps(s, bos, f).deps, []);
    assert HandedOut(Enqueue(s, slot, CPU, [], []).page, NewFence(s.page, slot, CPU));
  }

  lemma LostNumbersKeep(s: State, lost: nat)
    requires Inv(s)
    ensures Inv(s.(w := s.w.(gseq := s.w.gseq + lost)))
  {
    var t := s.w.(gseq := s.w.gseq + lost);
    forall d: Cell ensures RowOk(t, s.page, s.used, d) {
      assert RowOk(s.w, s.page, s.used, d);
      assert Fifo(t, d) == Fifo(s.w, d) && ActiveIn(t, d) == ActiveIn(s.w, d);
    }
    forall g | g in t.jobs ensures JobOk(t, s.page, s.used, g) {
      assert JobOk(s.w, s.page, s.used, g);
      forall i | 0 <= i < |t.jobs[g].deps| ensures DepOk(t, s.page, s.used, g, t.jobs[g].deps[i]) {
        var f := t.jobs[g].deps[i];
        assert DepOk(s.w, s.page, s.used, g, f);
        if !Signaled(s.page, f) {
          var d: nat :| d < g && Carries(s.w, s.page, s.used, d, f);
          assert Carries(t, s.page, s.used, d, f);
        }
      }
    }
    forall q: nat ensures QueueOk(t, q) { assert QueueOk(s.w, q); }
  }

  /** The clients that count once the step is over. */
  function UsedAfter(s: State, step: Step): set<nat> {
    Leave(Prepare(s, step), step).used
  }

  lemma PrepareKeeps(s: State, step: Step)
    requires Inv(s) && Enabled(s, step)
    ensures InvFor(Prepare(s, step), UsedAfter(s, step))
  {
    match step
    case OpenClient(slot) => OpenKeeps(s, slot);
    case CloseClient(slot) => GoneKeeps(s, slot);
    case Submit(slot, rq) => SubmittedKeeps(s, slot, rq);
    case SubmitNoMem(lost) => LostNumbersKeep(s, lost);
    case SubmitNop(slot) => EnqueueKeeps(s, slot, CPU, [], []);
    case AttachFence(slot, bos, f) => if !AttachRejected(s, bos, f) { JoinedKeeps(s, slot, bos, f); }
    case Events(done) => CompleteEachKeeps(s, done);
    case _ =>
  }

  /** Every step of a run keeps the invariant. */
  lemma StepKeeps(s: State, step: Step)
    requires Inv(s) && Enabled(s, step)
    ensures Inv(Next(s, step))
  {
    PrepareKeeps(s, step);
    if Schedules(s, step) {
      DispatchKeeps(Prepare(s, step), UsedAfter(s, step));
      DispatchFrame(Prepare(s, step));
    }
  }

  // ------------------------------------------------------------------------
  // What a scheduler run leaves behind
  // ------------------------------------------------------------------------

  /** `t` differs from `s` only by jobs moved from FIFOs to queues. */
  predicate Moved(s: State, t: State) {
    && t.page == s.page && t.mode == s.mode && t.used == s.used && t.syncs == s.syncs && t.last == s.last
    && t.w.jobs == s.w.jobs && t.w.gseq == s.w.gseq
  }

  lemma PipelineFrame(s: State, q: nat)
    requires q <= NQUEUES
    ensures Moved(s, RunPipeline(s, q))
    decreases NQUEUES - q
  {
    if q < NQUEUES {
      PipelineFrame(if IsHw(q) then KickNext(s, q) else s, q + 1);
    }
  }

  /** The scheduler changes no job, no fence and no record. */
  lemma DispatchFrame(s: State)
    ensures Moved(s, Dispatch(s))
  {
    var s1 := KickNext(s, CPU);
    assert Moved(s, s1);
    if s1.mode == Serial {
      assert Moved(s1, RunSerial(s1));
    } else {
      PipelineFrame(s1, BIN);
    }
  }

  lemma CyclicOffset(r: nat, u: nat) returns (i: nat)
    requires u < NSLOTS
    ensures i < NSLOTS && (r + i) % NSLOTS == u
  {
    var m := r % NSLOTS;
    i := if u >= m then u - m else u + NSLOTS - m;
    assert r + i == (r / NSLOTS) * NSLOTS + u || r + i == (r / NSLOTS + 1) * NSLOTS + u;
  }

  /** The scan from the cursor visits every slot. */
  lemma ScanCoversAll(s: State, q: nat, u: nat)
    requires u < NSLOTS && FirstReady(s, q, FIRST) == NSLOTS
    ensures !HeadReady(s.w, s.page, Cell(u, q))
  {
    var i := CyclicOffset(Num(s.rr, q), u);
    assert RrSlot(s, q, i) == u;
  }

  /** Afterwards the queue is busy or has no ready head; other queues are as before. */
  lemma KickNextSettles(s: State, q: nat)
    ensures forall u: nat :: u < NSLOTS && HeadReady(KickNext(s, q).w, s.page, Cell(u, q)) ==> q in KickNext(s, q).w.active
    ensures forall c: Cell :: c.queue != q ==> HeadReady(KickNext(s, q).w, s.page, c) == HeadReady(s.w, s.page, c)
    ensures forall p :: p in s.w.active ==> p in KickNext(s, q).w.active
    ensures KickNext(s, q).page == s.page
  {
    KickNextBusy(s, q);
    KickNextOthers(s, q);
  }

  lemma KickNextBusy(s: State, q: nat)
    ensures forall u: nat :: u < NSLOTS && HeadReady(KickNext(s, q).w, s.page, Cell(u, q)) ==> q in KickNext(s, q).w.active
  {
    if q !in s.w.active && FirstReady(s, q, FIRST) == NSLOTS {
      forall u: nat | u < NSLOTS ensures !HeadReady(s.w, s.page, Cell(u, q)) { ScanCoversAll(s, q, u); }
    }
  }

  lemma KickNextOthers(s: State, q: nat)
    ensures forall c: Cell :: c.queue != q ==> HeadReady(KickNext(s, q).w, s.page, c) == HeadReady(s.w, s.page, c)
    ensures forall p :: p in s.w.active ==> p in KickNext(s, q).w.active
    ensures KickNext(s, q).page == s.page
  {
  }

  /** Hardware queues below `q` are settled. */
  ghost predicate SettledBelow(s: State, q: nat) {
    forall c :: HwHeadReady(s.w, s.page, c) && c.queue < q ==> c.queue in s.w.active
  }

  lemma PipelineSettles(s: State, q: nat)
    requires q <= NQUEUES && SettledBelow(s, q)
    ensures SettledBelow(RunPipeline(s, q), NQUEUES)
    ensures CpuSettled(s.w, s.page) ==> CpuSettled(RunPipeline(s, q).w, s.page)
    decreases NQUEUES - q
  {
    if q < NQUEUES {
      KickNextSettles(s, q);
      PipelineSettles(if IsHw(q) then KickNext(s, q) else s, q + 1);
    }
  }

  lemma OldestExists(s: State, c: Cell)
    requires HwHeadReady(s.w, s.page, c)
    ensures exists d :: IsOldest(s, d)
    decreases Fifo(s.w, c)[0]
  {
    if !IsOldest(s, c) {
      var d :| HwHeadReady(s.w, s.page, d) && Fifo(s.w, d)[0] < Fifo(s.w, c)[0];
      OldestExists(s, d);
    }
  }

  lemma SerialSettles(s: State)
    requires s.hw.nbusy >= 0
    ensures RunSerial(s).hw.nbusy == 0 ==> forall c :: !HwHeadReady(RunSerial(s).w, s.page, c)
    ensures CpuSettled(s.w, s.page) ==> CpuSettled(RunSerial(s).w, s.page)
  {
    if s.hw.nbusy == 0 {
      if exists c :: IsOldest(s, c) {
        var c :| IsOldest(s, c) && RunSerial(s) == Kick(s, c);
      } else {
        forall c ensures !HwHeadReady(s.w, s.page, c) { if HwHeadReady(s.w, s.page, c) { OldestExists(s, c); } }
      }
    }
  }

  /** One run of the scheduler leaves nothing that could still be started. */
  lemma DispatchSettles(s: State)
    requires s.hw.nbusy >= 0
    ensures Settled(Dispatch(s))
  {
    var s1 := KickNext(s, CPU);
    assert CpuSettled(s1.w, s1.page) by { KickNextSettles(s, CPU); }
    DispatchFrame(s);
    if s1.mode == Serial {
      SerialSettles(s1);
    } else {
      PipelineSettles(s1, BIN);
      assert SettledBelow(RunPipeline(s1, BIN), NQUEUES);
    }
  }

  /** Opening a slot changes no job's readiness: what waited on the slot was signalled before. */
  lemma OpenReady(w: Work, p: Page, used: set<nat>, slot: nat, g: nat)
    requires g in w.jobs && JobOk(w, p, used, g) && Num(p.slotGen, slot) + 1 < GEN_MOD
    requires forall x :: x in w.jobs ==> w.jobs[x].fence.slot != slot
    ensures Ready(w, Assign(p, slot), g) == Ready(w, p, g)
  {
    var p' := Assign(p, slot);
    forall i | 0 <= i < |w.jobs[g].deps| ensures Signaled(p', w.jobs[g].deps[i]) == Signaled(p, w.jobs[g].deps[i]) {
      assert DepOk(w, p, used, g, w.jobs[g].deps[i]);
      OpenDep(w, p, used, slot, g, w.jobs[g].deps[i]);
    }
  }

  lemma OpenDep(w: Work, p: Page, used: set<nat>, slot: nat, g: nat, f: Fence)
    requires DepOk(w, p, used, g, f) && Num(p.slotGen, slot) + 1 < GEN_MOD
    requires forall x :: x in w.jobs ==> w.jobs[x].fence.slot != slot
    ensures Signaled(Assign(p, slot), f) == Signaled(p, f)
  {
  }

  lemma OpenSettled(s: State, slot: nat)
    requires Inv(s) && Settled(s) && Free(s, slot) && Num(s.page.slotGen, slot) + 1 < GEN_MOD
    ensures Settled(Open(s, slot))
  {
    var p := Assign(s.page, slot);
    FreeRow(s, slot);
    forall c: Cell ensures HeadReady(s.w, p, c) == HeadReady(s.w, s.page, c) {
      if Fifo(s.w, c) != [] {
        var g := Fifo(s.w, c)[0];
        assert RowOk(s.w, s.page, s.used, c);
        assert InRow(s.w, c, g);
        assert JobOk(s.w, s.page, s.used, g);
        OpenReady(s.w, s.page, s.used, slot, g);
      }
    }
    SameHeads(s, Open(s, slot));
  }

  lemma SameHeads(s: State, t: State)
    requires Settled(s) && t.hw == s.hw && t.mode == s.mode && t.w.active == s.w.active
    requires forall c: Cell :: HeadReady(t.w, t.page, c) == HeadReady(s.w, s.page, c)
    ensures Settled(t)
  {
    forall c: Cell ensures HwHeadReady(t.w, t.page, c) == HwHeadReady(s.w, s.page, c) {
      assert HeadReady(t.w, t.page, c) == HeadReady(s.w, s.page, c);
    }
  }

  lemma StepSettles(s: State, step: Step)
    requires Inv(s) && Settled(s) && Enabled(s, step)
    ensures Settled(Next(s, step))
  {
    if Schedules(s, step) {
      PrepareKeeps(s, step);
      DispatchSettles(Prepare(s, step));
    } else if step.OpenClient? {
      OpenSettled(s, step.slot);
    } else {
      SameHeadsSettled(s, Prepare(s, step));
    }
  }

  lemma SameHeadsSettled(s: State, t: State)
    requires Settled(s) && t.page == s.page && t.hw == s.hw && t.mode == s.mode
    requires t.w == s.w.(gseq := t.w.gseq)
    ensures Settled(t)
  {
    forall c: Cell ensures HeadReady(t.w, t.page, c) == HeadReady(s.w, s.page, c) {}
    SameHeads(s, t);
  }

  /** Every state of every run satisfies the invariant and is settled. */
  lemma {:induction false} RunInv(states: seq<State>, steps: seq<Step>, i: nat)
    requires IsRun(states, steps) && i < |states|
    ensures Inv(states[i]) && Settled(states[i])
  {
    if i == 0 {
      var m :| states[0] == Init(m);
      InitInv(m);
    } else {
      RunInv(states, steps, i - 1);
      StepKeeps(states[i - 1], steps[i - 1]);
      StepSettles(states[i - 1], steps[i - 1]);
    }
  }
}
