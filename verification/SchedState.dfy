/**
 The scheduler half of the render server: clients' fence-page rows, per-client job
 FIFOs, one job on each queue, syncobjs, and the last-use fences of the buffer objects.
 A `State` is what the server's mutex protects between two requests; each function
 below is one routine of v3da_jobs.c, v3da_sched.c, v3da_bo.c or v3da_main.c.

 Jobs are named by their global submission number (`gseq`), which stands for the
 address of the C structure; 0 is the null pointer. Tables that start zeroed in C are
 maps whose missing keys read as 0.
 */
module SchedState {

  const NSLOTS: nat := 60
  const FIRST: nat := 0
  const NQUEUES: nat := 6
  const BIN: nat := 0
  const RENDER: nat := 1
  const TFU: nat := 2
  const CSD: nat := 3
  const CLEAN: nat := 4
  const CPU: nat := 5
  const MAX_DEPS: nat := 16
  const MAX_BOS: nat := 4096
  const GEN_MOD: nat := 0x1_0000_0000

  datatype Fence = Fence(slot: nat, queue: nat, gen: nat, seqno: nat)

  /** One counter of the fence page: a client's row and a queue. */
  datatype Cell = Cell(slot: nat, queue: nat)

  datatype Mode = Serial | Pipeline

  datatype SyncKey = SyncKey(slot: nat, handle: nat)

  datatype Sync = Unset | Attached(fence: Fence) | Done

  /** `bin` and `render` are the links of a bin/render pair, 0 once the other side is gone. */
  datatype Job = Job(fence: Fence, deps: seq<Fence>, bin: nat, render: nat, depError: bool, bos: seq<nat>)

  /** Jobs, FIFOs and the job on each queue. */
  datatype Work = Work(jobs: map<nat, Job>, fifo: map<Cell, seq<nat>>, active: map<nat, nat>, gseq: nat)

  /** The fence page rows and the counters behind them. */
  datatype Page = Page(slotGen: map<nat, nat>, completed: map<Cell, nat>, nextSeq: map<Cell, nat>, deadFlush: map<Cell, nat>)

  /** The page header's kick and completion counters, and the number of busy hardware queues. */
  datatype Meter = Meter(submitted: map<nat, nat>, completed: map<nat, nat>, nbusy: int)

  datatype State = State(
    w: Work,
    page: Page,
    hw: Meter,
    rr: map<nat, nat>,
    mode: Mode,
    used: set<nat>,
    syncs: map<SyncKey, Sync>,
    last: map<nat, map<nat, Fence>>)

  function Init(mode: Mode): State {
    State(Work(map[], map[], map[], 0), Page(map[], map[], map[], map[]), Meter(map[], map[], 0), map[], mode, {}, map[], map[])
  }

  // ------------------------------------------------------------------------
  // Reading the tables
  // ------------------------------------------------------------------------

  function Num<K>(m: map<K, nat>, k: K): nat {
    if k in m then m[k] else 0
  }

  function Fifo(w: Work, c: Cell): seq<nat> {
    if c in w.fifo then w.fifo[c] else []
  }

  function CellOf(f: Fence): Cell {
    Cell(f.slot, f.queue)
  }

  predicate IsHw(q: nat) {
    q == BIN || q == RENDER || q == TFU || q == CSD
  }

  /** The job on queue `c.queue` belongs to slot `c.slot`. */
  predicate ActiveIn(w: Work, c: Cell) {
    c.queue in w.active && w.active[c.queue] in w.jobs && w.jobs[w.active[c.queue]].fence.slot == c.slot
  }

  /** v3da_fence_signaled: one load, after the generation check. */
  predicate Signaled(p: Page, f: Fence) {
    f.slot >= NSLOTS || f.queue >= NQUEUES ||
    Num(p.slotGen, f.slot) % GEN_MOD != f.gen ||
    Num(p.completed, CellOf(f)) >= f.seqno
  }

  /** v3da_fence_valid. */
  predicate FenceValid(s: State, f: Fence) {
    f.slot < NSLOTS && f.queue < NQUEUES && f.seqno != 0 &&
    (f.slot !in s.used || Num(s.page.slotGen, f.slot) % GEN_MOD != f.gen || f.seqno <= Num(s.page.nextSeq, CellOf(f)))
  }

  /** v3da_slot_busy. */
  predicate SlotBusy(w: Work, slot: nat) {
    exists q :: 0 <= q < NQUEUES && ActiveIn(w, Cell(slot, q))
  }

  /** job_ready. */
  predicate Ready(w: Work, p: Page, g: nat) {
    g in w.jobs &&
    (w.jobs[g].fence.queue == RENDER ==> w.jobs[g].bin == 0) &&
    (forall i :: 0 <= i < |w.jobs[g].deps| ==> Signaled(p, w.jobs[g].deps[i]))
  }

  predicate HeadReady(w: Work, p: Page, c: Cell) {
    Fifo(w, c) != [] && Ready(w, p, Fifo(w, c)[0])
  }

  // ------------------------------------------------------------------------
  // Scheduling
  // ------------------------------------------------------------------------

  /** fifo_pop and the queue half of job_kick. */
  function PopTo(w: Work, c: Cell): Work
    requires Fifo(w, c) != []
  {
    w.(fifo := w.fifo[c := Fifo(w, c)[1..]], active := w.active[c.queue := Fifo(w, c)[0]])
  }

  function CountKick(m: Meter, q: nat): Meter {
    m.(submitted := m.submitted[q := Num(m.submitted, q) + 1], nbusy := if IsHw(q) then m.nbusy + 1 else m.nbusy)
  }

  /** fifo_pop followed by job_kick. */
  function Kick(s: State, c: Cell): State
    requires Fifo(s.w, c) != []
  {
    s.(w := PopTo(s.w, c), hw := CountKick(s.hw, c.queue))
  }

  function RrSlot(s: State, q: nat, i: nat): nat {
    (Num(s.rr, q) + i) % NSLOTS
  }

  /** The scan of v3da_sched_run over clients, from the round-robin cursor; NSLOTS = none. */
  function FirstReady(s: State, q: nat, i: nat): (k: nat)
    requires i <= NSLOTS
    ensures i <= k <= NSLOTS
    ensures forall j :: i <= j < k ==> !HeadReady(s.w, s.page, Cell(RrSlot(s, q, j), q))
    ensures k < NSLOTS ==> HeadReady(s.w, s.page, Cell(RrSlot(s, q, k), q))
    decreases NSLOTS - i
  {
    if i == NSLOTS || HeadReady(s.w, s.page, Cell(RrSlot(s, q, i), q)) then i else FirstReady(s, q, i + 1)
  }

  /** One queue's turn: kick the first ready head from the cursor and move the cursor past it. */
  function KickNext(s: State, q: nat): State {
    var i := FirstReady(s, q, FIRST);
    if q in s.w.active || i == NSLOTS then s
    else
      var idx := RrSlot(s, q, i);
      Kick(s, Cell(idx, q)).(rr := s.rr[q := idx + 1])
  }

  predicate HwHeadReady(w: Work, p: Page, c: Cell) {
    c.slot < NSLOTS && IsHw(c.queue) && HeadReady(w, p, c)
  }

  /** The SERIAL choice: the ready head that was submitted first. */
  ghost predicate IsOldest(s: State, c: Cell) {
    HwHeadReady(s.w, s.page, c) && forall d :: HwHeadReady(s.w, s.page, d) ==> Fifo(s.w, c)[0] <= Fifo(s.w, d)[0]
  }

  ghost function RunSerial(s: State): State {
    if s.hw.nbusy != 0 || !(exists c :: IsOldest(s, c)) then s
    else
      var c :| IsOldest(s, c);
      Kick(s, c)
  }

  function RunPipeline(s: State, q: nat): State
    requires q <= NQUEUES
    decreases NQUEUES - q
  {
    if q == NQUEUES then s
    else if IsHw(q) then RunPipeline(KickNext(s, q), q + 1)
    else RunPipeline(s, q + 1)
  }

  /** v3da_sched_run after the reaping of failed heads: the CPU queue, then the hardware queues. */
  ghost function Dispatch(s: State): State {
    var s1 := KickNext(s, CPU);
    if s1.mode == Serial then RunSerial(s1) else RunPipeline(s1, BIN)
  }

  // ------------------------------------------------------------------------
  // Completion
  // ------------------------------------------------------------------------

  /** A bin that is done frees its render, or marks it failed; a render that is done drops its bin's link. */
  function CutDone(j: Job, g: nat, err: bool): Job {
    j.(bin := if j.bin == g then 0 else j.bin,
       depError := j.depError || (err && j.bin == g),
       render := if j.render == g then 0 else j.render)
  }

  predicate OnQueue(w: Work, g: nat) {
    g in w.jobs && w.jobs[g].fence.queue in w.active && w.active[w.jobs[g].fence.queue] == g
  }

  /** The jobs once `g` is freed. */
  function DoneJobs(jobs: map<nat, Job>, g: nat, err: bool): map<nat, Job> {
    map x | x in jobs && x != g :: CutDone(jobs[x], g, err)
  }

  function TakeOff(w: Work, g: nat, err: bool): Work
    requires g in w.jobs
  {
    w.(jobs := DoneJobs(w.jobs, g, err),
       active := if OnQueue(w, g) then w.active - {w.jobs[g].fence.queue} else w.active)
  }

  /** v3da_fence_complete: the seqno the row shows from now on. */
  function CompletedSeq(p: Page, used: set<nat>, f: Fence): nat {
    if f.slot !in used && Num(p.deadFlush, CellOf(f)) > f.seqno then Num(p.deadFlush, CellOf(f)) else f.seqno
  }

  /** job_done: a job without a kick (failed dependency) counts as submitted first. */
  function CountDone(m: Meter, q: nat, onHw: bool): Meter {
    Meter(if onHw then m.submitted else m.submitted[q := Num(m.submitted, q) + 1],
          m.completed[q := Num(m.completed, q) + 1],
          if onHw && IsHw(q) then m.nbusy - 1 else m.nbusy)
  }

  /** job_done, on a job that is on its queue or (after a failed dependency) never was. */
  function JobDone(s: State, g: nat, err: bool): State
    requires g in s.w.jobs
  {
    var f := s.w.jobs[g].fence;
    s.(w := TakeOff(s.w, g, err),
       hw := CountDone(s.hw, f.queue, OnQueue(s.w, g)),
       page := s.page.(completed := s.page.completed[CellOf(f) := CompletedSeq(s.page, s.used, f)]))
  }

  /** The done bits of one event-thread pass, in the order the pass handles them. */
  function CompleteEach(s: State, done: seq<nat>): State
    decreases |done|
  {
    if done == [] then s
    else
      var q := done[0];
      CompleteEach(if q in s.w.active && s.w.active[q] in s.w.jobs then JobDone(s, s.w.active[q], false) else s, done[1..])
  }

  /** The event thread's pass over jobs: completions, then the scheduler. */
  ghost function EventPass(s: State, done: seq<nat>): State {
    Dispatch(CompleteEach(s, done))
  }

  // ------------------------------------------------------------------------
  // Clients
  // ------------------------------------------------------------------------

  function RowCells(slot: nat): set<Cell> {
    set q: nat | q < NQUEUES :: Cell(slot, q)
  }

  /** Some counters overwritten from another table. */
  function Overlay(m: map<Cell, nat>, cells: set<Cell>, v: map<Cell, nat>): map<Cell, nat> {
    map c | c in m.Keys + cells :: if c in cells then Num(v, c) else m[c]
  }

  /** A row of counters stored as zeroes. */
  function ZeroRow(m: map<Cell, nat>, slot: nat): map<Cell, nat> {
    Overlay(m, RowCells(slot), map[])
  }

  /** v3da_slot_assign, with the zeroed seqnos of the new client. */
  function Assign(p: Page, slot: nat): Page {
    Page(p.slotGen[slot := Num(p.slotGen, slot) + 1],
         ZeroRow(p.completed, slot), ZeroRow(p.nextSeq, slot), ZeroRow(p.deadFlush, slot))
  }

  /** client_open on a free slot. */
  function Open(s: State, slot: nat): State {
    s.(used := s.used + {slot},
       page := Assign(s.page, slot),
       syncs := map k | k in s.syncs && k.slot != slot :: s.syncs[k])
  }

  predicate QueuedOf(w: Work, slot: nat, g: nat) {
    g in w.jobs && CellOf(w.jobs[g].fence) in RowCells(slot) && g in Fifo(w, CellOf(w.jobs[g].fence))
  }

  /** job_discard's half on the jobs that stay. */
  function Cut(j: Job, dropped: set<nat>): Job {
    j.(bin := if j.bin in dropped then 0 else j.bin, render := if j.render in dropped then 0 else j.render)
  }

  function DropJobs(jobs: map<nat, Job>, dropped: set<nat>): map<nat, Job> {
    map g | g in jobs && g !in dropped :: Cut(jobs[g], dropped)
  }

  /** Every queued job of a slot discarded. */
  function Discard(w: Work, slot: nat): Work {
    w.(jobs := DropJobs(w.jobs, set g | g in w.jobs && QueuedOf(w, slot, g)),
       fifo := map c | c in w.fifo :: if c in RowCells(slot) then [] else w.fifo[c])
  }

  /** The cells of a leaving client that complete at once: nothing of it on their queue. */
  function FlushedCells(p: Page, w: Work, slot: nat): set<Cell> {
    set c | c in RowCells(slot) && !ActiveIn(w, c) && Num(p.nextSeq, c) > Num(p.completed, c)
  }

  /** The row of a client that leaves. */
  function FlushRow(p: Page, w: Work, slot: nat): Page {
    p.(deadFlush := Overlay(p.deadFlush, RowCells(slot), p.nextSeq),
       completed := Overlay(p.completed, FlushedCells(p, w, slot), p.nextSeq))
  }

  /** v3da_jobs_client_gone before its v3da_sched_run. */
  function Gone(s: State, slot: nat): State {
    var w := Discard(s.w, slot);
    s.(w := w, page := FlushRow(s.page, w, slot))
  }

  // ------------------------------------------------------------------------
  // Submission
  // ------------------------------------------------------------------------

  datatype Op = SubmitCl(rclEmpty: bool, hasBin: bool) | SubmitTfu | SubmitCsd

  datatype InSem = InSem(handle: nat, render: bool)

  datatype Request = Request(op: Op, ins: seq<InSem>, outs: seq<nat>, bos: seq<nat>)

  datatype Rc = Ok | EInval | ENoEnt | ENoMem | EBusy

  /** The checks of v3da_submit, in its order. */
  function SubmitCheck(s: State, slot: nat, rq: Request): Rc {
    if |rq.bos| > MAX_BOS then EInval
    else if |rq.ins| > MAX_DEPS || |rq.outs| > MAX_DEPS then EInval
    else if exists i :: 0 <= i < |rq.ins| && SyncKey(slot, rq.ins[i].handle) !in s.syncs then ENoEnt
    else if exists i :: 0 <= i < |rq.outs| && SyncKey(slot, rq.outs[i]) !in s.syncs then ENoEnt
    else if rq.op.SubmitCl? && rq.op.rclEmpty then EInval
    else if exists i :: 0 <= i < |rq.bos| && rq.bos[i] !in s.last then ENoEnt
    else Ok
  }

  /** add_dep over the in-syncs whose `render` flag is one of `flags`. */
  function ExplicitDeps(s: State, slot: nat, ins: seq<InSem>, flags: set<bool>): (deps: seq<Fence>)
    ensures |deps| <= |ins|
    ensures forall i :: 0 <= i < |deps| ==> !Signaled(s.page, deps[i])
    ensures forall i :: 0 <= i < |deps| ==>
      exists k :: 0 <= k < |ins| && SyncKey(slot, ins[k].handle) in s.syncs
        && s.syncs[SyncKey(slot, ins[k].handle)] == Attached(deps[i])
  {
    if ins == [] then []
    else
      var n := |ins| - 1;
      var before := ExplicitDeps(s, slot, ins[..n], flags);
      var k := SyncKey(slot, ins[n].handle);
      if ins[n].render in flags && k in s.syncs && s.syncs[k].Attached? && !Signaled(s.page, s.syncs[k].fence)
         && |before| < MAX_DEPS
      then before + [s.syncs[k].fence] else before
  }

  /** A dependency list under construction and how many fences did not fit. */
  datatype DepSet = DepSet(deps: seq<Fence>, dropped: nat)

  predicate SameLine(f: Fence, g: Fence) {
    f.slot == g.slot && f.queue == g.queue && f.gen == g.gen
  }

  /** The first entry of the same client, queue and generation; |deps| = none. */
  function FindLine(deps: seq<Fence>, f: Fence, i: nat): (k: nat)
    requires i <= |deps|
    ensures i <= k <= |deps|
    ensures forall j :: i <= j < k ==> !SameLine(deps[j], f)
    ensures k < |deps| ==> SameLine(deps[k], f)
    decreases |deps| - i
  {
    if i == |deps| || SameLine(deps[i], f) then i else FindLine(deps, f, i + 1)
  }

  /** v3da_fence_set_add: one entry per line, the newest seqno. */
  function SetAdd(d: DepSet, f: Fence): DepSet {
    var k := FindLine(d.deps, f, FIRST);
    if k < |d.deps| then
      if f.seqno > d.deps[k].seqno then d.(deps := d.deps[k := d.deps[k].(seqno := f.seqno)]) else d
    else if |d.deps| >= MAX_DEPS then d.(dropped := d.dropped + 1)
    else d.(deps := d.deps + [f])
  }

  /** A last-use fence that is still pending and not skipped; `skip` is the submitter's own slot. */
  predicate PendingUse(s: State, skip: set<nat>, h: nat, q: nat) {
    h in s.last && q in s.last[h] && s.last[h][q].seqno != 0 && s.last[h][q].slot !in skip
    && !Signaled(s.page, s.last[h][q])
  }

  function BoDeps(s: State, skip: set<nat>, h: nat, q: nat, d: DepSet): DepSet
    requires q <= NQUEUES
    decreases NQUEUES - q
  {
    if q == NQUEUES then d
    else BoDeps(s, skip, h, q + 1, if PendingUse(s, skip, h, q) then SetAdd(d, s.last[h][q]) else d)
  }

  /** v3da_bo_implicit_deps (and, with nothing skipped, the collection of v3da_bo_attach_fence). */
  function ImplicitDeps(s: State, skip: set<nat>, bos: seq<nat>, d: DepSet): DepSet
    decreases |bos|
  {
    if bos == [] then d else ImplicitDeps(s, skip, bos[1..], BoDeps(s, skip, bos[0], BIN, d))
  }

  function NewFence(p: Page, slot: nat, q: nat): Fence {
    Fence(slot, q, Num(p.slotGen, slot) % GEN_MOD, Num(p.nextSeq, Cell(slot, q)) + 1)
  }

  /** job_new and fifo_push. */
  function Push(w: Work, j: Job): Work {
    var g := w.gseq + 1;
    var c := CellOf(j.fence);
    w.(jobs := w.jobs[g := j], gseq := g, fifo := w.fifo[c := Fifo(w, c) + [g]])
  }

  function TakeSeq(p: Page, c: Cell): Page {
    p.(nextSeq := p.nextSeq[c := Num(p.nextSeq, c) + 1])
  }

  /** One job of a submit: created, given its seqno, and queued. */
  function Enqueue(s: State, slot: nat, q: nat, deps: seq<Fence>, bos: seq<nat>): State {
    s.(w := Push(s.w, Job(NewFence(s.page, slot, q), deps, 0, 0, false, bos)), page := TakeSeq(s.page, Cell(slot, q)))
  }

  /** The two pointers of a bin/render pair. */
  function LinkPair(w: Work, b: nat, r: nat): Work
    requires b in w.jobs && r in w.jobs
  {
    w.(jobs := w.jobs[b := w.jobs[b].(render := r)][r := w.jobs[r].(bin := b)])
  }

  function SetLast(m: map<nat, Fence>, f: Fence): map<nat, Fence> {
    m[f.queue := f]
  }

  /** v3da_bo_mark_use. */
  function MarkUse(last: map<nat, map<nat, Fence>>, bos: seq<nat>, f: Fence): map<nat, map<nat, Fence>> {
    map h | h in last :: if h in bos then SetLast(last[h], f) else last[h]
  }

  function SetOuts(syncs: map<SyncKey, Sync>, slot: nat, outs: seq<nat>, f: Fence): map<SyncKey, Sync> {
    map k | k in syncs :: if k.slot == slot && k.handle in outs then Attached(f) else syncs[k]
  }

  function OneQueue(op: Op): nat {
    match op
    case SubmitCl(_, _) => RENDER
    case SubmitTfu => TFU
    case SubmitCsd => CSD
  }

  predicate HasPair(op: Op) {
    op.SubmitCl? && op.hasBin
  }

  /** The queue of a submit's first job, which takes the first dependencies. */
  function FirstQueue(op: Op): nat {
    if HasPair(op) then BIN else OneQueue(op)
  }

  /** The dependencies of the submit's first job: its in-syncs, then other clients' pending uses. */
  function FirstDeps(s: State, slot: nat, rq: Request): DepSet {
    ImplicitDeps(s, {slot}, rq.bos,
      DepSet(ExplicitDeps(s, slot, rq.ins, if HasPair(rq.op) then {false} else {false, true}), 0))
  }

  /** Both jobs of the submit in their FIFOs, before anything is recorded. */
  function Queue(s: State, slot: nat, rq: Request): State {
    var deps := FirstDeps(s, slot, rq).deps;
    if HasPair(rq.op) then
      var s1 := Enqueue(s, slot, BIN, deps, []);
      var s2 := Enqueue(s1, slot, RENDER, ExplicitDeps(s, slot, rq.ins, {true}), rq.bos);
      s2.(w := LinkPair(s2.w, s1.w.gseq, s2.w.gseq))
    else Enqueue(s, slot, OneQueue(rq.op), deps, rq.bos)
  }

  /** An accepted v3da_submit before its v3da_sched_run. */
  function Submitted(s: State, slot: nat, rq: Request): State {
    var s1 := Queue(s, slot, rq);
    var f := NewFence(s.page, slot, OneQueue(rq.op));
    s1.(last := MarkUse(s.last, rq.bos, f), syncs := SetOuts(s.syncs, slot, rq.outs, f))
  }

  /** The fence that attaching `f` to the buffers collects, and whether it all fitted. */
  function JoinDeps(s: State, bos: seq<nat>, f: Fence): DepSet {
    ImplicitDeps(s, {}, bos, SetAdd(DepSet([], 0), f))
  }

  /** v3da_bo_attach_fence, once its fence is pending and its targets are known. */
  function Joined(s: State, slot: nat, bos: seq<nat>, f: Fence): State {
    var s1 := Enqueue(s, slot, CPU, JoinDeps(s, bos, f).deps, []);
    s1.(last := MarkUse(s.last, bos, NewFence(s.page, slot, CPU)))
  }
}
