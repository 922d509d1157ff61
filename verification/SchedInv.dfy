/**
 The invariant of the scheduler between two requests, row by row and job by job, and
 its preservation by kicks.

 `used` is passed separately because client_close runs the scheduler while the leaving
 client still counts as used: the invariant for the set without it already holds there.
 */
module SchedInv {
  import opened SchedState

  predicate RealQueue(q: nat) {
    q < NQUEUES && q != CLEAN
  }

  /** How many jobs of a row are on the hardware: 0 or 1. */
  function Running(w: Work, c: Cell): nat {
    if ActiveIn(w, c) then 1 else 0
  }

  predicate InRow(w: Work, c: Cell, g: nat) {
    g in w.jobs && CellOf(w.jobs[g].fence) == c
  }

  /** A row is the job on the hardware, then its FIFO: submission order, consecutive seqnos. */
  ghost predicate RowOrdered(w: Work, p: Page, c: Cell) {
    && (forall k :: 0 <= k < |Fifo(w, c)| ==>
          InRow(w, c, Fifo(w, c)[k]) && w.jobs[Fifo(w, c)[k]].fence.seqno == Num(p.completed, c) + Running(w, c) + 1 + k)
    && (forall i, j :: 0 <= i < j < |Fifo(w, c)| ==> Fifo(w, c)[i] < Fifo(w, c)[j])
    && (ActiveIn(w, c) ==>
          && InRow(w, c, w.active[c.queue])
          && w.jobs[w.active[c.queue]].fence.seqno == Num(p.completed, c) + 1
          && (forall k :: 0 <= k < |Fifo(w, c)| ==> w.active[c.queue] < Fifo(w, c)[k]))
  }

  /** One row reaches from the completed seqno to the last one handed out. */
  predicate RowCounted(w: Work, p: Page, used: set<nat>, c: Cell) {
    if c.slot in used then
      Num(p.completed, c) + Running(w, c) + |Fifo(w, c)| == Num(p.nextSeq, c)
    else
      && Fifo(w, c) == []
      && Num(p.deadFlush, c) == Num(p.nextSeq, c)
      && Num(p.completed, c) + Running(w, c) <= Num(p.nextSeq, c)
      && (!ActiveIn(w, c) ==> Num(p.completed, c) == Num(p.nextSeq, c))
  }

  ghost predicate RowOk(w: Work, p: Page, used: set<nat>, c: Cell) {
    RowOrdered(w, p, c) && (c.queue < NQUEUES ==> RowCounted(w, p, used, c))
  }

  /** A job belongs to its client's present row and is on its queue or in its FIFO. */
  predicate JobSane(w: Work, p: Page, g: nat) {
    && g in w.jobs
    && 0 < g <= w.gseq
    && w.jobs[g].fence.slot < NSLOTS
    && RealQueue(w.jobs[g].fence.queue)
    && w.jobs[g].fence.gen == Num(p.slotGen, w.jobs[g].fence.slot)
    && (OnQueue(w, g) || g in Fifo(w, CellOf(w.jobs[g].fence)))
    && !w.jobs[g].depError
  }

  /** The pair links point at each other, from a later render back to an earlier bin. */
  predicate JobLinked(w: Work, g: nat)
    requires g in w.jobs
  {
    var j := w.jobs[g];
    && (j.bin != 0 ==>
          && j.bin in w.jobs
          && j.bin < g
          && w.jobs[j.bin].render == g
          && w.jobs[j.bin].fence.queue == BIN
          && j.fence.queue == RENDER
          && j.fence.slot == w.jobs[j.bin].fence.slot)
    && (j.render != 0 ==> j.render in w.jobs && w.jobs[j.render].bin == g)
  }

  /** Completing job `d` signals `f`: it is its fence, or `d` flushes a dead client's row past it. */
  predicate Carries(w: Work, p: Page, used: set<nat>, d: nat, f: Fence) {
    d in w.jobs && SameLine(w.jobs[d].fence, f) &&
    (w.jobs[d].fence.seqno == f.seqno ||
     (f.slot !in used && OnQueue(w, d) && w.jobs[d].fence.seqno < f.seqno <= Num(p.deadFlush, CellOf(f))))
  }

  ghost predicate CarriedBelow(w: Work, p: Page, used: set<nat>, g: nat, f: Fence) {
    exists d: nat :: d < g && Carries(w, p, used, d, f)
  }

  /** A fence the server has handed out: of an earlier owner of the slot, or one of its seqnos so far. */
  predicate HandedOut(p: Page, f: Fence) {
    f.slot < NSLOTS && f.queue < NQUEUES &&
    (f.gen < Num(p.slotGen, f.slot) || (f.gen == Num(p.slotGen, f.slot) && f.seqno <= Num(p.nextSeq, CellOf(f))))
  }

  /** A dependency is signalled or waits for a job submitted earlier. */
  ghost predicate DepOk(w: Work, p: Page, used: set<nat>, g: nat, f: Fence) {
    HandedOut(p, f) && (Signaled(p, f) || CarriedBelow(w, p, used, g, f))
  }

  ghost predicate DepsOk(w: Work, p: Page, used: set<nat>, g: nat)
    requires g in w.jobs
  {
    forall i :: 0 <= i < |w.jobs[g].deps| ==> DepOk(w, p, used, g, w.jobs[g].deps[i])
  }

  ghost predicate JobOk(w: Work, p: Page, used: set<nat>, g: nat) {
    JobSane(w, p, g) && JobLinked(w, g) && DepsOk(w, p, used, g)
  }

  predicate QueueOk(w: Work, q: nat) {
    q in w.active ==> w.active[q] in w.jobs && w.jobs[w.active[q]].fence.queue == q
  }

  ghost predicate WorkOk(w: Work, p: Page, used: set<nat>) {
    && (forall c: Cell :: RowOk(w, p, used, c))
    && (forall g :: g in w.jobs ==> JobOk(w, p, used, g))
    && (forall q: nat :: QueueOk(w, q))
  }

  ghost predicate PageOk(p: Page, used: set<nat>) {
    && (forall u :: u in used ==> u < NSLOTS)
    && (forall u: nat :: Num(p.slotGen, u) < GEN_MOD)
  }

  ghost predicate FencesKnown(p: Page, syncs: map<SyncKey, Sync>, last: map<nat, map<nat, Fence>>) {
    && (forall k :: k in syncs && syncs[k].Attached? ==> HandedOut(p, syncs[k].fence))
    && (forall h, q :: h in last && q in last[h] ==> HandedOut(p, last[h][q]))
  }

  function HwActive(active: map<nat, nat>): set<nat> {
    set q | q in active && IsHw(q)
  }

  predicate QueueCounted(m: Meter, active: map<nat, nat>, q: nat) {
    Num(m.submitted, q) == Num(m.completed, q) + (if q in active then 1 else 0)
  }

  /** The concurrency count and, per queue, kicked = completed + the one on the hardware. */
  ghost predicate HwCounted(m: Meter, active: map<nat, nat>) {
    && m.nbusy == |HwActive(active)|
    && (forall q: nat :: QueueCounted(m, active, q))
  }

  ghost predicate InvFor(s: State, used: set<nat>) {
    && WorkOk(s.w, s.page, used)
    && PageOk(s.page, used)
    && FencesKnown(s.page, s.syncs, s.last)
    && HwCounted(s.hw, s.w.active)
  }

  ghost predicate Inv(s: State) {
    InvFor(s, s.used)
  }

  /** Job numbers are positive and taken in order. */
  ghost predicate Numbered(w: Work) {
    && (forall g :: g in w.jobs ==> 0 < g <= w.gseq)
    && (forall q :: q in w.active ==> w.active[q] in w.jobs)
  }

  lemma InvNumbered(s: State)
    requires Inv(s)
    ensures Numbered(s.w)
  {
    forall g | g in s.w.jobs ensures 0 < g <= s.w.gseq { assert JobOk(s.w, s.page, s.used, g); }
    forall q | q in s.w.active ensures s.w.active[q] in s.w.jobs { assert QueueOk(s.w, q); }
  }

  lemma InitInv(mode: Mode)
    ensures Inv(Init(mode))
  {
    assert HwActive(Init(mode).w.active) == {};
  }

  /** An unsignalled fence with a handed-out seqno is carried by a job of its row. */
  lemma PendingIsCarried(w: Work, p: Page, used: set<nat>, f: Fence)
    requires WorkOk(w, p, used) && PageOk(p, used)
    requires HandedOut(p, f) && !Signaled(p, f)
    ensures CarriedBelow(w, p, used, w.gseq + 1, f)
  {
    var c := CellOf(f);
    assert RowOk(w, p, used, c);
    var k := f.seqno - Num(p.completed, c) - 1;
    var d := if ActiveIn(w, c) && (k == 0 || f.slot !in used) then w.active[c.queue]
             else Fifo(w, c)[k - Running(w, c)];
    assert JobOk(w, p, used, d);
    assert Carries(w, p, used, d, f);
  }

  // ------------------------------------------------------------------------
  // Kicks
  // ------------------------------------------------------------------------

  lemma PopRow(w: Work, p: Page, used: set<nat>, c: Cell, d: Cell)
    requires Fifo(w, c) != [] && c.queue !in w.active
    requires InRow(w, c, Fifo(w, c)[0]) && RowOk(w, p, used, d)
    ensures RowOk(PopTo(w, c), p, used, d)
  {
    var t := PopTo(w, c);
    assert ActiveIn(t, c) && !ActiveIn(w, c);
    if d == c {
      assert Fifo(t, c) == Fifo(w, c)[1..];
    } else {
      assert Fifo(t, d) == Fifo(w, d) && ActiveIn(t, d) == ActiveIn(w, d);
    }
  }

  lemma PopJob(w: Work, p: Page, used: set<nat>, c: Cell, g: nat)
    requires Fifo(w, c) != [] && c.queue !in w.active
    requires RowOk(w, p, used, c) && g in w.jobs && JobOk(w, p, used, g)
    ensures JobOk(PopTo(w, c), p, used, g)
  {
    var t := PopTo(w, c);
    var h := Fifo(w, c)[0];
    assert InRow(w, c, h);
    if g in Fifo(w, c) && g != h {
      assert g in Fifo(w, c)[1..];
    }
    forall i | 0 <= i < |w.jobs[g].deps| ensures DepOk(t, p, used, g, w.jobs[g].deps[i]) {
      var f := w.jobs[g].deps[i];
      assert DepOk(w, p, used, g, f);
      if !Signaled(p, f) {
        var d: nat :| d < g && Carries(w, p, used, d, f);
        assert Carries(t, p, used, d, f);
      }
    }
  }

  lemma KickCounted(m: Meter, active: map<nat, nat>, q: nat, g: nat)
    requires HwCounted(m, active) && q !in active
    ensures HwCounted(CountKick(m, q), active[q := g])
  {
    var m', active' := CountKick(m, q), active[q := g];
    assert HwActive(active') == if IsHw(q) then HwActive(active) + {q} else HwActive(active);
    forall p: nat ensures QueueCounted(m', active', p) { assert QueueCounted(m, active, p); }
  }

  lemma KickKeeps(s: State, used: set<nat>, c: Cell)
    requires InvFor(s, used) && Fifo(s.w, c) != [] && c.queue !in s.w.active
    ensures InvFor(Kick(s, c), used)
  {
    var t := PopTo(s.w, c);
    assert InRow(s.w, c, Fifo(s.w, c)[0]) by { assert RowOk(s.w, s.page, used, c); }
    forall d: Cell ensures RowOk(t, s.page, used, d) { PopRow(s.w, s.page, used, c, d); }
    forall g | g in t.jobs ensures JobOk(t, s.page, used, g) { PopJob(s.w, s.page, used, c, g); }
    forall q: nat ensures QueueOk(t, q) { assert QueueOk(s.w, q); }
    KickCounted(s.hw, s.w.active, c.queue, Fifo(s.w, c)[0]);
  }

  lemma KickNextKeeps(s: State, used: set<nat>, q: nat)
    requires InvFor(s, used)
    ensures InvFor(KickNext(s, q), used)
  {
    var i := FirstReady(s, q, FIRST);
    if q !in s.w.active && i < NSLOTS {
      KickKeeps(s, used, Cell(RrSlot(s, q, i), q));
    }
  }

  lemma RunPipelineKeeps(s: State, used: set<nat>, q: nat)
    requires InvFor(s, used) && q <= NQUEUES
    ensures InvFor(RunPipeline(s, q), used)
    decreases NQUEUES - q
  {
    if q < NQUEUES {
      KickNextKeeps(s, used, q);
      RunPipelineKeeps(if IsHw(q) then KickNext(s, q) else s, used, q + 1);
    }
  }

  lemma NotBusyIdle(m: Meter, active: map<nat, nat>, q: nat)
    requires HwCounted(m, active) && m.nbusy == 0 && IsHw(q)
    ensures q !in active
  {
    assert q in active ==> q in HwActive(active);
  }

  /** The SERIAL run kicks one ready head of an idle queue, or nothing. */
  lemma SerialKick(s: State) returns (kicked: bool, c: Cell)
    requires HwCounted(s.hw, s.w.active)
    ensures !kicked ==> RunSerial(s) == s
    ensures kicked ==> HeadReady(s.w, s.page, c) && c.queue !in s.w.active && RunSerial(s) == Kick(s, c)
    ensures kicked ==> forall d :: HwHeadReady(s.w, s.page, d) ==> Fifo(s.w, c)[0] <= Fifo(s.w, d)[0]
  {
    kicked, c := false, Cell(0, 0);
    if s.hw.nbusy == 0 && exists d :: IsOldest(s, d) {
      kicked := true;
      c :| IsOldest(s, c) && RunSerial(s) == Kick(s, c);
      NotBusyIdle(s.hw, s.w.active, c.queue);
    }
  }

  lemma RunSerialKeeps(s: State, used: set<nat>)
    requires InvFor(s, used)
    ensures InvFor(RunSerial(s), used)
  {
    var kicked, c := SerialKick(s);
    if kicked { KickKeeps(s, used, c); }
  }

  /** A scheduler run keeps the invariant, for the clients counted in `used`. */
  lemma DispatchKeeps(s: State, used: set<nat>)
    requires InvFor(s, used)
    ensures InvFor(Dispatch(s), used)
  {
    KickNextKeeps(s, used, CPU);
    var s1 := KickNext(s, CPU);
    if s1.mode == Serial {
      RunSerialKeeps(s1, used);
    } else {
      RunPipelineKeeps(s1, used, BIN);
    }
  }
}
