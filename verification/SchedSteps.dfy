/** Completions, submissions, opening and closing keep the scheduler's invariant. */
module SchedSteps {
  import opened SchedState
  import opened SchedInv

  // ------------------------------------------------------------------------
  // job_done
  // ------------------------------------------------------------------------

  function DonePage(p: Page, used: set<nat>, f: Fence): Page {
    p.(completed := p.completed[CellOf(f) := CompletedSeq(p, used, f)])
  }

  /** The row of the job that leaves moves up by one; a dead client's row is flushed. */
  lemma DoneOwnRow(w: Work, p: Page, used: set<nat>, g: nat, err: bool)
    requires OnQueue(w, g) && w.jobs[g].fence.queue < NQUEUES && RowOk(w, p, used, CellOf(w.jobs[g].fence))
    ensures RowOk(TakeOff(w, g, err), DonePage(p, used, w.jobs[g].fence), used, CellOf(w.jobs[g].fence))
  {
    var t := TakeOff(w, g, err);
    var c := CellOf(w.jobs[g].fence);
    assert Fifo(t, c) == Fifo(w, c);
    assert ActiveIn(w, c) && !ActiveIn(t, c);
    forall k | 0 <= k < |Fifo(w, c)|
      ensures InRow(t, c, Fifo(w, c)[k]) && t.jobs[Fifo(w, c)[k]].fence == w.jobs[Fifo(w, c)[k]].fence
    {
      assert InRow(w, c, Fifo(w, c)[k]) && g < Fifo(w, c)[k];
    }
  }

  lemma DoneOtherRow(w: Work, p: Page, used: set<nat>, g: nat, err: bool, d: Cell)
    requires OnQueue(w, g) && RowOk(w, p, used, d) && d != CellOf(w.jobs[g].fence)
    ensures RowOk(TakeOff(w, g, err), DonePage(p, used, w.jobs[g].fence), used, d)
  {
    var t := TakeOff(w, g, err);
    assert Fifo(t, d) == Fifo(w, d) && ActiveIn(t, d) == ActiveIn(w, d);
    forall k | 0 <= k < |Fifo(w, d)|
      ensures InRow(t, d, Fifo(w, d)[k]) && t.jobs[Fifo(w, d)[k]].fence == w.jobs[Fifo(w, d)[k]].fence
    {
      assert InRow(w, d, Fifo(w, d)[k]);
    }
  }

  lemma DoneJob(w: Work, p: Page, used: set<nat>, g: nat, x: nat)
    requires OnQueue(w, g) && JobSane(w, p, g) && RowOk(w, p, used, CellOf(w.jobs[g].fence))
    requires x in w.jobs && x != g && JobOk(w, p, used, x)
    ensures JobOk(TakeOff(w, g, false), DonePage(p, used, w.jobs[g].fence), used, x)
  {
    var t := TakeOff(w, g, false);
    var p' := DonePage(p, used, w.jobs[g].fence);
    assert JobLinked(t, x);
    forall i | 0 <= i < |w.jobs[x].deps| ensures DepOk(t, p', used, x, w.jobs[x].deps[i]) {
      var f := w.jobs[x].deps[i];
      assert DepOk(w, p, used, x, f);
      if !Signaled(p, f) {
        var d: nat :| d < x && Carries(w, p, used, d, f);
        if d != g {
          assert Carries(t, p', used, d, f);
        }
      }
    }
  }

  lemma DoneCounted(m: Meter, active: map<nat, nat>, q: nat)
    requires HwCounted(m, active) && q in active
    ensures HwCounted(CountDone(m, q, true), active - {q})
  {
    var m', active' := CountDone(m, q, true), active - {q};
    assert HwActive(active') == HwActive(active) - {q};
    forall p: nat ensures QueueCounted(m', active', p) { assert QueueCounted(m, active, p); }
  }

  /** A job leaving the hardware keeps the invariant. */
  lemma DoneKeeps(s: State, g: nat)
    requires Inv(s) && OnQueue(s.w, g)
    ensures Inv(JobDone(s, g, false))
  {
    var t := JobDone(s, g, false);
    assert JobOk(s.w, s.page, s.used, g);
    assert RowOk(s.w, s.page, s.used, CellOf(s.w.jobs[g].fence));
    forall d: Cell ensures RowOk(t.w, t.page, s.used, d) {
      if d == CellOf(s.w.jobs[g].fence) {
        DoneOwnRow(s.w, s.page, s.used, g, false);
      } else {
        assert RowOk(s.w, s.page, s.used, d);
        DoneOtherRow(s.w, s.page, s.used, g, false, d);
      }
    }
    forall x | x in t.w.jobs ensures JobOk(t.w, t.page, s.used, x) { DoneJob(s.w, s.page, s.used, g, x); }
    forall q: nat ensures QueueOk(t.w, q) { assert QueueOk(s.w, q); }
    DoneCounted(s.hw, s.w.active, s.w.jobs[g].fence.queue);
  }

  lemma CompleteEachKeeps(s: State, done: seq<nat>)
    requires Inv(s)
    ensures Inv(CompleteEach(s, done))
    decreases |done|
  {
    if done != [] {
      var q := done[0];
      if q in s.w.active {
        assert QueueOk(s.w, q);
        DoneKeeps(s, s.w.active[q]);
        CompleteEachKeeps(JobDone(s, s.w.active[q], false), done[1..]);
      } else {
        CompleteEachKeeps(s, done[1..]);
      }
    }
  }

  // ------------------------------------------------------------------------
  // Submission
  // ------------------------------------------------------------------------

  /** What a new job may depend on: fences handed out, each signalled or carried by an existing job. */
  ghost predicate DepsFit(s: State, deps: seq<Fence>) {
    forall i :: 0 <= i < |deps| ==> DepOk(s.w, s.page, s.used, s.w.gseq + 1, deps[i])
  }

  lemma PushOwnRow(w: Work, p: Page, used: set<nat>, j: Job)
    requires RowOk(w, p, used, CellOf(j.fence)) && QueueOk(w, j.fence.queue) && w.gseq + 1 !in w.jobs
    requires forall g :: g in w.jobs ==> g <= w.gseq
    requires j.fence.slot in used && j.fence.queue < NQUEUES
    requires j.fence.seqno == Num(p.nextSeq, CellOf(j.fence)) + 1
    ensures RowOk(Push(w, j), TakeSeq(p, CellOf(j.fence)), used, CellOf(j.fence))
  {
    var t := Push(w, j);
    var d := CellOf(j.fence);
    assert ActiveIn(t, d) == ActiveIn(w, d);
    assert Fifo(t, d) == Fifo(w, d) + [w.gseq + 1];
    forall k | 0 <= k < |Fifo(w, d)| ensures Fifo(t, d)[k] == Fifo(w, d)[k] && InRow(w, d, Fifo(w, d)[k]) {}
  }

  lemma PushOtherRow(w: Work, p: Page, used: set<nat>, j: Job, d: Cell)
    requires RowOk(w, p, used, d) && QueueOk(w, d.queue) && w.gseq + 1 !in w.jobs && d != CellOf(j.fence)
    ensures RowOk(Push(w, j), TakeSeq(p, CellOf(j.fence)), used, d)
  {
    var t := Push(w, j);
    assert ActiveIn(t, d) == ActiveIn(w, d);
    assert Fifo(t, d) == Fifo(w, d);
    forall k | 0 <= k < |Fifo(w, d)| ensures InRow(t, d, Fifo(w, d)[k]) && t.jobs[Fifo(w, d)[k]] == w.jobs[Fifo(w, d)[k]] {
      assert InRow(w, d, Fifo(w, d)[k]);
    }
  }

  lemma EnqueueRow(s: State, slot: nat, q: nat, deps: seq<Fence>, bos: seq<nat>, d: Cell)
    requires WorkOk(s.w, s.page, s.used) && slot in s.used && RealQueue(q)
    ensures RowOk(Enqueue(s, slot, q, deps, bos).w, Enqueue(s, slot, q, deps, bos).page, s.used, d)
  {
    assert RowOk(s.w, s.page, s.used, d) && QueueOk(s.w, d.queue);
    forall g | g in s.w.jobs ensures g <= s.w.gseq { assert JobOk(s.w, s.page, s.used, g); }
    var j := Job(NewFence(s.page, slot, q), deps, 0, 0, false, bos);
    if d == CellOf(j.fence) {
      PushOwnRow(s.w, s.page, s.used, j);
    } else {
      PushOtherRow(s.w, s.page, s.used, j, d);
    }
  }

  lemma EnqueueJob(s: State, slot: nat, q: nat, deps: seq<Fence>, bos: seq<nat>, x: nat)
    requires WorkOk(s.w, s.page, s.used) && PageOk(s.page, s.used) && slot in s.used && RealQueue(q) && DepsFit(s, deps)
    requires x in Enqueue(s, slot, q, deps, bos).w.jobs
    ensures JobOk(Enqueue(s, slot, q, deps, bos).w, Enqueue(s, slot, q, deps, bos).page, s.used, x)
  {
    var t := Enqueue(s, slot, q, deps, bos);
    var g := s.w.gseq + 1;
    if x in s.w.jobs { assert JobOk(s.w, s.page, s.used, x); }
    if x != g && s.w.jobs[x].bin != 0 { assert JobOk(s.w, s.page, s.used, s.w.jobs[x].bin); }
    if x != g && s.w.jobs[x].render != 0 { assert JobOk(s.w, s.page, s.used, s.w.jobs[x].render); }
    forall i | 0 <= i < |t.w.jobs[x].deps| ensures DepOk(t.w, t.page, s.used, x, t.w.jobs[x].deps[i]) {
      var f := t.w.jobs[x].deps[i];
      assert DepOk(s.w, s.page, s.used, x, f);
      if !Signaled(s.page, f) {
        var d: nat :| d < x && Carries(s.w, s.page, s.used, d, f);
        assert JobOk(s.w, s.page, s.used, d);
        assert Carries(t.w, t.page, s.used, d, f);
      }
    }
  }

  lemma EnqueueKeeps(s: State, slot: nat, q: nat, deps: seq<Fence>, bos: seq<nat>)
    requires Inv(s) && slot in s.used && RealQueue(q) && DepsFit(s, deps)
    ensures Inv(Enqueue(s, slot, q, deps, bos))
  {
    var t := Enqueue(s, slot, q, deps, bos);
    forall d: Cell ensures RowOk(t.w, t.page, s.used, d) { EnqueueRow(s, slot, q, deps, bos, d); }
    forall x | x in t.w.jobs ensures JobOk(t.w, t.page, s.used, x) { EnqueueJob(s, slot, q, deps, bos, x); }
    forall p: nat ensures QueueOk(t.w, p) {
      assert QueueOk(s.w, p);
      if p in s.w.active { assert JobOk(s.w, s.page, s.used, s.w.active[p]); }
    }
  }

  lemma DepsFitLater(s: State, slot: nat, q: nat, deps: seq<Fence>, bos: seq<nat>, more: seq<Fence>)
    requires WorkOk(s.w, s.page, s.used) && DepsFit(s, more)
    ensures DepsFit(Enqueue(s, slot, q, deps, bos), more)
  {
    var t := Enqueue(s, slot, q, deps, bos);
    forall i | 0 <= i < |more| ensures DepOk(t.w, t.page, s.used, t.w.gseq + 1, more[i]) {
      assert DepOk(s.w, s.page, s.used, s.w.gseq + 1, more[i]);
      if !Signaled(s.page, more[i]) {
        var d: nat :| d < s.w.gseq + 1 && Carries(s.w, s.page, s.used, d, more[i]);
        assert JobOk(s.w, s.page, s.used, d);
        assert Carries(t.w, t.page, s.used, d, more[i]);
      }
    }
  }

  lemma LinkRow(w: Work, p: Page, used: set<nat>, b: nat, r: nat, d: Cell)
    requires b in w.jobs && r in w.jobs && RowOk(w, p, used, d)
    ensures RowOk(LinkPair(w, b, r), p, used, d)
  {
    var t := LinkPair(w, b, r);
    assert Fifo(t, d) == Fifo(w, d) && ActiveIn(t, d) == ActiveIn(w, d);
  }

  predicate Linkable(w: Work, b: nat, r: nat) {
    && b in w.jobs && r in w.jobs && 0 < b < r
    && w.jobs[b].fence.queue == BIN && w.jobs[r].fence.queue == RENDER
    && w.jobs[b].fence.slot == w.jobs[r].fence.slot
    && w.jobs[b].render == 0 && w.jobs[r].bin == 0
  }

  lemma LinkJob(w: Work, p: Page, used: set<nat>, b: nat, r: nat, x: nat)
    requires Linkable(w, b, r) && x in w.jobs && JobOk(w, p, used, x) && JobOk(w, p, used, r) && JobOk(w, p, used, b)
    ensures JobOk(LinkPair(w, b, r), p, used, x)
  {
    var t := LinkPair(w, b, r);
    assert JobLinked(t, x);
    forall i | 0 <= i < |w.jobs[x].deps| ensures DepOk(t, p, used, x, w.jobs[x].deps[i]) {
      var f := w.jobs[x].deps[i];
      assert DepOk(w, p, used, x, f);
      if !Signaled(p, f) {
        var d: nat :| d < x && Carries(w, p, used, d, f);
        assert Carries(t, p, used, d, f);
      }
    }
  }

  lemma LinkKeeps(s: State, b: nat, r: nat)
    requires Inv(s) && Linkable(s.w, b, r)
    ensures Inv(s.(w := LinkPair(s.w, b, r)))
  {
    var t := LinkPair(s.w, b, r);
    forall d: Cell ensures RowOk(t, s.page, s.used, d) { LinkRow(s.w, s.page, s.used, b, r, d); }
    forall x | x in t.jobs ensures JobOk(t, s.page, s.used, x) {
      LinkJob(s.w, s.page, s.used, b, r, x);
    }
    forall q: nat ensures QueueOk(t, q) { assert QueueOk(s.w, q); }
  }

  // ------------------------------------------------------------------------
  // client_open
  // ------------------------------------------------------------------------

  /** A slot may be handed to a new client: nobody uses it and nothing of it is on the hardware. */
  predicate Free(s: State, slot: nat) {
    slot < NSLOTS && slot !in s.used && !SlotBusy(s.w, slot)
  }

  lemma FreeRow(s: State, slot: nat)
    requires Inv(s) && Free(s, slot)
    ensures forall g :: g in s.w.jobs ==> s.w.jobs[g].fence.slot != slot
    ensures forall c: Cell :: c.slot == slot ==> Fifo(s.w, c) == [] && !ActiveIn(s.w, c)
  {
    forall g | g in s.w.jobs ensures s.w.jobs[g].fence.slot != slot {
      assert JobOk(s.w, s.page, s.used, g);
      var c := CellOf(s.w.jobs[g].fence);
      assert RowOk(s.w, s.page, s.used, c);
      assert OnQueue(s.w, g) ==> ActiveIn(s.w, c);
    }
    forall c: Cell | c.slot == slot ensures Fifo(s.w, c) == [] {
      assert RowOk(s.w, s.page, s.used, c);
      assert Fifo(s.w, c) == [] || InRow(s.w, c, Fifo(s.w, c)[0]);
    }
  }

  lemma OpenJob(w: Work, p: Page, used: set<nat>, slot: nat, g: nat)
    requires g in w.jobs && JobOk(w, p, used, g) && Num(p.slotGen, slot) + 1 < GEN_MOD
    requires forall x :: x in w.jobs ==> w.jobs[x].fence.slot != slot
    ensures JobOk(w, Assign(p, slot), used + {slot}, g)
  {
    forall i | 0 <= i < |w.jobs[g].deps| ensures DepOk(w, Assign(p, slot), used + {slot}, g, w.jobs[g].deps[i]) {
      OpenDep(w, p, used, slot, g, w.jobs[g].deps[i]);
    }
  }

  lemma OpenDep(w: Work, p: Page, used: set<nat>, slot: nat, g: nat, f: Fence)
    requires DepOk(w, p, used, g, f) && Num(p.slotGen, slot) + 1 < GEN_MOD
    requires forall x :: x in w.jobs ==> w.jobs[x].fence.slot != slot
    ensures DepOk(w, Assign(p, slot), used + {slot}, g, f)
  {
    var p' := Assign(p, slot);
    if !Signaled(p', f) {
      var d: nat :| d < g && Carries(w, p, used, d, f);
      assert Carries(w, p', used + {slot}, d, f);
    }
  }

  lemma OpenRow(w: Work, p: Page, used: set<nat>, slot: nat, d: Cell)
    requires RowOk(w, p, used, d) && (d.slot == slot ==> Fifo(w, d) == [] && !ActiveIn(w, d))
    ensures RowOk(w, Assign(p, slot), used + {slot}, d)
  {
  }

  /** A new client in a free slot, whose 32-bit generation does not wrap, keeps the invariant. */
  lemma OpenKeeps(s: State, slot: nat)
    requires Inv(s) && Free(s, slot) && Num(s.page.slotGen, slot) + 1 < GEN_MOD
    ensures Inv(Open(s, slot))
  {
    FreeRow(s, slot);
    OpenWork(s, slot);
    var t := Open(s, slot);
    forall u: nat ensures Num(t.page.slotGen, u) < GEN_MOD { assert Num(s.page.slotGen, u) < GEN_MOD; }
  }

  lemma OpenWork(s: State, slot: nat)
    requires WorkOk(s.w, s.page, s.used) && Num(s.page.slotGen, slot) + 1 < GEN_MOD
    requires forall g :: g in s.w.jobs ==> s.w.jobs[g].fence.slot != slot
    requires forall c: Cell :: c.slot == slot ==> Fifo(s.w, c) == [] && !ActiveIn(s.w, c)
    ensures WorkOk(s.w, Assign(s.page, slot), s.used + {slot})
  {
    var p := Assign(s.page, slot);
    forall d: Cell ensures RowOk(s.w, p, s.used + {slot}, d) {
      assert RowOk(s.w, s.page, s.used, d);
      OpenRow(s.w, s.page, s.used, slot, d);
    }
    forall g | g in s.w.jobs ensures JobOk(s.w, p, s.used + {slot}, g) {
      assert JobOk(s.w, s.page, s.used, g);
      OpenJob(s.w, s.page, s.used, slot, g);
    }
  }

  // ------------------------------------------------------------------------
  // client_close
  // ------------------------------------------------------------------------

  lemma DiscardShape(w: Work, p: Page, used: set<nat>, slot: nat, d: Cell)
    requires WorkOk(w, p, used)
    ensures ActiveIn(Discard(w, slot), d) == ActiveIn(w, d)
    ensures Fifo(Discard(w, slot), d) == if d.slot == slot then [] else Fifo(w, d)
  {
    if Fifo(w, d) != [] {
      assert RowOk(w, p, used, d);
      assert InRow(w, d, Fifo(w, d)[0]);
      assert JobOk(w, p, used, Fifo(w, d)[0]);
    }
    if d.queue in w.active {
      KeptActive(w, p, used, slot, d.queue);
    }
  }

  /** The leaving client's row is empty but for the job on the hardware, which will flush it. */
  lemma FlushedRow(w: Work, p: Page, used: set<nat>, slot: nat, d: Cell)
    requires slot in used && d.slot == slot && RowOk(w, p, used, d)
    requires ActiveIn(Discard(w, slot), d) == ActiveIn(w, d) && Fifo(Discard(w, slot), d) == []
    ensures RowOk(Discard(w, slot), FlushRow(p, Discard(w, slot), slot), used - {slot}, d)
  {
    assert d.queue < NQUEUES <==> d in RowCells(slot);
  }

  lemma KeptRow(w: Work, p: Page, used: set<nat>, slot: nat, d: Cell)
    requires d.slot != slot && RowOk(w, p, used, d)
    requires ActiveIn(Discard(w, slot), d) == ActiveIn(w, d) && Fifo(Discard(w, slot), d) == Fifo(w, d)
    ensures RowOk(Discard(w, slot), FlushRow(p, Discard(w, slot), slot), used - {slot}, d)
  {
    var t := Discard(w, slot);
    assert d !in RowCells(slot);
    forall k | 0 <= k < |Fifo(w, d)|
      ensures InRow(t, d, Fifo(w, d)[k]) && t.jobs[Fifo(w, d)[k]].fence == w.jobs[Fifo(w, d)[k]].fence
    {
      assert InRow(w, d, Fifo(w, d)[k]);
    }
  }

  lemma KeptActive(w: Work, p: Page, used: set<nat>, slot: nat, q: nat)
    requires WorkOk(w, p, used) && q in w.active
    ensures w.active[q] in Discard(w, slot).jobs
    ensures !QueuedOf(w, slot, w.active[q])
  {
    assert QueueOk(w, q);
    assert RowOk(w, p, used, CellOf(w.jobs[w.active[q]].fence));
  }

  /** A dependency on a discarded job is signalled at once, or by its client's job still running. */
  lemma DiscardDep(w: Work, p: Page, used: set<nat>, slot: nat, g: nat, f: Fence)
    requires slot in used && WorkOk(w, p, used) && DepOk(w, p, used, g, f)
    ensures DepOk(Discard(w, slot), FlushRow(p, Discard(w, slot), slot), used - {slot}, g, f)
  {
    var p' := FlushRow(p, Discard(w, slot), slot);
    var c := CellOf(f);
    assert c.slot == slot <==> c in RowCells(slot);
    if !Signaled(p, f) {
      var d: nat :| d < g && Carries(w, p, used, d, f);
      if d in Discard(w, slot).jobs {
        DepOnKept(w, p, used, slot, d, f);
      } else {
        DepOnDropped(w, p, used, slot, d, f);
      }
    }
  }

  lemma DepOnKept(w: Work, p: Page, used: set<nat>, slot: nat, d: nat, f: Fence)
    requires WorkOk(w, p, used) && Carries(w, p, used, d, f) && d in Discard(w, slot).jobs
    requires slot in used && f.queue < NQUEUES
    ensures Carries(Discard(w, slot), FlushRow(p, Discard(w, slot), slot), used - {slot}, d, f)
  {
    assert CellOf(f).slot == slot <==> CellOf(f) in RowCells(slot);
    assert OnQueue(Discard(w, slot), d) == OnQueue(w, d);
  }

  lemma DepOnDropped(w: Work, p: Page, used: set<nat>, slot: nat, d: nat, f: Fence)
    requires WorkOk(w, p, used) && Carries(w, p, used, d, f) && d !in Discard(w, slot).jobs
    requires slot in used && f.queue < NQUEUES
    ensures Signaled(FlushRow(p, Discard(w, slot), slot), f)
      || CarriedBelow(Discard(w, slot), FlushRow(p, Discard(w, slot), slot), used - {slot}, d, f)
  {
    var c := CellOf(f);
    assert QueuedOf(w, slot, d);
    assert RowOk(w, p, used, c) && JobOk(w, p, used, d);
    DiscardShape(w, p, used, slot, c);
    if ActiveIn(w, c) {
      KeptActive(w, p, used, slot, c.queue);
      assert QueueOk(w, c.queue) && JobOk(w, p, used, w.active[c.queue]);
      FlushCarries(w, p, used, slot, d, f);
    } else {
      assert c in RowCells(slot);
    }
  }

  /** The running job of the leaving client carries the fences of its discarded jobs. */
  lemma FlushCarries(w: Work, p: Page, used: set<nat>, slot: nat, d: nat, f: Fence)
    requires QueuedOf(w, slot, d) && w.jobs[d].fence == f && f.queue < NQUEUES && slot in used
    requires RowOk(w, p, used, CellOf(f)) && ActiveIn(w, CellOf(f)) && w.active[f.queue] in Discard(w, slot).jobs
    requires JobSane(w, p, d) && JobSane(w, p, w.active[f.queue])
    ensures CarriedBelow(Discard(w, slot), FlushRow(p, Discard(w, slot), slot), used - {slot}, d, f)
  {
    var t := Discard(w, slot);
    var a := w.active[f.queue];
    assert CellOf(f) in RowCells(slot);
    assert OnQueue(t, a) && a < d;
    assert Carries(t, FlushRow(p, t, slot), used - {slot}, a, f);
  }

  lemma DiscardJob(w: Work, p: Page, used: set<nat>, slot: nat, g: nat)
    requires slot in used && WorkOk(w, p, used) && g in Discard(w, slot).jobs
    ensures JobOk(Discard(w, slot), FlushRow(p, Discard(w, slot), slot), used - {slot}, g)
  {
    var t := Discard(w, slot);
    var p' := FlushRow(p, t, slot);
    assert JobOk(w, p, used, g);
    if w.jobs[g].bin != 0 { assert JobOk(w, p, used, w.jobs[g].bin); }
    forall i | 0 <= i < |w.jobs[g].deps| ensures DepOk(t, p', used - {slot}, g, w.jobs[g].deps[i]) {
      DiscardDep(w, p, used, slot, g, w.jobs[g].deps[i]);
    }
  }

  /** Discarding a leaving client's queued jobs keeps the invariant for the clients that stay. */
  lemma GoneKeeps(s: State, slot: nat)
    requires Inv(s) && slot in s.used
    ensures InvFor(Gone(s, slot), s.used - {slot})
  {
    var t := Gone(s, slot);
    forall d: Cell ensures RowOk(t.w, t.page, s.used - {slot}, d) {
      assert RowOk(s.w, s.page, s.used, d);
      DiscardShape(s.w, s.page, s.used, slot, d);
      if d.slot == slot { FlushedRow(s.w, s.page, s.used, slot, d); } else { KeptRow(s.w, s.page, s.used, slot, d); }
    }
    forall g | g in t.w.jobs ensures JobOk(t.w, t.page, s.used - {slot}, g) { DiscardJob(s.w, s.page, s.used, slot, g); }
    forall q: nat ensures QueueOk(t.w, q) {
      assert QueueOk(s.w, q);
      if q in s.w.active { KeptActive(s.w, s.page, s.used, slot, q); }
    }
  }
}
