/**
 The scheduler as the server runs it: one object whose fields the routines update in
 place, each routine proved equal to its specification on states.
 */
module SchedServer {
  import opened SchedState
  import opened SchedInv
  import opened SchedSteps
  import opened SchedRuns
  import opened SchedFailures

  /** The pair pointers agree with each other. */
  ghost predicate PairsOk(jobs: map<nat, Job>) {
    forall g :: g in jobs ==> 0 < g && PairOk(jobs, g)
  }

  predicate PairOk(jobs: map<nat, Job>, g: nat)
    requires g in jobs
  {
    && (jobs[g].bin != 0 ==>
          jobs[g].bin in jobs && jobs[jobs[g].bin].render == g && jobs[jobs[g].bin].fence.queue == BIN)
    && (jobs[g].render != 0 ==> jobs[g].render in jobs && jobs[jobs[g].render].bin == g)
  }

  /** Following the job's two pointers reaches every job that points back at it. */
  lemma UnlinkIsDone(jobs: map<nat, Job>, g: nat, err: bool)
    requires g in jobs && PairsOk(jobs)
    ensures var j := jobs[g];
      && (j.fence.queue == BIN && j.render != 0 ==> j.render in jobs)
      && (j.bin != 0 ==> j.bin in jobs)
    ensures var j := jobs[g];
      var a := if j.fence.queue == BIN && j.render != 0
               then jobs[j.render := jobs[j.render].(bin := 0, depError := jobs[j.render].depError || err)] else jobs;
      var b := if j.bin != 0 then a[j.bin := a[j.bin].(render := 0)] else a;
      b - {g} == DoneJobs(jobs, g, err)
  {
    var j := jobs[g];
    assert PairOk(jobs, g);
    var a := if j.fence.queue == BIN && j.render != 0
             then jobs[j.render := jobs[j.render].(bin := 0, depError := jobs[j.render].depError || err)] else jobs;
    var b := if j.bin != 0 then a[j.bin := a[j.bin].(render := 0)] else a;
    assert (b - {g}).Keys == jobs.Keys - {g};
    forall x | x in jobs && x != g ensures b[x] == CutDone(jobs[x], g, err) { assert PairOk(jobs, x); }
  }

  /** What the routines rely on: heads name existing jobs of their row, and pair links agree. */
  ghost predicate Sound(w: Work) {
    && (forall c: Cell :: RowApart(w, c))
    && (forall q: nat :: QueueOk(w, q))
    && PairsOk(w.jobs)
  }

  lemma InvSound(s: State)
    requires Inv(s)
    ensures Sound(s.w)
  {
    forall c: Cell ensures RowApart(s.w, c) {
      assert RowOk(s.w, s.page, s.used, c);
      forall k | 0 <= k < |Fifo(s.w, c)| ensures InRow(s.w, c, Fifo(s.w, c)[k]) && !OnQueue(s.w, Fifo(s.w, c)[k]) {
        assert OnQueue(s.w, Fifo(s.w, c)[k]) ==> ActiveIn(s.w, c);
      }
    }
    forall g | g in s.w.jobs ensures 0 < g && PairOk(s.w.jobs, g) { assert JobOk(s.w, s.page, s.used, g); }
  }

  lemma DoneSound(s: State, g: nat, err: bool)
    requires Sound(s.w) && g in s.w.jobs && (forall c: Cell :: g !in Fifo(s.w, c))
    ensures Sound(JobDone(s, g, err).w)
  {
    var t := JobDone(s, g, err).w;
    forall c: Cell ensures RowApart(t, c) {
      assert RowApart(s.w, c);
      assert Fifo(t, c) == Fifo(s.w, c);
      forall k | 0 <= k < |Fifo(t, c)| ensures InRow(t, c, Fifo(t, c)[k]) && !OnQueue(t, Fifo(t, c)[k]) {
        assert InRow(s.w, c, Fifo(s.w, c)[k]) && !OnQueue(s.w, Fifo(s.w, c)[k]);
      }
    }
    forall q: nat ensures QueueOk(t, q) { assert QueueOk(s.w, q); }
    forall x | x in t.jobs ensures 0 < x && PairOk(t.jobs, x) { assert PairOk(s.w.jobs, x); }
  }

  lemma PoppedSound(s: State, c: Cell)
    requires Sound(s.w) && Fifo(s.w, c) != []
    ensures Sound(Popped(s, c).w)
    ensures forall d: Cell :: Fifo(s.w, c)[0] !in Fifo(Popped(s, c).w, d)
  {
    var t := Popped(s, c).w;
    assert RowApart(s.w, c);
    forall d: Cell ensures RowApart(t, d) && Fifo(s.w, c)[0] !in Fifo(t, d) {
      assert RowApart(s.w, d);
      assert Fifo(t, d) == if d == c then Fifo(s.w, c)[1..] else Fifo(s.w, d);
      forall k | 0 <= k < |Fifo(t, d)| ensures InRow(t, d, Fifo(t, d)[k]) && !OnQueue(t, Fifo(t, d)[k]) {
        var x := Fifo(s.w, d)[if d == c then k + 1 else k];
        assert InRow(s.w, d, x) && Fifo(t, d)[k] == x && !OnQueue(s.w, x);
      }
    }
    forall q: nat ensures QueueOk(t, q) { assert QueueOk(s.w, q); }
  }

  lemma KickSound(s: State, c: Cell)
    requires Sound(s.w) && Fifo(s.w, c) != [] && c.queue !in s.w.active
    ensures Sound(Kick(s, c).w)
  {
    KickApart(s, c);
  }

  lemma OldestUnique(s: State, c: Cell, d: Cell)
    requires Sound(s.w) && IsOldest(s, c) && IsOldest(s, d)
    ensures c == d
  {
    assert RowApart(s.w, c) && RowApart(s.w, d);
    assert InRow(s.w, c, Fifo(s.w, c)[0]) && InRow(s.w, d, Fifo(s.w, d)[0]);
  }

  /** Of the cells before (q, u) in the scan, `best` has the oldest ready head, if any has one. */
  ghost predicate OldestOf(s: State, found: bool, best: Cell, q: nat, u: nat) {
    && (found ==> HwHeadReady(s.w, s.page, best))
    && (forall d :: HwHeadReady(s.w, s.page, d) && (d.queue < q || (d.queue == q && d.slot < u)) ==>
          found && Fifo(s.w, best)[0] <= Fifo(s.w, d)[0])
  }

  ghost predicate NoFailedBefore(s: State, q: nat, u: nat) {
    forall c :: FailedHead(s, c) ==> c.queue > q || (c.queue == q && c.slot >= u)
  }

  lemma NoFailedLeft(s: State)
    requires NoFailedBefore(s, NQUEUES, 0)
    ensures NoneFailed(s)
  {
  }

  lemma NoFailedNext(s: State, q: nat, u: nat)
    requires NoFailedBefore(s, q, u) && !FailedHead(s, Cell(u, q))
    ensures NoFailedBefore(s, q, u + 1)
  {
  }

  class RenderServer {
    var jobs: map<nat, Job>
    var fifo: map<Cell, seq<nat>>
    var active: map<nat, nat>
    var gseq: nat
    var slotGen: map<nat, nat>
    var completed: map<Cell, nat>
    var nextSeq: map<Cell, nat>
    var deadFlush: map<Cell, nat>
    var hwSubmitted: map<nat, nat>
    var hwCompleted: map<nat, nat>
    var nbusy: int
    var rr: map<nat, nat>
    var mode: Mode
    var used: set<nat>
    var syncs: map<SyncKey, Sync>
    var last: map<nat, map<nat, Fence>>

    ghost function Abs(): State
      reads this
    {
      State(Work(jobs, fifo, active, gseq), Page(slotGen, completed, nextSeq, deadFlush),
            Meter(hwSubmitted, hwCompleted, nbusy), rr, mode, used, syncs, last)
    }

    constructor (m: Mode)
      ensures Abs() == Init(m)
    {
      jobs, fifo, active, gseq := map[], map[], map[], 0;
      slotGen, completed, nextSeq, deadFlush := map[], map[], map[], map[];
      hwSubmitted, hwCompleted, nbusy := map[], map[], 0;
      rr, mode, used, syncs, last := map[], m, {}, map[], map[];
    }

    /** v3da_fence_signaled */
    method FenceSignaled(f: Fence) returns (r: bool)
      ensures r == Signaled(Abs().page, f)
    {
      if f.slot >= NSLOTS || f.queue >= NQUEUES {
        return true;
      }
      if Num(slotGen, f.slot) % GEN_MOD != f.gen {
        return true;
      }
      return Num(completed, CellOf(f)) >= f.seqno;
    }

    /** job_ready */
    method JobReady(g: nat) returns (r: bool)
      requires g in jobs
      ensures r == Ready(Abs().w, Abs().page, g)
    {
      if jobs[g].fence.queue == RENDER && jobs[g].bin != 0 {
        return false;
      }
      var i := 0;
      while i < |jobs[g].deps|
        invariant 0 <= i <= |jobs[g].deps|
        invariant forall k :: 0 <= k < i ==> Signaled(Abs().page, jobs[g].deps[k])
      {
        var sig := FenceSignaled(jobs[g].deps[i]);
        if !sig {
          return false;
        }
        i := i + 1;
      }
      return true;
    }

    /** fifo_pop and job_kick */
    method PopAndKick(c: Cell)
      requires c in fifo && fifo[c] != []
      modifies this
      ensures Abs() == Kick(old(Abs()), c)
    {
      var g := fifo[c][0];
      fifo := fifo[c := fifo[c][1..]];
      active := active[c.queue := g];
      hwSubmitted := hwSubmitted[c.queue := Num(hwSubmitted, c.queue) + 1];
      if IsHw(c.queue) {
        nbusy := nbusy + 1;
      }
    }

    method HeadIsReady(c: Cell) returns (r: bool)
      requires RowApart(Abs().w, c)
      ensures r == HeadReady(Abs().w, Abs().page, c)
    {
      if c !in fifo || fifo[c] == [] {
        return false;
      }
      assert InRow(Abs().w, c, Fifo(Abs().w, c)[0]);
      r := JobReady(fifo[c][0]);
    }

    /** The scan of one queue over the clients, from the round-robin cursor. */
    method ScanFrom(q: nat) returns (i: nat)
      requires forall c: Cell :: RowApart(Abs().w, c)
      ensures i == FirstReady(Abs(), q, FIRST)
    {
      i := 0;
      while i < NSLOTS
        invariant i <= NSLOTS
        invariant FirstReady(Abs(), q, FIRST) == FirstReady(Abs(), q, i)
      {
        var c := Cell((Num(rr, q) + i) % NSLOTS, q);
        assert RowApart(Abs().w, c);
        var ready := HeadIsReady(c);
        if ready {
          return;
        }
        i := i + 1;
      }
    }

    /** The round-robin turn of one queue. */
    method KickRoundRobin(q: nat)
      requires forall c: Cell :: RowApart(Abs().w, c)
      modifies this
      ensures Abs() == KickNext(old(Abs()), q)
    {
      if q !in active {
        var i := ScanFrom(q);
        if i < NSLOTS {
          var idx := (Num(rr, q) + i) % NSLOTS;
          ghost var s := Abs();
          PopAndKick(Cell(idx, q));
          rr := rr[q := idx + 1];
          assert Abs() == Kick(s, Cell(idx, q)).(rr := s.rr[q := idx + 1]);
        }
      }
    }

    /** The oldest ready head over all hardware queues and clients. */
    method FindOldest() returns (found: bool, best: Cell)
      requires forall c: Cell :: RowApart(Abs().w, c)
      ensures found ==> IsOldest(Abs(), best)
      ensures !found ==> forall c :: !HwHeadReady(Abs().w, Abs().page, c)
    {
      found, best := false, Cell(0, 0);
      var q := 0;
      while q < NQUEUES
        invariant 0 <= q <= NQUEUES
        invariant OldestOf(Abs(), found, best, q, 0)
      {
        if IsHw(q) {
          found, best := FindOldestIn(q, found, best);
        }
        q := q + 1;
      }
    }

    method FindOldestIn(q: nat, found0: bool, best0: Cell) returns (found: bool, best: Cell)
      requires forall c: Cell :: RowApart(Abs().w, c)
      requires OldestOf(Abs(), found0, best0, q, 0) && IsHw(q)
      ensures OldestOf(Abs(), found, best, q + 1, 0)
    {
      found, best := found0, best0;
      var u := 0;
      while u < NSLOTS
        invariant 0 <= u <= NSLOTS
        invariant OldestOf(Abs(), found, best, q, u)
      {
        var c := Cell(u, q);
        assert RowApart(Abs().w, c);
        var ready := HeadIsReady(c);
        if ready && (!found || fifo[c][0] < fifo[best][0]) {
          found, best := true, c;
        }
        u := u + 1;
      }
    }

    /** The SERIAL half of v3da_sched_run. */
    method KickOldest()
      requires Sound(Abs().w)
      modifies this
      ensures Abs() == RunSerial(old(Abs()))
    {
      if nbusy == 0 {
        var found, best := FindOldest();
        if found {
          forall d | IsOldest(Abs(), d) ensures d == best { OldestUnique(Abs(), d, best); }
          PopAndKick(best);
        }
      }
    }

    /** The PIPELINE half of v3da_sched_run: every hardware queue on its own. */
    method KickPipeline()
      requires Sound(Abs().w)
      modifies this
      ensures Abs() == RunPipeline(old(Abs()), BIN)
    {
      var q: nat := BIN;
      while q < NQUEUES
        invariant q <= NQUEUES && Sound(Abs().w)
        invariant RunPipeline(Abs(), q) == RunPipeline(old(Abs()), BIN)
      {
        KickHw(q);
        q := q + 1;
      }
    }

    method KickHw(q: nat)
      requires Sound(Abs().w) && q < NQUEUES
      modifies this
      ensures Sound(Abs().w) && RunPipeline(Abs(), q + 1) == RunPipeline(old(Abs()), q)
    {
      if IsHw(q) {
        ghost var s := Abs();
        KickRoundRobin(q);
        KickNextSound(s, q);
      }
    }

    /** v3da_sched_run */
    method SchedRun()
      requires Sound(Abs().w)
      modifies this
      ensures SchedFailures.SchedRun(old(Abs()), Abs())
    {
      ghost var cs := ReapFailedHeads();
      ghost var s := Abs();
      KickRoundRobin(CPU);
      KickNextSound(s, CPU);
      if mode == Serial {
        KickOldest();
      } else {
        KickPipeline();
      }
      ReapedThenRun(old(Abs()), cs, s, Abs());
    }

    /** v3da_sched_run where no dependency has failed: exactly the dispatch. */
    method Run()
      requires Inv(Abs())
      modifies this
      ensures Abs() == Dispatch(old(Abs()))
    {
      RunFor(used);
    }

    /** v3da_fence_complete, without the error word. */
    method FenceComplete(f: Fence)
      modifies this`completed, this`hwCompleted
      ensures completed == old(completed)[CellOf(f) := CompletedSeq(old(Abs()).page, used, f)]
      ensures hwCompleted == old(hwCompleted)[f.queue := Num(old(hwCompleted), f.queue) + 1]
    {
      var seq' := f.seqno;
      if f.slot !in used && Num(deadFlush, CellOf(f)) > seq' {
        seq' := Num(deadFlush, CellOf(f));
      }
      completed := completed[CellOf(f) := seq'];
      hwCompleted := hwCompleted[f.queue := Num(hwCompleted, f.queue) + 1];
    }

    /** The queue half of job_done. */
    method LeaveQueue(g: nat, q: nat)
      requires g in jobs && jobs[g].fence.queue == q
      modifies this`active, this`nbusy, this`hwSubmitted
      ensures var on := old(OnQueue(Abs().w, g));
        && active == (if on then old(active) - {q} else old(active))
        && nbusy == (if on && IsHw(q) then old(nbusy) - 1 else old(nbusy))
        && hwSubmitted == (if on then old(hwSubmitted) else old(hwSubmitted)[q := Num(old(hwSubmitted), q) + 1])
    {
      if q in active && active[q] == g {
        if IsHw(q) {
          nbusy := nbusy - 1;
        }
        active := active - {q};
      } else {
        hwSubmitted := hwSubmitted[q := Num(hwSubmitted, q) + 1];
      }
    }

    /** The pointer half of job_done: the job's pair forgets it, and it is freed. */
    method UnlinkAndFree(g: nat, err: bool)
      requires g in jobs && PairsOk(jobs)
      modifies this`jobs
      ensures jobs == DoneJobs(old(jobs), g, err)
    {
      var j := jobs[g];
      UnlinkIsDone(jobs, g, err);
      if j.fence.queue == BIN && j.render != 0 {
        jobs := jobs[j.render := jobs[j.render].(bin := 0, depError := jobs[j.render].depError || err)];
      }
      if j.bin != 0 {
        jobs := jobs[j.bin := jobs[j.bin].(render := 0)];
      }
      jobs := jobs - {g};
    }

    /** job_done */
    method JobDone(g: nat, err: bool)
      requires g in jobs && PairsOk(jobs)
      modifies this`jobs, this`active, this`nbusy, this`hwSubmitted, this`hwCompleted, this`completed
      ensures Abs() == SchedState.JobDone(old(Abs()), g, err)
    {
      var f := jobs[g].fence;
      Retire(g, err);
      FenceComplete(f);
    }

    /** All but the fence. */
    method Retire(g: nat, err: bool)
      requires g in jobs && PairsOk(jobs)
      modifies this`jobs, this`active, this`nbusy, this`hwSubmitted
      ensures Abs().w == TakeOff(old(Abs()).w, g, err)
      ensures var q, on := old(jobs[g].fence.queue), old(OnQueue(Abs().w, g));
        && nbusy == (if on && IsHw(q) then old(nbusy) - 1 else old(nbusy))
        && hwSubmitted == (if on then old(hwSubmitted) else old(hwSubmitted)[q := Num(old(hwSubmitted), q) + 1])
    {
      LeaveQueue(g, jobs[g].fence.queue);
      UnlinkAndFree(g, err);
    }

    /** reap_failed_heads */
    method ReapFailedHeads() returns (ghost cs: seq<Cell>)
      requires Sound(Abs().w)
      modifies this
      ensures Reaps(old(Abs()), cs, Abs()) && Sound(Abs().w) && NoneFailed(Abs())
    {
      cs := [];
      var again := true;
      while again
        invariant Reaps(old(Abs()), cs, Abs()) && Sound(Abs().w)
        invariant !again ==> NoneFailed(Abs())
        decreases |jobs|, again
      {
        cs, again := ReapPass(old(Abs()), cs);
      }
    }

    /** One round of its outer loop. */
    method ReapPass(ghost s: State, ghost cs0: seq<Cell>) returns (ghost cs: seq<Cell>, again: bool)
      requires Sound(Abs().w) && Reaps(s, cs0, Abs())
      modifies this
      ensures Reaps(s, cs, Abs()) && Sound(Abs().w)
      ensures |jobs| <= old(|jobs|) && (again ==> |jobs| < old(|jobs|))
      ensures !again ==> NoneFailed(Abs())
    {
      cs, again := cs0, false;
      var q := 0;
      while q < NQUEUES
        invariant 0 <= q <= NQUEUES
        invariant Reaps(s, cs, Abs()) && Sound(Abs().w)
        invariant |jobs| <= old(|jobs|) && (again ==> |jobs| < old(|jobs|))
        invariant !again ==> NoFailedBefore(Abs(), q, 0)
      {
        cs, again := ReapQueue(s, cs, q, again);
        q := q + 1;
      }
      if !again { NoFailedLeft(Abs()); }
    }

    method ReapQueue(ghost s: State, ghost cs0: seq<Cell>, q: nat, again0: bool) returns (ghost cs: seq<Cell>, again: bool)
      requires Sound(Abs().w) && Reaps(s, cs0, Abs()) && q < NQUEUES
      requires !again0 ==> NoFailedBefore(Abs(), q, 0)
      modifies this
      ensures Reaps(s, cs, Abs()) && Sound(Abs().w)
      ensures again0 ==> again
      ensures |jobs| <= old(|jobs|) && (again && !again0 ==> |jobs| < old(|jobs|))
      ensures !again ==> NoFailedBefore(Abs(), q + 1, 0)
    {
      cs, again := cs0, again0;
      var u := 0;
      while u < NSLOTS
        invariant 0 <= u <= NSLOTS
        invariant Reaps(s, cs, Abs()) && Sound(Abs().w)
        invariant again0 ==> again
        invariant |jobs| <= old(|jobs|) && (again && !again0 ==> |jobs| < old(|jobs|))
        invariant !again ==> NoFailedBefore(Abs(), q, u)
      {
        var reaped;
        cs, reaped := ReapNext(s, cs, Cell(u, q));
        again := again || reaped;
        if !again { NoFailedNext(Abs(), q, u); }
        u := u + 1;
      }
    }

    /** The body of its loops, with the list of what has been reaped. */
    method ReapNext(ghost s: State, ghost cs0: seq<Cell>, c: Cell) returns (ghost cs: seq<Cell>, reaped: bool)
      requires Sound(Abs().w) && Reaps(s, cs0, Abs()) && c.slot < NSLOTS && c.queue < NQUEUES
      modifies this
      ensures Reaps(s, cs, Abs()) && Sound(Abs().w)
      ensures !reaped ==> Abs() == old(Abs()) && !FailedHead(Abs(), c)
      ensures |jobs| <= old(|jobs|) && (reaped ==> |jobs| < old(|jobs|))
    {
      cs := cs0;
      ghost var r := Abs();
      reaped := ReapHead(c);
      if reaped {
        ReapsExtend(s, cs, r, c);
        cs := cs + [c];
      }
    }

    /** One head, completed if its dependency failed and it is ready. */
    method ReapHead(c: Cell) returns (reaped: bool)
      requires Sound(Abs().w) && c.slot < NSLOTS && c.queue < NQUEUES
      modifies this
      ensures reaped == FailedHead(old(Abs()), c)
      ensures Abs() == if reaped then Reap(old(Abs()), c) else old(Abs())
      ensures Sound(Abs().w) && |jobs| == old(|jobs|) - if reaped then 1 else 0
    {
      reaped := false;
      if c in fifo && fifo[c] != [] {
        ghost var s := Abs();
        var g := fifo[c][0];
        assert RowApart(s.w, c);
        assert InRow(s.w, c, Fifo(s.w, c)[0]);
        if jobs[g].depError {
          reaped := JobReady(g);
          if reaped {
            PoppedSound(s, c);
            fifo := fifo[c := fifo[c][1..]];
            assert Abs() == Popped(s, c);
            DoneSound(Abs(), g, true);
            assert SchedState.JobDone(Abs(), g, true).w.jobs.Keys == jobs.Keys - {g};
            JobDone(g, true);
          }
        }
      }
    }

    // ----------------------------------------------------------------------
    // Events
    // ----------------------------------------------------------------------

    method FinishActive(q: nat)
      requires Inv(Abs())
      modifies this
      ensures Abs() == CompleteEach(old(Abs()), [q]) && Inv(Abs())
    {
      ghost var s := Abs();
      assert CompleteEach(s, [q]) == if q in s.w.active && s.w.active[q] in s.w.jobs
        then SchedState.JobDone(s, s.w.active[q], false) else s by { assert [q][1..] == []; }
      if q in active {
        assert QueueOk(s.w, q);
        InvSound(s);
        DoneKeeps(s, s.w.active[q]);
        JobDone(active[q], false);
      }
    }

    /** The completions of v3da_jobs_events and v3da_jobs_tick: each queue reported done. */
    method FinishEach(done: seq<nat>)
      requires Inv(Abs())
      modifies this
      ensures Abs() == CompleteEach(old(Abs()), done) && Inv(Abs())
    {
      ghost var s := Abs();
      var i := 0;
      while i < |done|
        invariant 0 <= i <= |done| && Inv(Abs())
        invariant Abs() == CompleteEach(s, done[..i])
      {
        CompleteEachAppend(s, done[..i], [done[i]]);
        assert done[..i + 1] == done[..i] + [done[i]];
        FinishActive(done[i]);
        i := i + 1;
      }
      assert done[..|done|] == done;
    }

    /** The event thread's pass over jobs: completions, then v3da_sched_run. */
    method EventPass(done: seq<nat>)
      requires Inv(Abs())
      modifies this
      ensures Abs() == SchedState.EventPass(old(Abs()), done)
    {
      FinishEach(done);
      Run();
    }

    // ----------------------------------------------------------------------
    // Clients
    // ----------------------------------------------------------------------

    /** v3da_slot_busy */
    method IsSlotBusy(slot: nat) returns (busy: bool)
      requires forall q: nat :: QueueOk(Abs().w, q)
      ensures busy == SlotBusy(Abs().w, slot)
    {
      var q := 0;
      while q < NQUEUES
        invariant 0 <= q <= NQUEUES
        invariant forall p :: 0 <= p < q ==> !ActiveIn(Abs().w, Cell(slot, p))
      {
        if q in active {
          assert QueueOk(Abs().w, q);
          if jobs[active[q]].fence.slot == slot {
            assert ActiveIn(Abs().w, Cell(slot, q));
            return true;
          }
        }
        q := q + 1;
      }
      return false;
    }

    method FindFree() returns (i: nat)
      requires forall q: nat :: QueueOk(Abs().w, q)
      ensures i <= NSLOTS && (i < NSLOTS ==> Free(Abs(), i))
      ensures forall u: nat :: u < i ==> !Free(Abs(), u)
    {
      i := 0;
      while i < NSLOTS
        invariant i <= NSLOTS
        invariant forall u: nat :: u < i ==> !Free(Abs(), u)
      {
        if i !in used {
          var busy := IsSlotBusy(i);
          if !busy {
            return;
          }
        }
        i := i + 1;
      }
    }

    /** client_open: the first free slot, or none. The result is the client id, 0 for none. */
    method ClientOpen() returns (id: nat)
      requires Inv(Abs())
      modifies this
      ensures id == 0 ==> Abs() == old(Abs()) && forall u: nat :: !Free(Abs(), u)
      ensures id != 0 ==> Free(old(Abs()), id - 1) && forall u: nat :: u < id - 1 ==> !Free(old(Abs()), u)
      ensures id != 0 ==> Abs() == Open(old(Abs()), id - 1)
    {
      var i := FindFree();
      if i == NSLOTS {
        return 0;
      }
      ClientInit(i);
      return i + 1;
    }

    method ClientInit(slot: nat)
      modifies this
      ensures Abs() == Open(old(Abs()), slot)
    {
      SlotAssign(slot);
      used := used + {slot};
      syncs := map k | k in syncs && k.slot != slot :: syncs[k];
    }

    /** v3da_slot_assign, with the client's zeroed seqnos. */
    method SlotAssign(slot: nat)
      modifies this`completed, this`nextSeq, this`deadFlush, this`slotGen
      ensures Abs().page == Assign(old(Abs()).page, slot)
    {
      completed := StoreZeroes(completed, slot);
      nextSeq := StoreZeroes(nextSeq, slot);
      deadFlush := StoreZeroes(deadFlush, slot);
      slotGen := slotGen[slot := Num(slotGen, slot) + 1];
    }

    static method StoreZeroes(m: map<Cell, nat>, slot: nat) returns (r: map<Cell, nat>)
      ensures r == ZeroRow(m, slot)
    {
      r := m;
      NextCell(slot, 0);
      OverlayNext(m, {}, map[], Cell(slot, 0));
      var q: nat := 0;
      while q < NQUEUES
        invariant q <= NQUEUES && r == Overlay(m, CellsUpTo(slot, q), map[])
      {
        NextCell(slot, q);
        OverlayNext(m, CellsUpTo(slot, q), map[], Cell(slot, q));
        r := r[Cell(slot, q) := 0];
        q := q + 1;
      }
    }

    /** v3da_jobs_client_gone: discard what is queued, flush the row, run the scheduler. */
    method JobsClientGone(slot: nat)
      requires Inv(Abs()) && slot in used
      modifies this
      ensures Abs() == Dispatch(Gone(old(Abs()), slot))
    {
      ghost var s := Abs();
      InvSound(s);
      GoneKeeps(s, slot);
      DiscardQueued(slot);
      forall q | q in active ensures active[q] in jobs { assert QueueOk(Gone(s, slot).w, q); }
      FlushDead(slot);
      assert Abs() == Gone(s, slot);
      RunFor(s.used - {slot});
    }

    /** client_close, as far as jobs and fences go. */
    method ClientClose(slot: nat)
      requires Inv(Abs()) && slot in used
      modifies this
      ensures Abs() == Next(old(Abs()), CloseClient(slot))
    {
      JobsClientGone(slot);
      used := used - {slot};
    }

    /** v3da_sched_run while a closing client still counts as used. */
    method RunFor(ghost stay: set<nat>)
      requires InvFor(Abs(), stay)
      modifies this
      ensures Abs() == Dispatch(old(Abs()))
    {
      ghost var s := Abs();
      InvSound(s.(used := stay));
      SchedRun();
      SchedRunIsDispatchFor(s, stay, Abs());
    }

    /** The discarding loops: every FIFO of the slot, job by job. */
    method DiscardQueued(slot: nat)
      requires Sound(Abs().w)
      modifies this`jobs, this`fifo
      ensures Abs().w == Discard(old(Abs()).w, slot)
    {
      ghost var w := Abs().w;
      DropNothing(w, slot);
      var q := 0;
      while q < NQUEUES
        invariant 0 <= q <= NQUEUES
        invariant jobs == DropJobs(w.jobs, DroppedBefore(w, slot, q)) && fifo == EmptiedBefore(w.fifo, slot, q)
      {
        DiscardQueue(w, slot, q);
        q := q + 1;
      }
      DroppedAll(w, slot);
      assert Abs().w == w.(jobs := jobs, fifo := fifo);
    }

    method DiscardQueue(ghost w: Work, slot: nat, q: nat)
      requires Sound(w) && q < NQUEUES
      requires jobs == DropJobs(w.jobs, DroppedBefore(w, slot, q)) && fifo == EmptiedBefore(w.fifo, slot, q)
      modifies this`jobs, this`fifo
      ensures jobs == DropJobs(w.jobs, DroppedBefore(w, slot, q + 1)) && fifo == EmptiedBefore(w.fifo, slot, q + 1)
    {
      assert RowApart(w, Cell(slot, q));
      EmptyNext(w, slot, q);
      if Cell(slot, q) in fifo {
        DiscardRow(w, Cell(slot, q));
      }
    }

    method DiscardRow(ghost w: Work, c: Cell)
      requires Sound(w) && c in w.fifo
      requires jobs == DropJobs(w.jobs, DroppedBefore(w, c.slot, c.queue)) && c in fifo && fifo[c] == w.fifo[c]
      modifies this`jobs, this`fifo
      ensures jobs == DropJobs(w.jobs, DroppedBefore(w, c.slot, c.queue) + Elements(w.fifo[c]))
      ensures fifo == old(fifo)[c := []]
    {
      ghost var k := 0;
      ghost var row := w.fifo[c];
      ghost var before := DroppedBefore(w, c.slot, c.queue);
      assert row[..0] == [] && before + Elements(row[..0]) == before;
      while fifo[c] != []
        invariant c in fifo && fifo == old(fifo)[c := fifo[c]]
        invariant 0 <= k <= |row| && fifo[c] == row[k..]
        invariant jobs == DropJobs(w.jobs, before + Elements(row[..k]))
        decreases |fifo[c]|
      {
        var g := fifo[c][0];
        PopElements(w, c, k);
        fifo := fifo[c := fifo[c][1..]];
        JobDiscard(w.jobs, before + Elements(row[..k]), g);
        assert before + Elements(row[..k]) + {g} == before + Elements(row[..k + 1]);
        k := k + 1;
      }
      assert row[..k] == row;
    }

    /** job_discard: its pair forgets it, and it is freed. */
    method JobDiscard(ghost all: map<nat, Job>, ghost dropped: set<nat>, g: nat)
      requires PairsOk(all) && g in all && g !in dropped && jobs == DropJobs(all, dropped)
      modifies this`jobs
      ensures jobs == DropJobs(all, dropped + {g})
    {
      DropPointers(all, dropped, g);
      DropOne(all, dropped, g);
      var j := jobs[g];
      if j.bin != 0 {
        jobs := jobs[j.bin := jobs[j.bin].(render := 0)];
      }
      if j.render != 0 {
        jobs := jobs[j.render := jobs[j.render].(bin := 0)];
      }
      jobs := jobs - {g};
    }

    /** The flushing half of v3da_jobs_client_gone. */
    method FlushDead(slot: nat)
      requires forall q :: q in active ==> active[q] in jobs
      modifies this`completed, this`deadFlush
      ensures Abs().page == FlushRow(old(Abs()).page, Abs().w, slot)
    {
      FlushEnds(Abs().page, Abs().w, slot);
      completed, deadFlush := FlushTables(jobs, active, nextSeq, completed, deadFlush, slot, Abs().w, Abs().page);
    }

    /** Its loop: queues with nothing of the client on them complete its row. */
    static method FlushTables(jobs: map<nat, Job>, active: map<nat, nat>, nextSeq: map<Cell, nat>, completed: map<Cell, nat>,
        deadFlush: map<Cell, nat>, slot: nat, ghost w: Work, ghost p: Page)
      returns (done: map<Cell, nat>, dead: map<Cell, nat>)
      requires forall q :: q in active ==> active[q] in jobs
      requires w.jobs == jobs && w.active == active
      requires p.nextSeq == nextSeq && p.completed == completed && p.deadFlush == deadFlush
      ensures dead == DeadUpTo(p, slot, NQUEUES) && done == DoneUpTo(p, w, slot, NQUEUES)
    {
      done, dead := completed, deadFlush;
      for q := 0 to NQUEUES
        invariant dead == DeadUpTo(p, slot, q) && done == DoneUpTo(p, w, slot, q)
      {
        done, dead := FlushOne(jobs, active, done, dead, Cell(slot, q), Num(nextSeq, Cell(slot, q)));
      }
    }

    static method FlushOne(jobs: map<nat, Job>, active: map<nat, nat>, done0: map<Cell, nat>, dead0: map<Cell, nat>, c: Cell,
        seqno: nat)
      returns (done: map<Cell, nat>, dead: map<Cell, nat>)
      requires forall q :: q in active ==> active[q] in jobs
      ensures dead == dead0[c := seqno]
      ensures done == if (c.queue !in active || jobs[active[c.queue]].fence.slot != c.slot) && seqno > Num(done0, c)
                      then done0[c := seqno] else done0
    {
      done, dead := done0, dead0[c := seqno];
      if c.queue !in active || jobs[active[c.queue]].fence.slot != c.slot {
        if seqno > Num(done, c) {
          done := done[c := seqno];
        }
      }
    }

    // ----------------------------------------------------------------------
    // Submission
    // ----------------------------------------------------------------------

    /** v3da_fence_set_add */
    static method FenceSetAdd(d: DepSet, f: Fence) returns (r: DepSet)
      ensures r == SetAdd(d, f)
    {
      var i: nat := 0;
      while i < |d.deps|
        invariant i <= |d.deps| && FindLine(d.deps, f, FIRST) == FindLine(d.deps, f, i)
      {
        if d.deps[i].slot == f.slot && d.deps[i].queue == f.queue && d.deps[i].gen == f.gen {
          if f.seqno > d.deps[i].seqno {
            return d.(deps := d.deps[i := d.deps[i].(seqno := f.seqno)]);
          }
          return d;
        }
        i := i + 1;
      }
      if |d.deps| >= MAX_DEPS {
        return d.(dropped := d.dropped + 1);
      }
      return d.(deps := d.deps + [f]);
    }

    /** The queues of one buffer in v3da_bo_implicit_deps. */
    method AddBoDeps(skip: set<nat>, h: nat, d0: DepSet) returns (d: DepSet)
      ensures d == BoDeps(Abs(), skip, h, BIN, d0)
    {
      d := d0;
      if h !in last {
        NoRecordNoDeps(Abs(), skip, h, BIN, d0);
        return;
      }
      var q: nat := BIN;
      while q < NQUEUES
        invariant q <= NQUEUES && BoDeps(Abs(), skip, h, BIN, d0) == BoDeps(Abs(), skip, h, q, d)
      {
        if q in last[h] && last[h][q].seqno != 0 && last[h][q].slot !in skip {
          var sig := FenceSignaled(last[h][q]);
          if !sig {
            d := FenceSetAdd(d, last[h][q]);
          }
        }
        q := q + 1;
      }
    }

    /** v3da_bo_implicit_deps */
    method AddImplicitDeps(skip: set<nat>, bos: seq<nat>, d0: DepSet) returns (d: DepSet)
      ensures d == ImplicitDeps(Abs(), skip, bos, d0)
    {
      d := d0;
      var i := 0;
      assert bos[0..] == bos;
      while i < |bos|
        invariant 0 <= i <= |bos| && ImplicitDeps(Abs(), skip, bos, d0) == ImplicitDeps(Abs(), skip, bos[i..], d)
      {
        assert bos[i..][1..] == bos[i + 1..];
        d := AddBoDeps(skip, bos[i], d);
        i := i + 1;
      }
    }

    /** add_dep over the in-syncs, for one of the submit's jobs. */
    method AddExplicitDeps(slot: nat, ins: seq<InSem>, flags: set<bool>) returns (deps: seq<Fence>)
      ensures deps == ExplicitDeps(Abs(), slot, ins, flags)
    {
      deps := [];
      var i := 0;
      while i < |ins|
        invariant 0 <= i <= |ins| && deps == ExplicitDeps(Abs(), slot, ins[..i], flags)
      {
        assert ins[..i + 1][..i] == ins[..i];
        var k := SyncKey(slot, ins[i].handle);
        if ins[i].render in flags && k in syncs && syncs[k].Attached? {
          var sig := FenceSignaled(syncs[k].fence);
          if !sig && |deps| < MAX_DEPS {
            deps := deps + [syncs[k].fence];
          }
        }
        i := i + 1;
      }
      assert ins[..|ins|] == ins;
    }

    /** job_new, the seqno and fifo_push. */
    method PushJob(slot: nat, q: nat, deps: seq<Fence>, bos: seq<nat>)
      modifies this`jobs, this`gseq, this`nextSeq, this`fifo
      ensures Abs() == Enqueue(old(Abs()), slot, q, deps, bos)
    {
      var f := TakeFence(slot, q);
      FifoPush(Job(f, deps, 0, 0, false, bos));
    }

    /** The next fence of a row. */
    method TakeFence(slot: nat, q: nat) returns (f: Fence)
      modifies this`nextSeq
      ensures f == NewFence(old(Abs()).page, slot, q)
      ensures Abs() == old(Abs()).(page := TakeSeq(old(Abs()).page, Cell(slot, q)))
    {
      f := Fence(slot, q, Num(slotGen, slot) % GEN_MOD, Num(nextSeq, Cell(slot, q)) + 1);
      nextSeq := nextSeq[Cell(slot, q) := f.seqno];
    }

    method FifoPush(j: Job)
      modifies this`jobs, this`gseq, this`fifo
      ensures Abs() == old(Abs()).(w := Push(old(Abs()).w, j))
    {
      var c := Cell(j.fence.slot, j.fence.queue);
      var g := gseq + 1;
      var row := if c in fifo then fifo[c] else [];
      jobs, gseq, fifo := jobs[g := j], g, fifo[c := row + [g]];
    }

    /** The jobs of an accepted submit, queued and linked. */
    method QueueJobs(slot: nat, rq: Request)
      modifies this`jobs, this`gseq, this`nextSeq, this`fifo
      ensures Abs() == Queue(old(Abs()), slot, rq)
    {
      var deps := AddExplicitDeps(slot, rq.ins, if HasPair(rq.op) then {false} else {false, true});
      var late := AddExplicitDeps(slot, rq.ins, {true});
      var first := AddImplicitDeps({slot}, rq.bos, DepSet(deps, 0));
      if HasPair(rq.op) {
        PushJob(slot, BIN, first.deps, []);
        var b := gseq;
        PushJob(slot, RENDER, late, rq.bos);
        jobs := jobs[b := jobs[b].(render := gseq)][gseq := jobs[gseq].(bin := b)];
      } else {
        PushJob(slot, OneQueue(rq.op), first.deps, rq.bos);
      }
    }

    /** v3da_bo_mark_use */
    static method MarkUses(last: map<nat, map<nat, Fence>>, bos: seq<nat>, f: Fence) returns (r: map<nat, map<nat, Fence>>)
      ensures r == MarkUse(last, bos, f)
    {
      r := last;
      var i := 0;
      while i < |bos|
        invariant 0 <= i <= |bos| && r == MarkUse(last, bos[..i], f)
      {
        MarkNext(last, bos, i, f);
        if bos[i] in r {
          r := r[bos[i] := SetLast(r[bos[i]], f)];
        }
        i := i + 1;
      }
      assert bos[..|bos|] == bos;
    }

    static method AttachOuts(syncs: map<SyncKey, Sync>, slot: nat, outs: seq<nat>, f: Fence) returns (r: map<SyncKey, Sync>)
      ensures r == SetOuts(syncs, slot, outs, f)
    {
      r := syncs;
      var i := 0;
      while i < |outs|
        invariant 0 <= i <= |outs| && r == SetOuts(syncs, slot, outs[..i], f)
      {
        assert forall h :: h in outs[..i + 1] <==> h in outs[..i] || h == outs[i];
        if SyncKey(slot, outs[i]) in r {
          r := r[SyncKey(slot, outs[i]) := Attached(f)];
        }
        i := i + 1;
      }
      assert outs[..|outs|] == outs;
    }

    /** The checks of v3da_submit. */
    method CheckSubmit(slot: nat, rq: Request) returns (rc: Rc)
      ensures rc == SubmitCheck(Abs(), slot, rq)
    {
      if |rq.bos| > MAX_BOS || |rq.ins| > MAX_DEPS || |rq.outs| > MAX_DEPS {
        return EInval;
      }
      var i := 0;
      while i < |rq.ins|
        invariant 0 <= i <= |rq.ins| && forall k :: 0 <= k < i ==> SyncKey(slot, rq.ins[k].handle) in syncs
      {
        if SyncKey(slot, rq.ins[i].handle) !in syncs {
          return ENoEnt;
        }
        i := i + 1;
      }
      i := 0;
      while i < |rq.outs|
        invariant 0 <= i <= |rq.outs| && forall k :: 0 <= k < i ==> SyncKey(slot, rq.outs[k]) in syncs
      {
        if SyncKey(slot, rq.outs[i]) !in syncs {
          return ENoEnt;
        }
        i := i + 1;
      }
      if rq.op.SubmitCl? && rq.op.rclEmpty {
        return EInval;
      }
      i := 0;
      while i < |rq.bos|
        invariant 0 <= i <= |rq.bos| && forall k :: 0 <= k < i ==> rq.bos[k] in last
      {
        if rq.bos[i] !in last {
          return ENoEnt;
        }
        i := i + 1;
      }
      return Ok;
    }

    /** v3da_submit */
    method SubmitJobs(slot: nat, rq: Request) returns (rc: Rc)
      requires Inv(Abs()) && slot in used
      modifies this
      ensures rc == SubmitCheck(old(Abs()), slot, rq)
      ensures Abs() == Next(old(Abs()), Submit(slot, rq))
    {
      ghost var s := Abs();
      rc := CheckSubmit(slot, rq);
      if rc.Ok? {
        var f := Fence(slot, OneQueue(rq.op), Num(slotGen, slot) % GEN_MOD, Num(nextSeq, Cell(slot, OneQueue(rq.op))) + 1);
        QueueJobs(slot, rq);
        Record(s, slot, rq, f);
        SubmittedKeeps(s, slot, rq);
        Run();
      }
    }

    /** The records of a submit: last uses and out-syncs. */
    method Record(ghost s: State, slot: nat, rq: Request, f: Fence)
      requires Abs() == Queue(s, slot, rq) && f == NewFence(s.page, slot, OneQueue(rq.op))
      modifies this`last, this`syncs
      ensures Abs() == Submitted(s, slot, rq)
    {
      QueueFrame(s, slot, rq);
      last := MarkUses(last, rq.bos, f);
      syncs := AttachOuts(syncs, slot, rq.outs, f);
    }

    /** v3da_bo_attach_fence, with its targets resolved to buffer handles. */
    method AttachJoin(slot: nat, bos: seq<nat>, f: Fence) returns (rc: Rc)
      requires Inv(Abs()) && Enabled(Abs(), AttachFence(slot, bos, f))
      modifies this
      ensures Abs() == Next(old(Abs()), AttachFence(slot, bos, f))
      ensures rc == EInval <==> f.seqno != 0 && !FenceValid(old(Abs()), f)
      ensures rc == EBusy ==> JoinDeps(old(Abs()), bos, f).dropped > 0
    {
      ghost var s := Abs();
      var valid := IsFenceValid(f);
      if f.seqno != 0 && !valid {
        return EInval;
      }
      if bos == [] {
        return ENoEnt;
      }
      var sig := FenceSignaled(f);
      if f.seqno == 0 || sig {
        return Ok;
      }
      var d := FenceSetAdd(DepSet([], 0), f);
      d := AddImplicitDeps({}, bos, d);
      if d.dropped > 0 {
        return EBusy;
      }
      PushJoin(slot, bos, f, d.deps);
      JoinedKeeps(s, slot, bos, f);
      Run();
      return Ok;
    }

    /** The zero-length job that stands for an attached fence, recorded as the buffers' last use. */
    method PushJoin(slot: nat, bos: seq<nat>, ghost f: Fence, deps: seq<Fence>)
      requires deps == JoinDeps(Abs(), bos, f).deps
      modifies this`jobs, this`gseq, this`nextSeq, this`fifo, this`last
      ensures Abs() == Joined(old(Abs()), slot, bos, f)
    {
      var g := Fence(slot, CPU, Num(slotGen, slot) % GEN_MOD, Num(nextSeq, Cell(slot, CPU)) + 1);
      PushJob(slot, CPU, deps, []);
      last := MarkUses(last, bos, g);
    }

    /** v3da_fence_valid */
    method IsFenceValid(f: Fence) returns (r: bool)
      ensures r == FenceValid(Abs(), f)
    {
      if f.slot >= NSLOTS || f.queue >= NQUEUES || f.seqno == 0 {
        return false;
      }
      if f.slot !in used || Num(slotGen, f.slot) % GEN_MOD != f.gen {
        return true;
      }
      return f.seqno <= Num(nextSeq, CellOf(f));
    }

    /** v3da_syncobj_import */
    method SyncobjImport(k: SyncKey, f: Fence) returns (ok: bool)
      modifies this`syncs
      ensures Abs() == Imported(old(Abs()), k, f)
      ensures ok <==> k in old(syncs) && (f.seqno == 0 || FenceValid(old(Abs()), f))
    {
      if k !in syncs {
        return false;
      }
      if f.seqno == 0 {
        syncs := syncs[k := Done];
        return true;
      }
      var valid := IsFenceValid(f);
      if valid {
        syncs := syncs[k := Attached(f)];
      }
      return valid;
    }
  }

  lemma QueueFrame(s: State, slot: nat, rq: Request)
    ensures Queue(s, slot, rq) == s.(w := Queue(s, slot, rq).w, page := Queue(s, slot, rq).page)
  {
  }

  lemma MarkNext(last: map<nat, map<nat, Fence>>, bos: seq<nat>, i: nat, f: Fence)
    requires i < |bos|
    ensures var r := MarkUse(last, bos[..i], f);
      && r.Keys == last.Keys
      && MarkUse(last, bos[..i + 1], f) == if bos[i] in r then r[bos[i] := SetLast(r[bos[i]], f)] else r
  {
    assert forall h :: h in bos[..i + 1] <==> h in bos[..i] || h == bos[i];
    var r := MarkUse(last, bos[..i], f);
    if bos[i] in last {
      assert SetLast(r[bos[i]], f) == SetLast(last[bos[i]], f);
    }
  }

  lemma NoRecordNoDeps(s: State, skip: set<nat>, h: nat, q: nat, d: DepSet)
    requires h !in s.last && q <= NQUEUES
    ensures BoDeps(s, skip, h, q, d) == d
    decreases NQUEUES - q
  {
    if q < NQUEUES {
      NoRecordNoDeps(s, skip, h, q + 1, d);
    }
  }

  lemma CompleteEachAppend(s: State, a: seq<nat>, b: seq<nat>)
    ensures CompleteEach(s, a + b) == CompleteEach(CompleteEach(s, a), b)
    decreases |a|
  {
    if a == [] {
      assert a + b == b;
    } else {
      assert (a + b)[1..] == a[1..] + b;
      var q := a[0];
      var t := if q in s.w.active && s.w.active[q] in s.w.jobs then JobDone(s, s.w.active[q], false) else s;
      CompleteEachAppend(t, a[1..], b);
    }
  }

  function CellsUpTo(slot: nat, n: nat): set<Cell> {
    set q: nat | q < n :: Cell(slot, q)
  }

  lemma NextCell(slot: nat, q: nat)
    ensures CellsUpTo(slot, q + 1) == CellsUpTo(slot, q) + {Cell(slot, q)} && Cell(slot, q) !in CellsUpTo(slot, q)
    ensures CellsUpTo(slot, 0) == {} && CellsUpTo(slot, NQUEUES) == RowCells(slot)
    ensures q < NQUEUES ==> Cell(slot, q) in RowCells(slot)
  {
  }

  lemma OverlayNext(m: map<Cell, nat>, cells: set<Cell>, v: map<Cell, nat>, c: Cell)
    ensures Overlay(m, cells + {c}, v) == Overlay(m, cells, v)[c := Num(v, c)]
    ensures Overlay(m, {}, v) == m
    ensures c !in cells ==> Num(Overlay(m, cells, v), c) == Num(m, c)
  {
  }

  // ------------------------------------------------------------------------
  // The discarding and flushing loops
  // ------------------------------------------------------------------------

  function Elements(s: seq<nat>): set<nat> {
    set i | 0 <= i < |s| :: s[i]
  }

  function DroppedBefore(w: Work, slot: nat, n: nat): set<nat> {
    set g | g in w.jobs && w.jobs[g].fence.slot == slot && w.jobs[g].fence.queue < n
      && g in Fifo(w, CellOf(w.jobs[g].fence))
  }

  function EmptiedBefore(fifo: map<Cell, seq<nat>>, slot: nat, n: nat): map<Cell, seq<nat>> {
    map c | c in fifo :: if c in CellsUpTo(slot, n) then [] else fifo[c]
  }

  lemma EmptyNext(w: Work, slot: nat, q: nat)
    requires RowApart(w, Cell(slot, q))
    ensures var c := Cell(slot, q);
      && (c in EmptiedBefore(w.fifo, slot, q) <==> c in w.fifo)
      && (c in w.fifo ==>
            && EmptiedBefore(w.fifo, slot, q)[c] == w.fifo[c]
            && DroppedBefore(w, slot, q + 1) == DroppedBefore(w, slot, q) + Elements(w.fifo[c])
            && EmptiedBefore(w.fifo, slot, q + 1) == EmptiedBefore(w.fifo, slot, q)[c := []])
      && (c !in w.fifo ==>
            && DroppedBefore(w, slot, q + 1) == DroppedBefore(w, slot, q)
            && EmptiedBefore(w.fifo, slot, q + 1) == EmptiedBefore(w.fifo, slot, q))
  {
    var c := Cell(slot, q);
    NextCell(slot, q);
    forall g: nat
      ensures g in DroppedBefore(w, slot, q + 1) <==> g in DroppedBefore(w, slot, q) || g in Elements(Fifo(w, c))
    {
      if g in Elements(Fifo(w, c)) {
        var k :| 0 <= k < |Fifo(w, c)| && Fifo(w, c)[k] == g;
        assert InRow(w, c, g);
      }
      if g in w.jobs && w.jobs[g].fence.slot == slot && w.jobs[g].fence.queue == q {
        assert CellOf(w.jobs[g].fence) == c;
      }
    }
  }

  lemma DropNothing(w: Work, slot: nat)
    ensures DropJobs(w.jobs, DroppedBefore(w, slot, 0)) == w.jobs && EmptiedBefore(w.fifo, slot, 0) == w.fifo
  {
    assert CellsUpTo(slot, 0) == {} && DroppedBefore(w, slot, 0) == {};
  }

  lemma PopElements(w: Work, c: Cell, k: nat)
    requires Sound(w) && c in w.fifo && k < |w.fifo[c]|
    ensures w.fifo[c][k] in w.jobs && w.fifo[c][k] !in Elements(w.fifo[c][..k])
    ensures Elements(w.fifo[c][..k + 1]) == Elements(w.fifo[c][..k]) + {w.fifo[c][k]}
    ensures w.fifo[c][k] !in DroppedBefore(w, c.slot, c.queue)
  {
    assert RowApart(w, c);
    assert InRow(w, c, Fifo(w, c)[k]);
    assert w.fifo[c][..k + 1] == w.fifo[c][..k] + [w.fifo[c][k]];
  }

  lemma DroppedAll(w: Work, slot: nat)
    ensures DroppedBefore(w, slot, NQUEUES) == set g | g in w.jobs && QueuedOf(w, slot, g)
    ensures EmptiedBefore(w.fifo, slot, NQUEUES) == Discard(w, slot).fifo
  {
    assert CellsUpTo(slot, NQUEUES) == RowCells(slot);
  }

  lemma DropPointers(all: map<nat, Job>, dropped: set<nat>, g: nat)
    requires PairsOk(all) && g in all && g !in dropped
    ensures var jobs := DropJobs(all, dropped);
      (jobs[g].bin != 0 ==> jobs[g].bin in jobs) && (jobs[g].render != 0 ==> jobs[g].render in jobs)
  {
    assert PairOk(all, g);
  }

  function ForgetRender(jobs: map<nat, Job>, g: nat): map<nat, Job>
    requires g in jobs && (jobs[g].bin != 0 ==> jobs[g].bin in jobs)
  {
    if jobs[g].bin != 0 then jobs[jobs[g].bin := jobs[jobs[g].bin].(render := 0)] else jobs
  }

  function ForgetBin(jobs: map<nat, Job>, r: nat): map<nat, Job>
    requires r != 0 ==> r in jobs
  {
    if r != 0 then jobs[r := jobs[r].(bin := 0)] else jobs
  }

  lemma DropOne(all: map<nat, Job>, dropped: set<nat>, g: nat)
    requires PairsOk(all) && g in all && g !in dropped
    requires var jobs := DropJobs(all, dropped);
      (jobs[g].bin != 0 ==> jobs[g].bin in jobs) && (jobs[g].render != 0 ==> jobs[g].render in jobs)
    ensures var jobs := DropJobs(all, dropped);
      ForgetBin(ForgetRender(jobs, g), jobs[g].render) - {g} == DropJobs(all, dropped + {g})
  {
    var jobs := DropJobs(all, dropped);
    var b := ForgetBin(ForgetRender(jobs, g), jobs[g].render);
    assert b.Keys == jobs.Keys;
    forall x | x in all && x !in dropped && x != g ensures b[x] == Cut(all[x], dropped + {g}) {
      CutOne(all, dropped, g, x);
    }
  }

  lemma CutOne(all: map<nat, Job>, dropped: set<nat>, g: nat, x: nat)
    requires PairsOk(all) && g in all && g !in dropped && x in all && x !in dropped && x != g
    requires var jobs := DropJobs(all, dropped);
      (jobs[g].bin != 0 ==> jobs[g].bin in jobs) && (jobs[g].render != 0 ==> jobs[g].render in jobs)
    ensures var jobs := DropJobs(all, dropped);
      x in ForgetBin(ForgetRender(jobs, g), jobs[g].render) &&
      ForgetBin(ForgetRender(jobs, g), jobs[g].render)[x] == Cut(all[x], dropped + {g})
  {
    assert PairOk(all, x) && PairOk(all, g);
  }

  /** The two tables after the flush has passed the queues below `n`. */
  function DeadUpTo(p: Page, slot: nat, n: nat): map<Cell, nat> {
    if n == 0 then p.deadFlush else DeadUpTo(p, slot, n - 1)[Cell(slot, n - 1) := Num(p.nextSeq, Cell(slot, n - 1))]
  }

  function DoneUpTo(p: Page, w: Work, slot: nat, n: nat): map<Cell, nat> {
    if n == 0 then p.completed
    else
      var c, done := Cell(slot, n - 1), DoneUpTo(p, w, slot, n - 1);
      if !ActiveIn(w, c) && Num(p.nextSeq, c) > Num(done, c) then done[c := Num(p.nextSeq, c)] else done
  }

  function DeadSpan(p: Page, slot: nat, n: nat): map<Cell, nat> {
    Overlay(p.deadFlush, CellsUpTo(slot, n), p.nextSeq)
  }

  function DoneSpan(p: Page, w: Work, slot: nat, n: nat): map<Cell, nat> {
    Overlay(p.completed, CellsUpTo(slot, n) * FlushedCells(p, w, slot), p.nextSeq)
  }

  lemma {:induction false} FlushSpans(p: Page, w: Work, slot: nat, n: nat)
    requires n <= NQUEUES
    ensures DeadUpTo(p, slot, n) == DeadSpan(p, slot, n) && DoneUpTo(p, w, slot, n) == DoneSpan(p, w, slot, n)
  {
    if n == 0 {
      NothingFlushed(p, w, slot);
    } else {
      FlushSpans(p, w, slot, n - 1);
      FlushNext(p, w, slot, n - 1);
    }
  }

  lemma NothingFlushed(p: Page, w: Work, slot: nat)
    ensures DeadSpan(p, slot, 0) == p.deadFlush && DoneSpan(p, w, slot, 0) == p.completed
  {
    NextCell(slot, 0);
    assert {} * FlushedCells(p, w, slot) == {};
    OverlayNext(p.deadFlush, {}, p.nextSeq, Cell(slot, 0));
    OverlayNext(p.completed, {}, p.nextSeq, Cell(slot, 0));
  }

  lemma FlushEnds(p: Page, w: Work, slot: nat)
    ensures p.(deadFlush := DeadUpTo(p, slot, NQUEUES), completed := DoneUpTo(p, w, slot, NQUEUES)) == FlushRow(p, w, slot)
  {
    FlushSpans(p, w, slot, NQUEUES);
    assert RowCells(slot) * FlushedCells(p, w, slot) == FlushedCells(p, w, slot);
  }

  lemma FlushNext(p: Page, w: Work, slot: nat, q: nat)
    requires q < NQUEUES
    ensures var c := Cell(slot, q);
      var done := DoneSpan(p, w, slot, q);
      && DeadSpan(p, slot, q + 1) == DeadSpan(p, slot, q)[c := Num(p.nextSeq, c)]
      && DoneSpan(p, w, slot, q + 1)
         == if !ActiveIn(w, c) && Num(p.nextSeq, c) > Num(done, c) then done[c := Num(p.nextSeq, c)] else done
  {
    var c := Cell(slot, q);
    var f := FlushedCells(p, w, slot);
    NextCell(slot, q);
    assert CellsUpTo(slot, q + 1) * f == if c in f then CellsUpTo(slot, q) * f + {c} else CellsUpTo(slot, q) * f;
    OverlayNext(p.deadFlush, CellsUpTo(slot, q), p.nextSeq, c);
    OverlayNext(p.completed, CellsUpTo(slot, q) * f, p.nextSeq, c);
  }

  lemma ReapedThenRun(s: State, cs: seq<Cell>, r: State, t: State)
    requires Reaps(s, cs, r) && NoneFailed(r) && t == Dispatch(r)
    ensures SchedRun(s, t)
  {
    assert Scheduled(s, cs, t);
  }

  /** Without failed dependencies v3da_sched_run is the dispatch alone. */
  lemma SchedRunIsDispatchFor(s: State, stay: set<nat>, t: State)
    requires InvFor(s, stay) && SchedRun(s, t)
    ensures t == Dispatch(s)
  {
    var cs :| Scheduled(s, cs, t);
    var r :| Reaps(s, cs, r) && NoneFailed(r) && t == Dispatch(r);
    forall c ensures !FailedHead(s, c) {
      if HeadReady(s.w, s.page, c) { assert JobOk(s.w, s.page, stay, Fifo(s.w, c)[0]); }
    }
  }

  lemma KickNextSound(s: State, q: nat)
    requires Sound(s.w)
    ensures Sound(KickNext(s, q).w)
  {
    var i := FirstReady(s, q, FIRST);
    if q !in s.w.active && i < NSLOTS {
      KickSound(s, Cell(RrSlot(s, q, i), q));
    }
  }
}
