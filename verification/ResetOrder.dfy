/**
 When a row of fences stays true through GPU resets: no unfinished job's fence reads
 signalled, in any state of a run, if and only if no job of the row was ever reaped while
 another was on its queue.
 */
module ResetOrder {
  import opened SchedState
  import opened SchedInv
  import opened SchedSteps
  import opened SchedRuns
  import opened SchedFailures
  import opened ResetRuns

  /** A job is somewhere in its row, and its fence has the slot's present generation. */
  predicate Standing(w: Work, p: Page, g: nat) {
    && g in w.jobs && w.jobs[g].fence.slot < NSLOTS && RealQueue(w.jobs[g].fence.queue)
    && w.jobs[g].fence.gen == Num(p.slotGen, w.jobs[g].fence.slot) % GEN_MOD
    && (OnQueue(w, g) || g in Fifo(w, CellOf(w.jobs[g].fence)))
  }

  /** What resets and reaping keep always; `used` as in `SchedInv`. */
  ghost predicate Orderly(s: State, used: set<nat>) {
    && Exact(s)
    && (forall g :: g in s.w.jobs ==> Standing(s.w, s.page, g))
    && (forall c: Cell :: c.slot !in used ==> Fifo(s.w, c) == [])
    && used <= s.used && (forall u :: u in s.used ==> u < NSLOTS)
  }

  /** The row's count has passed the job on the hardware; the rest of the row comes after that job. */
  ghost predicate Overtaken(s: State, c: Cell) {
    && ActiveIn(s.w, c) && InRow(s.w, c, s.w.active[c.queue])
    && s.w.jobs[s.w.active[c.queue]].fence.seqno <= Num(s.page.completed, c)
    && (forall k :: 0 <= k < |Fifo(s.w, c)| ==>
          && InRow(s.w, c, Fifo(s.w, c)[k])
          && s.w.jobs[Fifo(s.w, c)[k]].fence.seqno > s.w.jobs[s.w.active[c.queue]].fence.seqno)
  }

  /** No fence of an unfinished job of the row reads signalled. */
  ghost predicate RowTrue(s: State, c: Cell) {
    forall g :: InRow(s.w, c, g) ==> !Signaled(s.page, s.w.jobs[g].fence)
  }

  lemma OrderedTrue(s: State, used: set<nat>, c: Cell)
    requires Orderly(s, used) && RowOk(s.w, s.page, used, c)
    ensures RowTrue(s, c)
  {
    forall g | InRow(s.w, c, g) ensures !Signaled(s.page, s.w.jobs[g].fence) {
      assert Standing(s.w, s.page, g);
      assert OnQueue(s.w, g) ==> ActiveIn(s.w, c);
    }
  }

  lemma OvertakenFalse(s: State, c: Cell)
    requires Overtaken(s, c)
    ensures !RowTrue(s, c)
  {
    assert InRow(s.w, c, s.w.active[c.queue]);
  }

  /** The row stays in order and its count does not go back. */
  ghost predicate RowKept(s: State, used: set<nat>, t: State, used': set<nat>, c: Cell) {
    RowOk(s.w, s.page, used, c) ==>
      RowOk(t.w, t.page, used', c) && Num(s.page.completed, c) <= Num(t.page.completed, c)
  }

  // ------------------------------------------------------------------------
  // The scheduler's kicks
  // ------------------------------------------------------------------------

  lemma KickStanding(w: Work, p: Page, c: Cell, g: nat)
    requires Fifo(w, c) != [] && InRow(w, c, Fifo(w, c)[0]) && c.queue !in w.active && Standing(w, p, g)
    ensures Standing(PopTo(w, c), p, g)
  {
    if g in Fifo(w, c) && g != Fifo(w, c)[0] { assert g in Fifo(w, c)[1..]; }
  }

  lemma KickOvertaken(s: State, c: Cell, d: Cell)
    requires Fifo(s.w, c) != [] && c.queue !in s.w.active && Overtaken(s, d)
    ensures Overtaken(Kick(s, c), d)
  {
    assert Fifo(Kick(s, c).w, d) == Fifo(s.w, d);
  }

  /** What a scheduler pass keeps of a row, after the reaping. */
  ghost predicate RowRuns(s: State, t: State, used: set<nat>, c: Cell) {
    && Orderly(t, used) && t.used == s.used && t.page == s.page
    && (RowOk(s.w, s.page, used, c) ==> RowOk(t.w, t.page, used, c))
    && (Overtaken(s, c) ==> Overtaken(t, c))
  }

  lemma KickOrder(s: State, used: set<nat>, c: Cell, d: Cell)
    requires Orderly(s, used) && Fifo(s.w, c) != [] && c.queue !in s.w.active
    ensures RowRuns(s, Kick(s, c), used, d)
  {
    KickExact(s, c);
    var t := PopTo(s.w, c);
    assert RowApart(s.w, c) && InRow(s.w, c, Fifo(s.w, c)[0]);
    forall g | g in t.jobs ensures Standing(t, s.page, g) { KickStanding(s.w, s.page, c, g); }
    if RowOk(s.w, s.page, used, d) { PopRow(s.w, s.page, used, c, d); }
    if Overtaken(s, d) { KickOvertaken(s, c, d); }
  }

  lemma KickNextOrder(s: State, used: set<nat>, q: nat, d: Cell)
    requires Orderly(s, used)
    ensures RowRuns(s, KickNext(s, q), used, d)
  {
    var i := FirstReady(s, q, FIRST);
    if q !in s.w.active && i < NSLOTS { KickOrder(s, used, Cell(RrSlot(s, q, i), q), d); }
  }

  lemma PipelineOrder(s: State, used: set<nat>, q: nat, d: Cell)
    requires Orderly(s, used) && q <= NQUEUES
    ensures RowRuns(s, RunPipeline(s, q), used, d)
    decreases NQUEUES - q
  {
    if q < NQUEUES {
      KickNextOrder(s, used, q, d);
      PipelineOrder(if IsHw(q) then KickNext(s, q) else s, used, q + 1, d);
    }
  }

  lemma DispatchOrder(s: State, used: set<nat>, d: Cell)
    requires Orderly(s, used)
    ensures RowRuns(s, Dispatch(s), used, d)
  {
    KickNextOrder(s, used, CPU, d);
    var s1 := KickNext(s, CPU);
    if s1.mode == Serial {
      var kicked, c := SerialKick(s1);
      if kicked { KickOrder(s1, used, c, d); }
    } else {
      PipelineOrder(s1, used, BIN, d);
    }
  }

  // ------------------------------------------------------------------------
  // Reaping
  // ------------------------------------------------------------------------

  /** A reap leaves the queues alone. */
  lemma ReapActive(s: State, c: Cell, d: Cell)
    requires Exact(s) && FailedHead(s, c)
    ensures var t := Reap(s, c);
      && t.w.active == s.w.active && ActiveIn(t.w, d) == ActiveIn(s.w, d)
      && (ActiveIn(s.w, d) ==> t.w.jobs[s.w.active[d.queue]].fence == s.w.jobs[s.w.active[d.queue]].fence)
      && Fifo(t.w, d) == (if d == c then Fifo(s.w, c)[1..] else Fifo(s.w, d))
  {
    var h := Fifo(s.w, c)[0];
    assert RowApart(s.w, c) && !OnQueue(s.w, h);
    if d.queue in s.w.active { assert QueueOk(s.w, d.queue) && s.w.active[d.queue] != h; }
  }

  lemma ReapStanding(s: State, c: Cell, g: nat)
    requires Exact(s) && FailedHead(s, c) && Standing(s.w, s.page, g) && g != Fifo(s.w, c)[0]
    ensures Standing(Reap(s, c).w, s.page, g)
  {
    var d := CellOf(s.w.jobs[g].fence);
    ReapActive(s, c, d);
    if g in Fifo(s.w, d) && d == c { assert g in Fifo(s.w, c)[1..]; }
  }

  lemma ReapOrderly(s: State, used: set<nat>, c: Cell)
    requires Orderly(s, used) && FailedHead(s, c)
    ensures Orderly(Reap(s, c), used)
  {
    ReapExact(s, c);
    var t := Reap(s, c);
    forall g | g in t.w.jobs ensures Standing(t.w, t.page, g) { ReapStanding(s, c, g); }
    forall d: Cell | d.slot !in used ensures Fifo(t.w, d) == [] { ReapActive(s, c, d); }
  }

  lemma ReapOtherRow(s: State, used: set<nat>, c: Cell, d: Cell)
    requires Orderly(s, used) && FailedHead(s, c) && d != c && RowOk(s.w, s.page, used, d)
    ensures RowOk(Reap(s, c).w, Reap(s, c).page, used, d)
    ensures Num(Reap(s, c).page.completed, d) == Num(s.page.completed, d)
  {
    var t := Reap(s, c);
    ReapActive(s, c, d);
    assert RowApart(s.w, c) && InRow(s.w, c, Fifo(s.w, c)[0]);
    forall k | 0 <= k < |Fifo(s.w, d)|
      ensures InRow(t.w, d, Fifo(s.w, d)[k]) && t.w.jobs[Fifo(s.w, d)[k]].fence == s.w.jobs[Fifo(s.w, d)[k]].fence
    {
      assert InRow(s.w, d, Fifo(s.w, d)[k]);
    }
  }

  /** With nothing of the row on the queue the reaped job was the next to finish. */
  lemma ReapOwnRow(s: State, used: set<nat>, c: Cell)
    requires Orderly(s, used) && FailedHead(s, c) && !ActiveIn(s.w, c)
    ensures RowKept(s, used, Reap(s, c), used, c)
  {
    if RowOk(s.w, s.page, used, c) {
      ReapKeepsOrderIff(s, c);
      ReapRow(s, c);
    }
  }

  /** Else its number is past the one on the queue. */
  lemma ReapOvertakes(s: State, used: set<nat>, c: Cell)
    requires Orderly(s, used) && FailedHead(s, c) && ActiveIn(s.w, c) && RowOk(s.w, s.page, used, c)
    ensures Overtaken(Reap(s, c), c)
  {
    var t := Reap(s, c);
    ReapRow(s, c);
    assert InRow(s.w, c, s.w.active[c.queue]);
    forall k | 0 <= k < |Fifo(t.w, c)| ensures InRow(t.w, c, Fifo(t.w, c)[k])
      && t.w.jobs[Fifo(t.w, c)[k]].fence.seqno > s.w.jobs[s.w.active[c.queue]].fence.seqno
    {
      assert InRow(s.w, c, Fifo(s.w, c)[k + 1]) && Fifo(s.w, c)[0] < Fifo(s.w, c)[k + 1];
    }
  }

  /** And it stays so, whatever else is reaped. */
  lemma ReapOvertaken(s: State, c: Cell, d: Cell)
    requires Exact(s) && FailedHead(s, c) && Overtaken(s, d)
    ensures Overtaken(Reap(s, c), d)
  {
    var t := Reap(s, c);
    ReapActive(s, c, d);
    assert RowApart(s.w, c) && RowApart(s.w, d);
    assert InRow(s.w, c, Fifo(s.w, c)[0]);
    forall k | 0 <= k < |Fifo(t.w, d)| ensures InRow(t.w, d, Fifo(t.w, d)[k])
      && t.w.jobs[Fifo(t.w, d)[k]].fence.seqno > s.w.jobs[s.w.active[d.queue]].fence.seqno
    {
      assert InRow(s.w, d, Fifo(s.w, d)[if d == c then k + 1 else k]);
    }
  }

  lemma ReapsOvertaken(s: State, cs: seq<Cell>, t: State, d: Cell)
    requires Exact(s) && Reaps(s, cs, t) && Overtaken(s, d)
    ensures Overtaken(t, d)
    decreases |cs|
  {
    if cs != [] {
      ReapExact(s, cs[0]);
      ReapOvertaken(s, cs[0], d);
      ReapsOvertaken(Reap(s, cs[0]), cs[1..], t, d);
    }
  }

  lemma ReapKept(s: State, used: set<nat>, c: Cell, d: Cell)
    requires Orderly(s, used) && FailedHead(s, c) && !(d == c && ActiveIn(s.w, c))
    ensures RowKept(s, used, Reap(s, c), used, d)
  {
    if d == c { ReapOwnRow(s, used, c); } else if RowOk(s.w, s.page, used, d) { ReapOtherRow(s, used, c, d); }
  }

  /** Reaping keeps a row, unless it reaps the row while one of its jobs is on the queue. */
  lemma ReapsOrder(s: State, used: set<nat>, cs: seq<Cell>, t: State, d: Cell)
    requires Orderly(s, used) && Reaps(s, cs, t)
    ensures Orderly(t, used) && t.used == s.used
    ensures !(d in cs && ActiveIn(s.w, d)) ==> RowKept(s, used, t, used, d)
    ensures d in cs && ActiveIn(s.w, d) && RowOk(s.w, s.page, used, d) ==> Overtaken(t, d)
    decreases |cs|
  {
    if cs != [] {
      var c, r := cs[0], Reap(s, cs[0]);
      ReapOrderly(s, used, c);
      ReapActive(s, c, d);
      ReapsOrder(r, used, cs[1..], t, d);
      if d == c && ActiveIn(s.w, c) {
        if RowOk(s.w, s.page, used, d) {
          ReapOvertakes(s, used, c);
          ReapsOvertaken(r, cs[1..], t, d);
        }
      } else {
        ReapKept(s, used, c, d);
      }
    }
  }

  lemma ScheduledOrder(s: State, used: set<nat>, cs: seq<Cell>, t: State, d: Cell)
    requires Orderly(s, used) && Scheduled(s, cs, t)
    ensures Orderly(t, used) && t.used == s.used
    ensures !(d in cs && ActiveIn(s.w, d)) ==> RowKept(s, used, t, used, d)
    ensures d in cs && ActiveIn(s.w, d) && RowOk(s.w, s.page, used, d) ==> Overtaken(t, d)
  {
    var r :| Reaps(s, cs, r) && NoneFailed(r) && t == Dispatch(r);
    ReapsOrder(s, used, cs, r, d);
    DispatchOrder(r, used, d);
  }

  // ------------------------------------------------------------------------
  // Completions and the reset
  // ------------------------------------------------------------------------

  lemma DoneStanding(w: Work, p: Page, g: nat, err: bool, x: nat)
    requires OnQueue(w, g) && Standing(w, p, x) && x != g
    ensures Standing(TakeOff(w, g, err), p, x)
  {
    assert Fifo(TakeOff(w, g, err), CellOf(w.jobs[x].fence)) == Fifo(w, CellOf(w.jobs[x].fence));
  }

  /** A job that leaves its queue, failed or not, keeps every row. */
  lemma DoneOrder(s: State, g: nat, err: bool, c: Cell)
    requires Orderly(s, s.used) && OnQueue(s.w, g)
    ensures Orderly(JobDone(s, g, err), s.used) && RowKept(s, s.used, JobDone(s, g, err), s.used, c)
  {
    var t := JobDone(s, g, err);
    DoneExact(s, g, err);
    assert Standing(s.w, s.page, g);
    forall x | x in t.w.jobs ensures Standing(t.w, t.page, x) { DoneStanding(s.w, s.page, g, err, x); }
    forall d: Cell | d.slot !in s.used ensures Fifo(t.w, d) == [] { assert Fifo(t.w, d) == Fifo(s.w, d); }
    if RowOk(s.w, s.page, s.used, c) { DoneRow(s, g, err, c); }
  }

  lemma DoneRow(s: State, g: nat, err: bool, c: Cell)
    requires OnQueue(s.w, g) && s.w.jobs[g].fence.queue < NQUEUES && RowOk(s.w, s.page, s.used, c)
    ensures RowKept(s, s.used, JobDone(s, g, err), s.used, c)
  {
    if c == CellOf(s.w.jobs[g].fence) {
      DoneOwnRow(s.w, s.page, s.used, g, err);
      assert ActiveIn(s.w, c);
    } else {
      DoneOtherRow(s.w, s.page, s.used, g, err, c);
    }
  }

  lemma CompleteEachOrder(s: State, done: seq<nat>, c: Cell)
    requires Orderly(s, s.used)
    ensures CompleteEach(s, done).used == s.used
    ensures Orderly(CompleteEach(s, done), s.used) && RowKept(s, s.used, CompleteEach(s, done), s.used, c)
    decreases |done|
  {
    if done != [] {
      var q := done[0];
      if q in s.w.active {
        assert QueueOk(s.w, q);
        DoneOrder(s, s.w.active[q], false, c);
        CompleteEachOrder(JobDone(s, s.w.active[q], false), done[1..], c);
      } else {
        CompleteEachOrder(s, done[1..], c);
      }
    }
  }

  lemma WedgeOrder(s: State, q: nat, c: Cell)
    requires Orderly(s, s.used) && q <= NQUEUES
    ensures Wedge(s, q).used == s.used
    ensures Orderly(Wedge(s, q), s.used) && RowKept(s, s.used, Wedge(s, q), s.used, c)
    decreases NQUEUES - q
  {
    if q < NQUEUES {
      if IsHw(q) && q in s.w.active {
        assert QueueOk(s.w, q);
        DoneOrder(s, s.w.active[q], true, c);
        WedgeOrder(JobDone(s, s.w.active[q], true), q + 1, c);
      } else {
        WedgeOrder(s, q + 1, c);
      }
    }
  }

  // ------------------------------------------------------------------------
  // Requests
  // ------------------------------------------------------------------------

  lemma EnqueueStanding(s: State, slot: nat, q: nat, deps: seq<Fence>, bos: seq<nat>, g: nat)
    requires g in s.w.jobs ==> g <= s.w.gseq && Standing(s.w, s.page, g)
    requires g in s.w.jobs || g == s.w.gseq + 1
    requires slot < NSLOTS && RealQueue(q)
    ensures Standing(Enqueue(s, slot, q, deps, bos).w, Enqueue(s, slot, q, deps, bos).page, g)
  {
  }

  /** A new job goes to the end of its row. */
  lemma EnqueueOrder(s: State, slot: nat, q: nat, deps: seq<Fence>, bos: seq<nat>, c: Cell)
    requires Orderly(s, s.used) && slot in s.used && RealQueue(q)
    ensures var t := Enqueue(s, slot, q, deps, bos);
      Orderly(t, s.used) && t.used == s.used && RowKept(s, s.used, t, s.used, c)
  {
    var t := Enqueue(s, slot, q, deps, bos);
    EnqueueExact(s, slot, q, deps, bos);
    forall g | g in t.w.jobs ensures Standing(t.w, t.page, g) {
      if g in s.w.jobs { assert Standing(s.w, s.page, g); }
      EnqueueStanding(s, slot, q, deps, bos, g);
    }
    if RowOk(s.w, s.page, s.used, c) {
      var j := Job(NewFence(s.page, slot, q), deps, 0, 0, false, bos);
      assert QueueOk(s.w, c.queue);
      if c == CellOf(j.fence) { PushOwnRow(s.w, s.page, s.used, j); } else { PushOtherRow(s.w, s.page, s.used, j, c); }
    }
  }

  lemma LinkOrder(s: State, b: nat, r: nat, c: Cell)
    requires Orderly(s, s.used) && b in s.w.jobs && r in s.w.jobs
    ensures var t := s.(w := LinkPair(s.w, b, r));
      Orderly(t, s.used) && RowKept(s, s.used, t, s.used, c)
  {
    var t := LinkPair(s.w, b, r);
    LinkExact(s, b, r);
    forall d: Cell ensures Fifo(t, d) == Fifo(s.w, d) {}
    forall g | g in t.jobs ensures Standing(t, s.page, g) { assert Standing(s.w, s.page, g); }
    if RowOk(s.w, s.page, s.used, c) { LinkRow(s.w, s.page, s.used, b, r, c); }
  }

  lemma QueueOrder(s: State, slot: nat, rq: Request, c: Cell)
    requires Orderly(s, s.used) && slot in s.used
    ensures var t := Queue(s, slot, rq);
      Orderly(t, s.used) && t.used == s.used && RowKept(s, s.used, t, s.used, c)
  {
    var deps := FirstDeps(s, slot, rq).deps;
    if HasPair(rq.op) {
      var late := ExplicitDeps(s, slot, rq.ins, {true});
      EnqueueOrder(s, slot, BIN, deps, [], c);
      var s1 := Enqueue(s, slot, BIN, deps, []);
      EnqueueOrder(s1, slot, RENDER, late, rq.bos, c);
      LinkOrder(Enqueue(s1, slot, RENDER, late, rq.bos), s1.w.gseq, s1.w.gseq + 1, c);
    } else {
      EnqueueOrder(s, slot, OneQueue(rq.op), deps, rq.bos, c);
    }
  }

  /** Nothing is left of the slot's last client. */
  lemma FreeEmpty(s: State, slot: nat)
    requires Orderly(s, s.used) && Free(s, slot)
    ensures forall g :: g in s.w.jobs ==> s.w.jobs[g].fence.slot != slot
    ensures forall c: Cell :: c.slot == slot ==> Fifo(s.w, c) == [] && !ActiveIn(s.w, c)
  {
    forall g | g in s.w.jobs ensures s.w.jobs[g].fence.slot != slot {
      assert Standing(s.w, s.page, g);
      if s.w.jobs[g].fence.slot == slot {
        assert OnQueue(s.w, g) ==> ActiveIn(s.w, CellOf(s.w.jobs[g].fence));
      }
    }
  }

  lemma OpenOrder(s: State, slot: nat, c: Cell)
    requires Orderly(s, s.used) && Free(s, slot)
    ensures var t := Open(s, slot);
      && Orderly(t, t.used)
      && (RowOk(s.w, s.page, s.used, c) ==> RowOk(t.w, t.page, t.used, c))
      && (c.slot != slot ==> Num(t.page.completed, c) == Num(s.page.completed, c))
  {
    FreeEmpty(s, slot);
    var t := Open(s, slot);
    forall g | g in t.w.jobs ensures Standing(t.w, t.page, g) { assert Standing(s.w, s.page, g); }
    if RowOk(s.w, s.page, s.used, c) { OpenRow(s.w, s.page, s.used, slot, c); }
  }

  lemma DiscardedRow(s: State, slot: nat, d: Cell)
    requires Orderly(s, s.used)
    ensures ActiveIn(Discard(s.w, slot), d) == ActiveIn(s.w, d)
    ensures Fifo(Discard(s.w, slot), d) == if d.slot == slot then [] else Fifo(s.w, d)
  {
    assert RowApart(s.w, d);
    if Fifo(s.w, d) != [] {
      assert InRow(s.w, d, Fifo(s.w, d)[0]);
      assert Standing(s.w, s.page, Fifo(s.w, d)[0]);
    }
    if d.queue in s.w.active {
      assert QueueOk(s.w, d.queue);
      assert RowApart(s.w, CellOf(s.w.jobs[s.w.active[d.queue]].fence));
    }
  }

  lemma DiscardStanding(s: State, slot: nat, g: nat)
    requires Orderly(s, s.used) && g in Discard(s.w, slot).jobs
    ensures Standing(Discard(s.w, slot), s.page, g)
  {
    assert Standing(s.w, s.page, g);
    DiscardedRow(s, slot, CellOf(s.w.jobs[g].fence));
  }

  /** A client that leaves: its queued jobs are dropped and its rows flushed. */
  lemma GoneOrder(s: State, slot: nat, c: Cell)
    requires Orderly(s, s.used) && slot in s.used
    ensures var t := Gone(s, slot);
      Orderly(t, s.used - {slot}) && RowKept(s, s.used, t, s.used - {slot}, c)
  {
    var t := Gone(s, slot);
    GoneExact(s, slot);
    forall g | g in t.w.jobs ensures Standing(t.w, t.page, g) { DiscardStanding(s, slot, g); }
    forall d: Cell | d.slot !in s.used - {slot} ensures Fifo(t.w, d) == [] { DiscardedRow(s, slot, d); }
    if RowOk(s.w, s.page, s.used, c) {
      DiscardedRow(s, slot, c);
      if c.slot == slot { FlushedRow(s.w, s.page, s.used, slot, c); } else { KeptRow(s.w, s.page, s.used, slot, c); }
    }
  }

  lemma LostOrder(s: State, lost: nat, c: Cell)
    requires Orderly(s, s.used)
    ensures var t := s.(w := s.w.(gseq := s.w.gseq + lost));
      Orderly(t, s.used) && RowKept(s, s.used, t, s.used, c)
  {
    var t := s.w.(gseq := s.w.gseq + lost);
    LostExact(s, lost);
    forall d: Cell ensures Fifo(t, d) == Fifo(s.w, d) {}
    forall g | g in t.jobs ensures Standing(t, s.page, g) { assert Standing(s.w, s.page, g); }
  }

  // ------------------------------------------------------------------------
  // Whole runs
  // ------------------------------------------------------------------------

  /** Where a move stands when the scheduler begins. */
  function Before(s: State, move: Move): State {
    match move
    case Ask(step, _) => Prepare(s, step)
    case Pass(done, reset, _) => Completed(s, done, reset)
  }

  /** The clients that remain after a move. */
  function Staying(s: State, move: Move): set<nat> {
    if move.Ask? && move.step.CloseClient? then s.used - {move.step.slot} else Before(s, move).used
  }

  predicate Reopens(move: Move, slot: nat) { move.Ask? && move.step == OpenClient(slot) }

  /** A job of the row is reaped while another is on the row's queue. */
  predicate MetActive(s: State, move: Move, c: Cell) {
    c in move.reaped && ActiveIn(Before(s, move).w, c)
  }

  lemma PrepareOrder(s: State, step: Step, c: Cell)
    requires Orderly(s, s.used) && Allowed(s, step) && !step.OpenClient? && !step.Events?
    ensures var t, used := Prepare(s, step), if step.CloseClient? then s.used - {step.slot} else s.used;
      t.used == s.used && Orderly(t, used) && RowKept(s, s.used, t, used, c)
  {
    match step
    case CloseClient(slot) => GoneOrder(s, slot, c);
    case Submit(slot, rq) => SubmitOrder(s, slot, rq, c);
    case SubmitNoMem(lost) => LostOrder(s, lost, c);
    case SubmitNop(slot) => EnqueueOrder(s, slot, CPU, [], [], c);
    case AttachFence(slot, bos, f) => AttachOrder(s, slot, bos, f, c);
    case _ =>
  }

  lemma SubmitOrder(s: State, slot: nat, rq: Request, c: Cell)
    requires Orderly(s, s.used) && slot in s.used
    ensures var t := Prepare(s, Submit(slot, rq));
      t.used == s.used && Orderly(t, s.used) && RowKept(s, s.used, t, s.used, c)
  {
    QueueOrder(s, slot, rq, c);
  }

  lemma AttachOrder(s: State, slot: nat, bos: seq<nat>, f: Fence, c: Cell)
    requires Orderly(s, s.used) && slot in s.used
    ensures var t := Prepare(s, AttachFence(slot, bos, f));
      t.used == s.used && Orderly(t, s.used) && RowKept(s, s.used, t, s.used, c)
  {
    EnqueueOrder(s, slot, CPU, JoinDeps(s, bos, f).deps, [], c);
  }

  lemma CompletedOrder(s: State, done: seq<nat>, reset: bool, c: Cell)
    requires Orderly(s, s.used)
    ensures var t := Completed(s, done, reset);
      t.used == s.used && Orderly(t, s.used) && RowKept(s, s.used, t, s.used, c)
  {
    CompleteEachOrder(s, done, c);
    if reset { WedgeOrder(CompleteEach(s, done), BIN, c); }
  }

  /** What comes before the scheduler keeps every row. */
  lemma BeforeOrder(s: State, move: Move, t: State, c: Cell)
    requires Orderly(s, s.used) && Moves(s, move, t)
    ensures Orderly(Before(s, move), Staying(s, move))
    ensures RowOk(s.w, s.page, s.used, c) ==> RowOk(Before(s, move).w, Before(s, move).page, Staying(s, move), c)
    ensures !Reopens(move, c.slot) ==> RowKept(s, s.used, Before(s, move), Staying(s, move), c)
  {
    match move
    case Ask(step, reaped) =>
      if step.OpenClient? { OpenOrder(s, step.slot, c); } else { PrepareOrder(s, step, c); }
    case Pass(done, reset, reaped) => CompletedOrder(s, done, reset, c);
  }

  /** A move is what comes before, and the scheduler or nothing; then the leaving client's slot is given up. */
  lemma MoveEnds(s: State, move: Move, t: State) returns (m: State)
    requires Moves(s, move, t)
    ensures t.w == m.w && t.page == m.page && t.hw == m.hw
    ensures Scheduled(Before(s, move), move.reaped, m) || (move.reaped == [] && m == Before(s, move))
    ensures m.used == Before(s, move).used ==> t.used == Staying(s, move)
  {
    m := t;
    if move.Ask? {
      if Schedules(s, move.step) {
        m :| Scheduled(Prepare(s, move.step), move.reaped, m) && t == Leave(m, move.step);
      } else {
        m := Prepare(s, move.step);
      }
    }
  }

  /** A move keeps a row, unless it reaps it while a job of it is on the queue: then the count passes that job. */
  lemma MoveOrder(s: State, move: Move, t: State, c: Cell)
    requires Orderly(s, s.used) && Moves(s, move, t)
    ensures Orderly(t, t.used)
    ensures RowOk(s.w, s.page, s.used, c) && !MetActive(s, move, c) ==> RowOk(t.w, t.page, t.used, c)
    ensures !MetActive(s, move, c) && !Reopens(move, c.slot) ==> RowKept(s, s.used, t, t.used, c)
    ensures RowOk(s.w, s.page, s.used, c) && MetActive(s, move, c) ==> Overtaken(t, c)
  {
    var b, used := Before(s, move), Staying(s, move);
    BeforeOrder(s, move, t, c);
    var m := MoveEnds(s, move, t);
    if Scheduled(b, move.reaped, m) { ScheduledOrder(b, used, move.reaped, m, c); }
    SameOrder(m, t, used, c);
  }

  lemma SameOrder(m: State, t: State, used: set<nat>, c: Cell)
    requires Orderly(m, used) && t.w == m.w && t.page == m.page && t.hw == m.hw && t.used == used
    ensures Orderly(t, used) && (Overtaken(m, c) <==> Overtaken(t, c))
  {
  }

  ghost predicate NeverMet(states: seq<State>, moves: seq<Move>, n: nat, c: Cell)
    requires n <= |moves| < |states|
  {
    forall i: nat :: i < n ==> !MetActive(states[i], moves[i], c)
  }

  lemma {:induction false} RunOrder(states: seq<State>, moves: seq<Move>, n: nat, c: Cell)
    requires IsResetRun(states, moves) && n <= |moves|
    ensures Orderly(states[n], states[n].used)
    ensures NeverMet(states, moves, n, c) ==> RowOk(states[n].w, states[n].page, states[n].used, c)
  {
    if n == 0 {
      CountersExact(states, moves, 0);
    } else {
      RunOrder(states, moves, n - 1, c);
      assert MovedAt(states, moves, n - 1);
      MoveOrder(states[n - 1], moves[n - 1], states[n], c);
    }
  }

  lemma {:induction false} MetFalse(states: seq<State>, moves: seq<Move>, n: nat, c: Cell)
    requires IsResetRun(states, moves) && n <= |moves| && !NeverMet(states, moves, n, c)
    ensures exists i: nat :: i <= n && !RowTrue(states[i], c)
  {
    if !NeverMet(states, moves, n - 1, c) {
      MetFalse(states, moves, n - 1, c);
    } else {
      RunOrder(states, moves, n - 1, c);
      assert MovedAt(states, moves, n - 1);
      MoveOrder(states[n - 1], moves[n - 1], states[n], c);
      OvertakenFalse(states[n], c);
    }
  }

  /**
   On every run, resets included: up to any state no unfinished job of a row has a fence
   that reads signalled, if and only if no job of the row has been reaped while another was
   on the row's queue.
   */
  lemma RowTrueIff(states: seq<State>, moves: seq<Move>, n: nat, c: Cell)
    requires IsResetRun(states, moves) && n <= |moves|
    ensures (forall i: nat :: i <= n ==> RowTrue(states[i], c)) <==> NeverMet(states, moves, n, c)
  {
    if NeverMet(states, moves, n, c) {
      forall i: nat | i <= n ensures RowTrue(states[i], c) {
        RunOrder(states, moves, i, c);
        OrderedTrue(states[i], states[i].used, c);
      }
    } else {
      MetFalse(states, moves, n, c);
    }
  }

  /** And then the row's count never goes back, except to zero for the slot's next client. */
  lemma RowAdvances(states: seq<State>, moves: seq<Move>, n: nat, c: Cell)
    requires IsResetRun(states, moves) && n < |moves| && NeverMet(states, moves, n + 1, c)
    requires !Reopens(moves[n], c.slot)
    ensures Num(states[n].page.completed, c) <= Num(states[n + 1].page.completed, c)
  {
    RunOrder(states, moves, n, c);
    assert MovedAt(states, moves, n);
    MoveOrder(states[n], moves[n], states[n + 1], c);
  }
}
