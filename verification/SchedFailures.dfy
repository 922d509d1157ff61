/**
 GPU resets. A reset completes every job on the hardware with an error; a render whose
 bin failed is then completed, unkicked, from the head of its FIFO (reap_failed_heads).
 The kick and completion counters stay exact through all of it; the order of a row's
 fences does not, and here is when.
 */
module SchedFailures {
  import opened SchedState
  import opened SchedInv
  import opened SchedSteps

  /** A FIFO head that completes without running. */
  predicate FailedHead(s: State, c: Cell) {
    c.slot < NSLOTS && c.queue < NQUEUES && HeadReady(s.w, s.page, c) && s.w.jobs[Fifo(s.w, c)[0]].depError
  }

  function Popped(s: State, c: Cell): State
    requires Fifo(s.w, c) != []
  {
    s.(w := s.w.(fifo := s.w.fifo[c := Fifo(s.w, c)[1..]]))
  }

  /** One completion of reap_failed_heads. */
  function Reap(s: State, c: Cell): State
    requires FailedHead(s, c)
  {
    JobDone(Popped(s, c), Fifo(s.w, c)[0], true)
  }

  /** Several, in the order of the list. */
  ghost predicate Reaps(s: State, cs: seq<Cell>, t: State)
    decreases |cs|
  {
    if cs == [] then t == s else FailedHead(s, cs[0]) && Reaps(Reap(s, cs[0]), cs[1..], t)
  }

  lemma ReapsExtend(s: State, cs: seq<Cell>, t: State, c: Cell)
    requires Reaps(s, cs, t) && FailedHead(t, c)
    ensures Reaps(s, cs + [c], Reap(t, c))
    decreases |cs|
  {
    if cs == [] {
      assert (cs + [c])[1..] == [];
      assert Reaps(Reap(s, c), [], Reap(s, c));
    } else {
      ReapsExtend(Reap(s, cs[0]), cs[1..], t, c);
      assert (cs + [c])[1..] == cs[1..] + [c];
    }
  }

  ghost predicate NoneFailed(s: State) {
    forall c :: !FailedHead(s, c)
  }

  /** v3da_sched_run as a whole: reap until no head is failed, then dispatch. */
  ghost predicate Scheduled(s: State, cs: seq<Cell>, t: State) {
    exists r :: Reaps(s, cs, r) && NoneFailed(r) && t == Dispatch(r)
  }

  ghost predicate SchedRun(s: State, t: State) {
    exists cs :: Scheduled(s, cs, t)
  }

  /** The wedge: every hardware job of the moment completes with an error. */
  function Wedge(s: State, q: nat): State
    requires q <= NQUEUES
    decreases NQUEUES - q
  {
    if q == NQUEUES then s
    else Wedge(if IsHw(q) && q in s.w.active && s.w.active[q] in s.w.jobs then JobDone(s, s.w.active[q], true) else s, q + 1)
  }

  // ------------------------------------------------------------------------
  // The counters stay exact
  // ------------------------------------------------------------------------

  ghost predicate RowApart(w: Work, c: Cell) {
    && (forall k :: 0 <= k < |Fifo(w, c)| ==> InRow(w, c, Fifo(w, c)[k]) && !OnQueue(w, Fifo(w, c)[k]))
    && (forall i, j :: 0 <= i < j < |Fifo(w, c)| ==> Fifo(w, c)[i] != Fifo(w, c)[j])
  }

  /** Queues and FIFOs hold jobs of their own, and no job is in both. */
  ghost predicate Apart(w: Work) {
    (forall q: nat :: QueueOk(w, q)) && (forall c: Cell :: RowApart(w, c))
  }

  lemma ReapRowApart(s: State, c: Cell, d: Cell)
    requires FailedHead(s, c) && RowApart(s.w, c) && RowApart(s.w, d)
    ensures RowApart(Reap(s, c).w, d)
  {
    var t := Reap(s, c).w;
    assert InRow(s.w, c, Fifo(s.w, c)[0]);
    assert Fifo(t, d) == if d == c then Fifo(s.w, c)[1..] else Fifo(s.w, d);
    forall k | 0 <= k < |Fifo(t, d)| ensures InRow(t, d, Fifo(t, d)[k]) && !OnQueue(t, Fifo(t, d)[k]) {
      var x := Fifo(s.w, d)[if d == c then k + 1 else k];
      assert InRow(s.w, d, x) && Fifo(t, d)[k] == x;
    }
  }

  lemma ReapApart(s: State, c: Cell)
    requires Apart(s.w) && FailedHead(s, c)
    ensures Apart(Reap(s, c).w)
  {
    var t := Reap(s, c).w;
    assert RowApart(s.w, c);
    forall d: Cell ensures RowApart(t, d) { assert RowApart(s.w, d); ReapRowApart(s, c, d); }
    forall q: nat ensures QueueOk(t, q) { assert QueueOk(s.w, q); }
  }

  /** A job completed without a kick counts as submitted and completed at once. */
  lemma ReapCounted(s: State, c: Cell)
    requires Apart(s.w) && FailedHead(s, c) && HwCounted(s.hw, s.w.active)
    ensures HwCounted(Reap(s, c).hw, Reap(s, c).w.active)
  {
    var h := Fifo(s.w, c)[0];
    var t := Reap(s, c);
    assert RowApart(s.w, c) && !OnQueue(s.w, h);
    assert t.w.active == s.w.active;
    forall q: nat ensures QueueCounted(t.hw, t.w.active, q) { assert QueueCounted(s.hw, s.w.active, q); }
  }

  lemma DoneApart(s: State, g: nat, err: bool)
    requires Apart(s.w) && OnQueue(s.w, g)
    ensures Apart(JobDone(s, g, err).w)
  {
    var t := JobDone(s, g, err).w;
    forall d: Cell ensures RowApart(t, d) {
      assert RowApart(s.w, d);
      assert Fifo(t, d) == Fifo(s.w, d);
      forall k | 0 <= k < |Fifo(t, d)| ensures InRow(t, d, Fifo(t, d)[k]) && !OnQueue(t, Fifo(t, d)[k]) {
        assert InRow(s.w, d, Fifo(s.w, d)[k]) && !OnQueue(s.w, Fifo(s.w, d)[k]);
      }
    }
    forall q: nat ensures QueueOk(t, q) { assert QueueOk(s.w, q); }
  }

  /** A reset leaves the counters exact and no job on a hardware queue. */
  lemma WedgeCounted(s: State, q: nat)
    requires q <= NQUEUES && Apart(s.w) && HwCounted(s.hw, s.w.active)
    requires forall p :: p in s.w.active && IsHw(p) ==> p >= q
    ensures var t := Wedge(s, q);
      Apart(t.w) && HwCounted(t.hw, t.w.active) && (forall p :: p in t.w.active ==> !IsHw(p)) && t.hw.nbusy == 0
    decreases NQUEUES - q
  {
    if q == NQUEUES {
      assert HwActive(s.w.active) == {};
    } else if IsHw(q) && q in s.w.active {
      var g := s.w.active[q];
      assert QueueOk(s.w, q);
      assert OnQueue(s.w, g);
      DoneApart(s, g, true);
      DoneCounted(s.hw, s.w.active, q);
      WedgeCounted(JobDone(s, g, true), q + 1);
    } else {
      WedgeCounted(s, q + 1);
    }
  }

  /** A kick keeps jobs apart, so resets and kicks may follow each other in any order. */
  lemma KickApart(s: State, c: Cell)
    requires Apart(s.w) && Fifo(s.w, c) != [] && c.queue !in s.w.active
    ensures Apart(Kick(s, c).w)
  {
    var t := Kick(s, c).w;
    assert RowApart(s.w, c) && InRow(s.w, c, Fifo(s.w, c)[0]);
    forall d: Cell ensures RowApart(t, d) {
      assert RowApart(s.w, d);
      assert Fifo(t, d) == if d == c then Fifo(s.w, c)[1..] else Fifo(s.w, d);
      forall k | 0 <= k < |Fifo(t, d)| ensures InRow(t, d, Fifo(t, d)[k]) && !OnQueue(t, Fifo(t, d)[k]) {
        var x := Fifo(s.w, d)[if d == c then k + 1 else k];
        assert InRow(s.w, d, x) && Fifo(t, d)[k] == x && !OnQueue(s.w, x);
      }
    }
    forall q: nat ensures QueueOk(t, q) { assert QueueOk(s.w, q); }
  }

  // ------------------------------------------------------------------------
  // The order of fences does not
  // ------------------------------------------------------------------------

  lemma ReapRow(s: State, c: Cell)
    requires RowOrdered(s.w, s.page, c) && FailedHead(s, c) && c.slot in s.used
    ensures var h := Fifo(s.w, c)[0];
      var t := Reap(s, c);
      && Num(t.page.completed, c) == s.w.jobs[h].fence.seqno == Num(s.page.completed, c) + Running(s.w, c) + 1
      && Fifo(t.w, c) == Fifo(s.w, c)[1..]
      && ActiveIn(t.w, c) == ActiveIn(s.w, c)
      && (ActiveIn(s.w, c) ==>
            && t.w.active[c.queue] == s.w.active[c.queue]
            && t.w.jobs[s.w.active[c.queue]].fence == s.w.jobs[s.w.active[c.queue]].fence)
  {
    var h := Fifo(s.w, c)[0];
    assert InRow(s.w, c, h);
    assert OnQueue(s.w, h) ==> ActiveIn(s.w, c);
  }

  /** Reaping keeps a row in order exactly when no earlier job of the row is still on the hardware. */
  lemma ReapKeepsOrderIff(s: State, c: Cell)
    requires RowOrdered(s.w, s.page, c) && FailedHead(s, c) && c.slot in s.used
    ensures RowOrdered(Reap(s, c).w, Reap(s, c).page, c) <==> !ActiveIn(s.w, c)
  {
    var t := Reap(s, c);
    var h := Fifo(s.w, c)[0];
    ReapRow(s, c);
    if !ActiveIn(s.w, c) {
      forall k | 0 <= k < |Fifo(t.w, c)|
        ensures InRow(t.w, c, Fifo(t.w, c)[k])
          && t.w.jobs[Fifo(t.w, c)[k]].fence.seqno == Num(t.page.completed, c) + 1 + k
      {
        assert Fifo(t.w, c)[k] == Fifo(s.w, c)[k + 1];
        assert InRow(s.w, c, Fifo(s.w, c)[k + 1]);
      }
    }
  }

  /**
   Otherwise the row's counter passes a job that still runs - its fence reads signalled -
   and goes back when that job completes: the reaped fence, signalled once, is pending again.
   */
  lemma ReapGoesBack(s: State, c: Cell)
    requires RowOrdered(s.w, s.page, c) && FailedHead(s, c) && c.slot in s.used && ActiveIn(s.w, c)
    requires s.w.jobs[s.w.active[c.queue]].fence.gen == Num(s.page.slotGen, c.slot) % GEN_MOD
    requires s.w.jobs[Fifo(s.w, c)[0]].fence.gen == Num(s.page.slotGen, c.slot) % GEN_MOD
    ensures var a := s.w.active[c.queue];
      var f := s.w.jobs[Fifo(s.w, c)[0]].fence;
      var t := Reap(s, c);
      && OnQueue(t.w, a) && Signaled(t.page, t.w.jobs[a].fence)
      && Signaled(t.page, f)
      && !Signaled(JobDone(t, a, false).page, f)
  {
    ReapRow(s, c);
    assert InRow(s.w, c, Fifo(s.w, c)[0]) && InRow(s.w, c, s.w.active[c.queue]);
  }
}
