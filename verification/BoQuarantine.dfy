/** When a buffer leaves quarantine: which jobs have finished by then. */
module BoQuarantine {
  import opened GpuSpace
  import opened GpuTlb
  import opened BlockPool
  import opened Lowmem
  import opened BoState
  import opened BoInv
  import opened BoSteps
  import opened BoRuns

  predicate OnQueue(x: Step) { x.KickJob? || x.FinishJob? || x.FailJob? || x.ReapJob? }

  /** The job on queue `q` leaves the hardware. */
  predicate Ends(x: Step, q: nat) { x == FinishJob(q) || (x.FailJob? && x.q == q) }

  function HwNext(hw: Hw, x: Step): Hw
    requires |hw.submitted| == NQ && |hw.completed| == NQ && |hw.active| == NQ
    requires OnQueue(x) ==> x.q < NQ
  {
    match x
    case KickJob(q, _) =>
      hw.(submitted := hw.submitted[q := hw.submitted[q] + 1], active := hw.active[q := true], wedged := false)
    case FinishJob(q) => hw.(completed := hw.completed[q := hw.completed[q] + 1], active := hw.active[q := false])
    case FailJob(q, pair) => hw.(completed := hw.completed[q := hw.completed[q] + 1], active := hw.active[q := false],
                                 doomed := if q == BIN && pair then hw.doomed + 1 else hw.doomed)
    case ReapJob(q) => hw.(submitted := hw.submitted[q := hw.submitted[q] + 1],
                           completed := hw.completed[q := hw.completed[q] + 1],
                           doomed := if hw.doomed > 0 then hw.doomed - 1 else 0)
    case ResetGpu => hw.(wedged := true)
    case _ => hw
  }

  /** A snapshot is taken when a buffer enters quarantine and kept while it is there. */
  ghost predicate Snapshot(hw: Hw, pass: map<nat, seq<nat>>, pass': map<nat, seq<nat>>, k: nat) {
    && (k in pass && k in pass' ==> pass'[k] == pass[k])
    && (k !in pass && k in pass' ==> pass'[k] == hw.submitted)
  }

  /** As for a step that lets no buffer out. */
  ghost predicate Enters(s: State, s': State, k: nat) {
    s'.hw == s.hw && (k in s.pass ==> k in s'.pass) && Snapshot(s.hw, s.pass, s'.pass, k)
  }

  lemma UnrefEnters(s: State, l: nat, k: nat)
    requires l in s.uses && InTable(s.t, l) && (k in s.pass ==> k !in s.uses)
    ensures Enters(s, Unref(s, l), k)
  {
  }

  lemma UnpinEnters(s: State, l: nat, k: nat)
    requires (l in s.uses ==> InTable(s.t, l)) && (k in s.pass ==> k !in s.uses)
    ensures Enters(s, Unpin(s, l), k)
  {
  }

  lemma {:induction false} EndJobEnters(s: State, j: nat, k: nat, cap: nat, budget: nat)
    requires Inv(s, cap, budget) && j in s.jobs.lists
    ensures (forall l :: l in s.uses ==> InTable(s.t, l)) && Enters(s, EndJob(s, j), k)
    decreases |s.jobs.lists[j]|
  {
    AllInTable(s, cap, budget);
    var bos := s.jobs.lists[j];
    assert Tied(s, k);
    if bos != [] {
      PopPinKeeps(s, j, cap, budget);
      UnpinEnters(Shortened(s, j), bos[0], k);
      EndJobEnters(PopPin(s, j), j, k, cap, budget);
    }
  }

  lemma DropEnters(s: State, x: Step, k: nat, cap: nat, budget: nat)
    requires Inv(s, cap, budget) && Enabled(s, x)
    requires x.CloseFd? || x.CloseBo? || x.OwnerGone? || x.SharerGone?
    ensures Sane(s) && Enters(s, Next(s, x, cap, budget), k)
  {
    InvSane(s, cap, budget);
    assert Tied(s, k);
    match x
    case CloseFd(l) => CloseFdEnters(s, l, k);
    case CloseBo(client, l) => CloseBoEnters(s, client, l, k);
    case OwnerGone(client, l) => LeaveEnters(s, client, l, k);
    case SharerGone(client, l) => LeaveEnters(s, client, l, k);
  }

  lemma DropRefEnters(s: State, l: nat, u: Use, k: nat)
    requires l in s.uses && InTable(s.t, l) && (k in s.pass ==> k !in s.uses)
    ensures Enters(s, DropRef(s, l, u), k)
  {
    UnrefEnters(SetUse(s, l, u), l, k);
  }

  lemma CloseFdEnters(s: State, l: nat, k: nat)
    requires (l in s.uses ==> InTable(s.t, l)) && (k in s.pass ==> k !in s.uses)
    ensures Enters(s, CloseName(s, l), k)
  {
    if l in s.uses && s.uses[l].opens > 0 { DropRefEnters(s, l, s.uses[l].(opens := s.uses[l].opens - 1), k); }
  }

  lemma CloseBoEnters(s: State, client: nat, l: nat, k: nat)
    requires (l in s.uses ==> InTable(s.t, l)) && (k in s.pass ==> k !in s.uses)
    ensures Enters(s, CloseHandle(s, client, l), k)
  {
    if l in s.uses {
      DropRefEnters(s, l, s.uses[l].(sharers := s.uses[l].sharers - {client}), k);
      DropRefEnters(s, l, s.uses[l].(owner := 0), k);
    }
  }

  lemma LeaveEnters(s: State, client: nat, l: nat, k: nat)
    requires (l in s.uses ==> InTable(s.t, l)) && (k in s.pass ==> k !in s.uses)
    ensures Enters(s, LeaveOwner(s, client, l), k) && Enters(s, LeaveSharer(s, client, l), k)
  {
    if l in s.uses {
      DropRefEnters(s, l, s.uses[l].(sharers := s.uses[l].sharers - {client}), k);
      DropRefEnters(s, l, s.uses[l].(owner := 0), k);
    }
  }

  predicate Arrival(x: Step) { x.Create? || x.ImportForeign? }

  predicate Quiet(x: Step) {
    x.ImportOwn? || x.ExportBo? || x.OpenFd? || x.SubmitJob? || x.Sweep? || x.TlbLoad? || x.TlbEvict?
  }

  lemma ArrivalHw(s: State, x: Step, cap: nat, budget: nat)
    requires Sane(s) && Enabled(s, x) && Arrival(x)
    ensures Next(s, x, cap, budget).hw == s.hw && Next(s, x, cap, budget).pass == s.pass
  {
    match x
    case Create(r, offers, extra, now) => CreateHw(s, r, offers, extra, now, cap, budget);
    case ImportForeign(client, window, pages) => ImportHw(s, client, window, pages);
  }

  lemma CreateHw(s: State, r: NewBo, offers: seq<Offer>, extra: seq<nat>, now: nat, cap: nat, budget: nat)
    requires VaOk(s.t.va)
    ensures var s' := CreateBo(s, r, offers, extra, now, cap, budget).s; s'.hw == s.hw && s'.pass == s.pass
  {
  }

  lemma ImportHw(s: State, client: nat, window: nat, pages: nat)
    requires VaOk(s.t.va)
    ensures var s' := ImportWindow(s, client, window, pages).s; s'.hw == s.hw && s'.pass == s.pass
  {
  }

  lemma QuietHw(s: State, x: Step, cap: nat, budget: nat)
    requires Sane(s) && Enabled(s, x) && Quiet(x)
    ensures Next(s, x, cap, budget).hw == s.hw && Next(s, x, cap, budget).pass == s.pass
  {
  }

  lemma PollHw(s: State, x: Step, k: nat, cap: nat, budget: nat)
    requires Sane(s) && x.PollSlot?
    ensures Next(s, x, cap, budget).hw == s.hw && Snapshot(s.hw, s.pass, Next(s, x, cap, budget).pass, k)
  {
  }

  lemma CounterHw(s: State, x: Step, cap: nat, budget: nat)
    requires Sane(s) && Enabled(s, x) && (OnQueue(x) || x.ResetGpu?)
    ensures (OnQueue(x) ==> x.q < NQ) && Next(s, x, cap, budget).hw == HwNext(s.hw, x) && Next(s, x, cap, budget).pass == s.pass
  {
  }

  /** What one step does to the counters and to the snapshot of buffer `k`. */
  lemma StepHw(s: State, x: Step, k: nat, cap: nat, budget: nat)
    requires Inv(s, cap, budget) && Enabled(s, x)
    ensures Sane(s) && (OnQueue(x) ==> x.q < NQ)
    ensures Next(s, x, cap, budget).hw == HwNext(s.hw, x)
    ensures Snapshot(s.hw, s.pass, Next(s, x, cap, budget).pass, k)
  {
    InvSane(s, cap, budget);
    if Arrival(x) {
      ArrivalHw(s, x, cap, budget);
    } else if Quiet(x) {
      QuietHw(s, x, cap, budget);
    } else if x.CloseFd? || x.CloseBo? || x.OwnerGone? || x.SharerGone? {
      DropEnters(s, x, k, cap, budget);
    } else if x.JobEnds? {
      EndJobEnters(s, x.j, k, cap, budget);
    } else if x.PollSlot? {
      PollHw(s, x, k, cap, budget);
    } else {
      CounterHw(s, x, cap, budget);
    }
  }

  // ---- counting over a stretch of a run ----

  function Finishes(xs: seq<Step>, q: nat): nat {
    if xs == [] then 0 else Finishes(xs[..|xs| - 1], q) + (if Ends(xs[|xs| - 1], q) then 1 else 0)
  }

  function Reaps(xs: seq<Step>, q: nat): nat {
    if xs == [] then 0 else Reaps(xs[..|xs| - 1], q) + (if xs[|xs| - 1] == ReapJob(q) then 1 else 0)
  }

  lemma HwStep(hw: Hw, x: Step, q: nat)
    requires HwOk(hw) && q < NQ && (OnQueue(x) ==> x.q < NQ)
    ensures HwNext(hw, x).completed[q] ==
            hw.completed[q] + (if Ends(x, q) then 1 else 0) + (if x == ReapJob(q) then 1 else 0)
    ensures hw.active[q] && !Ends(x, q) ==> HwNext(hw, x).active[q]
  {
  }

  lemma LastCounts(ss: seq<State>, xs: seq<Step>, n: nat, cap: nat, budget: nat, i: nat, q: nat)
    requires IsRun(ss, xs, n, cap, budget) && i < |xs| && q < NQ
    ensures HwOk(ss[i].hw) && HwOk(ss[i + 1].hw)
    ensures ss[i + 1].hw.completed[q] ==
            ss[i].hw.completed[q] + (if Ends(xs[i], q) then 1 else 0) + (if xs[i] == ReapJob(q) then 1 else 0)
    ensures ss[i].hw.active[q] && !Ends(xs[i], q) ==> ss[i + 1].hw.active[q]
  {
    RunInv(ss, xs, n, cap, budget, i);
    RunInv(ss, xs, n, cap, budget, i + 1);
    assert Leads(ss, xs, i, cap, budget);
    StepHw(ss[i], xs[i], 0, cap, budget);
    HwStep(ss[i].hw, xs[i], q);
  }

  lemma {:induction false} Counted(ss: seq<State>, xs: seq<Step>, n: nat, cap: nat, budget: nat, i: nat, j: nat, q: nat)
    requires IsRun(ss, xs, n, cap, budget) && i <= j < |ss| && q < NQ
    ensures HwOk(ss[i].hw) && HwOk(ss[j].hw)
    ensures ss[j].hw.completed[q] == ss[i].hw.completed[q] + Finishes(xs[i..j], q) + Reaps(xs[i..j], q)
    ensures ss[i].hw.active[q] && Finishes(xs[i..j], q) == 0 ==> ss[j].hw.active[q]
    decreases j
  {
    if i < j {
      Counted(ss, xs, n, cap, budget, i, j - 1, q);
      LastCounts(ss, xs, n, cap, budget, j - 1, q);
      OneMore(xs, i, j, q);
    } else {
      RunHw(ss, xs, n, cap, budget, i);
    }
  }

  lemma RunHw(ss: seq<State>, xs: seq<Step>, n: nat, cap: nat, budget: nat, i: nat)
    requires IsRun(ss, xs, n, cap, budget) && i < |ss|
    ensures HwOk(ss[i].hw)
  {
    RunInv(ss, xs, n, cap, budget, i);
  }

  lemma OneMore(xs: seq<Step>, i: nat, j: nat, q: nat)
    requires i < j <= |xs|
    ensures Finishes(xs[i..j], q) == Finishes(xs[i..j - 1], q) + (if Ends(xs[j - 1], q) then 1 else 0)
    ensures Reaps(xs[i..j], q) == Reaps(xs[i..j - 1], q) + (if xs[j - 1] == ReapJob(q) then 1 else 0)
  {
    assert xs[i..j][..j - i - 1] == xs[i..j - 1];
  }

  lemma {:induction false} Waits(ss: seq<State>, xs: seq<Step>, n: nat, cap: nat, budget: nat, i: nat, j: nat, k: nat)
    requires IsRun(ss, xs, n, cap, budget) && i <= j < |ss|
    requires forall m :: i <= m <= j ==> k in ss[m].pass
    ensures ss[j].pass[k] == ss[i].pass[k]
    decreases j
  {
    if i < j {
      Waits(ss, xs, n, cap, budget, i, j - 1, k);
      WaitsOn(ss, xs, n, cap, budget, j - 1, k);
    }
  }

  lemma WaitsOn(ss: seq<State>, xs: seq<Step>, n: nat, cap: nat, budget: nat, i: nat, k: nat)
    requires IsRun(ss, xs, n, cap, budget) && i < |xs| && k in ss[i].pass && k in ss[i + 1].pass
    ensures ss[i + 1].pass[k] == ss[i].pass[k]
  {
    RunInv(ss, xs, n, cap, budget, i);
    assert Leads(ss, xs, i, cap, budget);
    StepHw(ss[i], xs[i], k, cap, budget);
  }

  lemma {:induction false} PassedOn(completed: seq<nat>, pass: seq<nat>, q: nat, r: nat)
    requires r <= q < |pass| && AllPassed(completed, pass, r)
    ensures q < |completed| && completed[q] >= pass[q]
    decreases |pass| - r
  {
    if r < q { PassedOn(completed, pass, q, r + 1); }
  }

  /**
   * A buffer unmapped by step `i`, while a job was on queue `q`, and free to go in state
   * `j`: by then that job has finished, unless a failed job was reaped from the queue in
   * the meantime; and then, if no job finished, it is on the hardware still.
   */
  lemma QuarantinePass(ss: seq<State>, xs: seq<Step>, n: nat, cap: nat, budget: nat, i: nat, j: nat, k: nat, q: nat)
    requires IsRun(ss, xs, n, cap, budget) && i < j < |ss| && q < NQ
    requires |ss[i].hw.active| == NQ && ss[i].hw.active[q]
    requires k !in ss[i].pass && forall m :: i < m <= j ==> k in ss[m].pass
    requires MayFree(ss[j], k)
    ensures Finishes(xs[i..j], q) > 0 || (Reaps(xs[i..j], q) > 0 && |ss[j].hw.active| == NQ && ss[j].hw.active[q])
  {
    Counted(ss, xs, n, cap, budget, i, j, q);
    PassTaken(ss, xs, n, cap, budget, i, j, k);
    PassedOn(ss[j].hw.completed, ss[j].pass[k], q, 0);
  }

  /** The snapshot of a buffer unmapped by step `i`: what had been sent to each queue by then. */
  lemma PassTaken(ss: seq<State>, xs: seq<Step>, n: nat, cap: nat, budget: nat, i: nat, j: nat, k: nat)
    requires IsRun(ss, xs, n, cap, budget) && i < j < |ss|
    requires k !in ss[i].pass && forall m :: i < m <= j ==> k in ss[m].pass
    ensures HwOk(ss[i].hw) && ss[j].pass[k] == ss[i].hw.submitted
  {
    RunInv(ss, xs, n, cap, budget, i);
    assert Leads(ss, xs, i, cap, budget);
    StepHw(ss[i], xs[i], k, cap, budget);
    Waits(ss, xs, n, cap, budget, i + 1, j, k);
  }

  /** The other way: with the job still running, its queue holds the buffer back exactly until a reap. */
  lemma QueuePasses(ss: seq<State>, xs: seq<Step>, n: nat, cap: nat, budget: nat, i: nat, j: nat, k: nat, q: nat)
    requires IsRun(ss, xs, n, cap, budget) && i < j < |ss| && q < NQ
    requires |ss[i].hw.active| == NQ && ss[i].hw.active[q]
    requires k !in ss[i].pass && forall m :: i < m <= j ==> k in ss[m].pass
    requires Finishes(xs[i..j], q) == 0
    ensures |ss[j].hw.completed| == NQ && |ss[j].hw.active| == NQ && ss[j].hw.active[q] && |ss[j].pass[k]| == NQ
    ensures ss[j].hw.completed[q] >= ss[j].pass[k][q] <==> Reaps(xs[i..j], q) > 0
  {
    Counted(ss, xs, n, cap, budget, i, j, q);
    PassTaken(ss, xs, n, cap, budget, i, j, k);
  }

  // ---- and that it does leave ----

  /** A snapshot is never ahead of what has been sent. */
  ghost predicate Below(hw: Hw, pass: map<nat, seq<nat>>, k: nat) {
    k in pass ==> |pass[k]| == |hw.submitted| && forall q :: 0 <= q < |hw.submitted| ==> pass[k][q] <= hw.submitted[q]
  }

  lemma StepBelow(s: State, x: Step, k: nat, cap: nat, budget: nat)
    requires Inv(s, cap, budget) && Enabled(s, x) && Below(s.hw, s.pass, k)
    ensures Sane(s) && Below(Next(s, x, cap, budget).hw, Next(s, x, cap, budget).pass, k)
  {
    StepHw(s, x, k, cap, budget);
  }

  lemma {:induction false} RunBelow(ss: seq<State>, xs: seq<Step>, n: nat, cap: nat, budget: nat, i: nat, k: nat)
    requires IsRun(ss, xs, n, cap, budget) && i < |ss|
    ensures Below(ss[i].hw, ss[i].pass, k)
    decreases i
  {
    if i > 0 {
      RunBelow(ss, xs, n, cap, budget, i - 1, k);
      LeadsBelow(ss, xs, n, cap, budget, i - 1, k);
    }
  }

  lemma LeadsBelow(ss: seq<State>, xs: seq<Step>, n: nat, cap: nat, budget: nat, i: nat, k: nat)
    requires IsRun(ss, xs, n, cap, budget) && i < |xs| && Below(ss[i].hw, ss[i].pass, k)
    ensures Below(ss[i + 1].hw, ss[i + 1].pass, k)
  {
    RunInv(ss, xs, n, cap, budget, i);
    assert Leads(ss, xs, i, cap, budget);
    StepBelow(ss[i], xs[i], k, cap, budget);
  }

  /** With no job on the hardware and the last flush after the last change, every quarantined buffer may go. */
  lemma QuarantineEnds(ss: seq<State>, xs: seq<Step>, n: nat, cap: nat, budget: nat, i: nat, k: nat)
    requires IsRun(ss, xs, n, cap, budget) && i < |ss| && k in ss[i].pass && ss[i].c.tlbGen == ss[i].c.ptGen
    requires forall q :: 0 <= q < |ss[i].hw.active| ==> !ss[i].hw.active[q]
    ensures MayFree(ss[i], k)
  {
    RunInv(ss, xs, n, cap, budget, i);
    RunBelow(ss, xs, n, cap, budget, i, k);
    MayGo(ss[i], cap, budget, k);
  }

  lemma MayGo(s: State, cap: nat, budget: nat, k: nat)
    requires Inv(s, cap, budget) && Below(s.hw, s.pass, k) && k in s.pass && s.c.tlbGen == s.c.ptGen
    requires forall q :: 0 <= q < |s.hw.active| ==> !s.hw.active[q]
    ensures MayFree(s, k)
  {
    assert Tied(s, k);
    assert GenOk(s.t, s.c, k);
    ReachedFrom(s.hw.completed, s.pass[k], 0);
  }

  /** A buffer let go of while nothing runs is flushed at once and may go at once. */
  lemma IdleLeavesAtOnce(s: State, cap: nat, budget: nat, k: nat)
    requires Inv(s, cap, budget) && k in s.uses
    requires forall q :: 0 <= q < |s.hw.active| ==> !s.hw.active[q]
    ensures InTable(s.t, k) && MayFree(Quarantine(s, k), k)
  {
    UsedInTable(s, cap, budget, k);
    NotBusy(s.hw, 0);
    ReachedFrom(s.hw.completed, s.hw.submitted, 0);
  }

  lemma {:induction false} NotBusy(hw: Hw, q: nat)
    requires q <= |hw.active| && forall r :: 0 <= r < |hw.active| ==> !hw.active[r]
    ensures !Busy(hw, q)
    decreases |hw.active| - q
  {
    if q < |hw.active| { NotBusy(hw, q + 1); }
  }

  lemma {:induction false} ReachedFrom(completed: seq<nat>, pass: seq<nat>, q: nat)
    requires q <= |pass| <= |completed| && forall r :: 0 <= r < |pass| ==> completed[r] >= pass[r]
    ensures AllPassed(completed, pass, q)
    decreases |pass| - q
  {
    if q < |pass| { ReachedFrom(completed, pass, q + 1); }
  }

  // ---- and that it may leave too early ----

  /** Only its creator holds the buffer, and no job names it. */
  predicate Solo(s: State, k: nat) {
    && k in s.uses && s.uses[k].owner != 0 && s.uses[k].sharers == {} && s.uses[k].opens == 0
    && s.uses[k].refs == 1 && s.uses[k].inflight == 0
  }

  ghost predicate Idle(hw: Hw) {
    HwOk(hw) && forall q :: 0 <= q < NQ ==> !hw.active[q]
  }

  lemma SoloClosed(s: State, k: nat, client: nat)
    requires Solo(s, k) && InTable(s.t, k) && |s.hw.active| == NQ && s.hw.active[1]
    ensures var t := CloseHandle(s, client, k);
      && t.hw == s.hw && t.pass == s.pass[k := s.hw.submitted] && k in t.t.maps && !t.t.maps[k].live
      && t.t.maps[k].clearGen == t.c.ptGen
  {
    assert Busy(s.hw, 1) && Busy(s.hw, 0);
  }

  ghost predicate Goes(s: State, x: Step, t: State, cap: nat, budget: nat) {
    Sane(s) && Enabled(s, x) && t == Next(s, x, cap, budget)
  }

  /** In a state with idle queues, a job starts on queue 1 and then a buffer's creator closes it. */
  lemma ClosedWhileBusy(s: State, k: nat, cap: nat, budget: nat) returns (s1: State, s2: State)
    requires Sane(s) && Solo(s, k) && Idle(s.hw) && s.hw.doomed > 0 && k !in s.pass
    ensures s2.hw.doomed > 0 && !s2.hw.wedged
    ensures Goes(s, KickJob(1, false), s1, cap, budget) && k !in s1.pass && |s1.hw.active| == NQ && s1.hw.active[1]
    ensures Goes(s1, CloseBo(s.uses[k].owner, k), s2, cap, budget)
    ensures s2.hw == s1.hw && HwOk(s2.hw) && (forall q :: 0 <= q < NQ ==> s2.hw.active[q] == (q == 1))
    ensures k in s2.pass && s2.pass[k] == s2.hw.submitted && k in s2.t.maps && !s2.t.maps[k].live
    ensures s2.t.maps[k].clearGen == s2.c.ptGen
  {
    NotBusy(s.hw, 0);
    s1 := Kick(s, 1, false);
    assert Sane(s1) && InTable(s1.t, k);
    SoloClosed(s1, k, s.uses[k].owner);
    s2 := CloseHandle(s1, s.uses[k].owner, k);
  }

  /** Then a failed job is reaped from queue 1, and a job starts on queue 0 and flushes. */
  lemma ReapedAndFlushed(s2: State, k: nat, cap: nat, budget: nat) returns (s3: State, s4: State)
    requires Sane(s2) && HwOk(s2.hw) && forall q :: 0 <= q < NQ ==> s2.hw.active[q] == (q == 1)
    requires k in s2.pass && s2.pass[k] == s2.hw.submitted && k in s2.t.maps && !s2.t.maps[k].live
    requires s2.t.maps[k].clearGen == s2.c.ptGen && s2.hw.doomed > 0 && !s2.hw.wedged
    ensures !MayFree(s2, k)
    ensures Goes(s2, ReapJob(1), s3, cap, budget) && Goes(s3, KickJob(0, true), s4, cap, budget)
    ensures k in s3.pass && MayFree(s4, k) && |s4.hw.active| == NQ && s4.hw.active[1]
  {
    if AllPassed(s2.hw.completed, s2.pass[k], 0) { PassedOn(s2.hw.completed, s2.pass[k], 1, 0); }
    s3 := Reap(s2, 1);
    assert Sane(s3);
    s4 := Kick(s3, 0, true);
    ReachedFrom(s4.hw.completed, s4.pass[k], 0);
  }

  lemma LastLeads(ss: seq<State>, xs: seq<Step>, i: nat, s: State, x: Step, t: State, cap: nat, budget: nat)
    requires i < |xs| < |ss| && Goes(s, x, t, cap, budget) && ss[i] == s && xs[i] == x && ss[i + 1] == t
    ensures Leads(ss, xs, i, cap, budget)
  {
  }

  /** The first buffer of a fresh server: one page, from a block the allocator has at address 0. */
  lemma FirstBuffer(s: State, x: Step, t: State, cap: nat, budget: nat)
    requires s == Start(1) && Sane(s) && Goes(s, x, t, cap, budget)
    requires x == Create(NewBo(1, 1, false, false, false, 0, 0), [], [0], 0)
    ensures t.hw == s.hw && t.pass == s.pass && Solo(t, 0)
  {
    var r := NewBo(1, 1, false, false, false, 0, 0);
    assert FreeSlot(s.t, 0) == 0;
    assert PagesFor(1) == 1;
    assert PickIndex(s.m.pool, 1, false, false) == -1;
    assert VaAlloc(s.t.va, 1).ok;
  }

  lemma GoesKeeps(s: State, x: Step, t: State, cap: nat, budget: nat)
    requires Inv(s, cap, budget) && Goes(s, x, t, cap, budget)
    ensures Inv(t, cap, budget) && Sane(t)
  {
    StepKeeps(s, x, cap, budget);
    InvSane(t, cap, budget);
  }

  lemma FirstStates(cap: nat, budget: nat) returns (s0: State, x: Step, s: State)
    ensures s0 == Start(1) && x.Create? && Goes(s0, x, s, cap, budget) && Inv(s, cap, budget)
    ensures Sane(s) && Solo(s, 0) && s.uses[0].owner == 1 && Idle(s.hw) && 0 !in s.pass
  {
    s0 := Start(1);
    StartInv(1, cap, budget);
    x, s := FirstCreate(s0, cap, budget);
    GoesKeeps(s0, x, s, cap, budget);
  }

  lemma FirstCreate(s: State, cap: nat, budget: nat) returns (x: Step, t: State)
    requires s == Start(1) && Inv(s, cap, budget)
    ensures x.Create? && Goes(s, x, t, cap, budget)
    ensures t.hw == s.hw && t.pass == s.pass && Solo(t, 0) && t.uses[0].owner == 1
  {
    InvSane(s, cap, budget);
    x := Create(NewBo(1, 1, false, false, false, 0, 0), [], [0], 0);
    t := Next(s, x, cap, budget);
    FirstBuffer(s, x, t, cap, budget);
  }

  lemma GoesTwice(s: State, x: Step, s1: State, y: Step, s2: State, cap: nat, budget: nat)
    requires Inv(s, cap, budget) && Goes(s, x, s1, cap, budget) && Goes(s1, y, s2, cap, budget)
    ensures Sane(s2)
  {
    GoesKeeps(s, x, s1, cap, budget);
    GoesKeeps(s1, y, s2, cap, budget);
  }

  /** Steps one after another, from any state. */
  ghost predicate IsStretch(ss: seq<State>, xs: seq<Step>, cap: nat, budget: nat) {
    && |ss| == |xs| + 1
    && forall i: nat {:trigger Leads(ss, xs, i, cap, budget)} :: i < |xs| ==> Leads(ss, xs, i, cap, budget)
  }

  lemma Prepend(s: State, x: Step, ss: seq<State>, xs: seq<Step>, cap: nat, budget: nat)
    requires IsStretch(ss, xs, cap, budget) && Goes(s, x, ss[0], cap, budget)
    ensures IsStretch([s] + ss, [x] + xs, cap, budget)
  {
    var ss', xs' := [s] + ss, [x] + xs;
    forall i: nat | i < |xs'| ensures Leads(ss', xs', i, cap, budget) {
      if i > 0 { assert Leads(ss, xs, i - 1, cap, budget); }
      LastLeads(ss', xs', i, ss'[i], xs'[i], ss'[i + 1], cap, budget);
    }
  }

  lemma LateStretch(s2: State, k: nat, cap: nat, budget: nat) returns (s3: State, s4: State)
    requires Sane(s2) && HwOk(s2.hw) && forall q :: 0 <= q < NQ ==> s2.hw.active[q] == (q == 1)
    requires k in s2.pass && s2.pass[k] == s2.hw.submitted && k in s2.t.maps && !s2.t.maps[k].live
    requires s2.t.maps[k].clearGen == s2.c.ptGen && s2.hw.doomed > 0 && !s2.hw.wedged
    ensures IsStretch([s2, s3, s4], [ReapJob(1), KickJob(0, true)], cap, budget)
    ensures !MayFree(s2, k) && MayFree(s4, k) && |s4.hw.active| == NQ && s4.hw.active[1]
  {
    s3, s4 := ReapedAndFlushed(s2, k, cap, budget);
    var none: seq<Step> := [];
    Prepend(s3, KickJob(0, true), [s4], none, cap, budget);
    assert [s3] + [s4] == [s3, s4] && [KickJob(0, true)] + none == [KickJob(0, true)];
    Prepend(s2, ReapJob(1), [s3, s4], [KickJob(0, true)], cap, budget);
    assert [s2] + [s3, s4] == [s2, s3, s4] && [ReapJob(1)] + [KickJob(0, true)] == [ReapJob(1), KickJob(0, true)];
  }

  /** The story of one buffer, from the start of the first job on. */
  ghost predicate Early(ss: seq<State>, k: nat) {
    && |ss| == 5 && k !in ss[1].pass && k in ss[2].pass && !MayFree(ss[2], k)
    && MayFree(ss[4], k) && |ss[4].hw.active| == NQ && ss[4].hw.active[1]
  }

  /**
   In any state with idle queues and a render whose bin failed, this may happen to any
   buffer that only its creator holds.
   */
  lemma EarlyStretch(s: State, k: nat, cap: nat, budget: nat) returns (ss: seq<State>, xs: seq<Step>)
    requires Inv(s, cap, budget) && Sane(s) && Solo(s, k) && Idle(s.hw) && s.hw.doomed > 0 && k !in s.pass
    ensures xs == [KickJob(1, false), CloseBo(s.uses[k].owner, k)] + [ReapJob(1), KickJob(0, true)]
    ensures IsStretch(ss, xs, cap, budget) && ss[0] == s && Early(ss, k)
  {
    var x, y := KickJob(1, false), CloseBo(s.uses[k].owner, k);
    var s1, s2 := ClosedWhileBusy(s, k, cap, budget);
    GoesTwice(s, x, s1, y, s2, cap, budget);
    var s3, s4 := LateStretch(s2, k, cap, budget);
    var late, zs := [s2, s3, s4], [ReapJob(1), KickJob(0, true)];
    Prepend(s1, y, late, zs, cap, budget);
    Prepend(s, x, [s1] + late, [y] + zs, cap, budget);
    ss, xs := [s] + ([s1] + late), [x] + ([y] + zs);
    assert xs == [x, y] + zs;
  }

  /** A bin starts, the GPU is reset, and the bin fails: its render is left behind. */
  lemma BinFails(s: State, k: nat, cap: nat, budget: nat) returns (s1: State, s2: State, s3: State)
    requires Inv(s, cap, budget) && Sane(s) && Solo(s, k) && Idle(s.hw) && k !in s.pass
    ensures Goes(s, KickJob(BIN, true), s1, cap, budget) && Goes(s1, ResetGpu, s2, cap, budget)
    ensures Goes(s2, FailJob(BIN, true), s3, cap, budget) && Inv(s3, cap, budget) && Sane(s3)
    ensures Solo(s3, k) && s3.uses == s.uses && Idle(s3.hw) && s3.hw.doomed > 0 && k !in s3.pass
  {
    NotBusy(s.hw, 0);
    s1 := Kick(s, BIN, true);
    GoesKeeps(s, KickJob(BIN, true), s1, cap, budget);
    s2 := Reset(s1);
    GoesKeeps(s1, ResetGpu, s2, cap, budget);
    s3 := Fail(s2, BIN, true);
    GoesKeeps(s2, FailJob(BIN, true), s3, cap, budget);
  }

  lemma FailedStretch(s: State, k: nat, cap: nat, budget: nat) returns (ss: seq<State>, xs: seq<Step>)
    requires Inv(s, cap, budget) && Sane(s) && Solo(s, k) && Idle(s.hw) && k !in s.pass
    ensures IsStretch(ss, xs, cap, budget) && ss[0] == s && |xs| == 7 && Early(ss[3..], k)
    ensures xs[..3] == [KickJob(BIN, true), ResetGpu, FailJob(BIN, true)]
    ensures xs[3..] == [KickJob(1, false), CloseBo(s.uses[k].owner, k)] + [ReapJob(1), KickJob(0, true)]
  {
    var s1, s2, s3 := BinFails(s, k, cap, budget);
    var late, zs := EarlyStretch(s3, k, cap, budget);
    var x, y, z := KickJob(BIN, true), ResetGpu, FailJob(BIN, true);
    PrependThree(s, x, s1, y, s2, z, late, zs, cap, budget);
    ss, xs := [s, s1, s2] + late, [x, y, z] + zs;
    assert ss[3..] == late && xs[3..] == zs;
  }

  lemma PrependThree(s: State, x: Step, s1: State, y: Step, s2: State, z: Step, ss: seq<State>, xs: seq<Step>, cap: nat,
                     budget: nat)
    requires IsStretch(ss, xs, cap, budget) && Goes(s2, z, ss[0], cap, budget)
    requires Goes(s, x, s1, cap, budget) && Goes(s1, y, s2, cap, budget)
    ensures IsStretch([s, s1, s2] + ss, [x, y, z] + xs, cap, budget)
  {
    Prepend(s2, z, ss, xs, cap, budget);
    Prepend(s1, y, [s2] + ss, [z] + xs, cap, budget);
    Prepend(s, x, [s1] + ([s2] + ss), [y] + ([z] + xs), cap, budget);
    assert [s] + ([s1] + ([s2] + ss)) == [s, s1, s2] + ss && [x] + ([y] + ([z] + xs)) == [x, y, z] + xs;
  }

  /**
   A run of the server from its start - a buffer is created, a reset fails a bin, a job
   starts, the buffer is closed, the bin's render is reaped, another job starts - after
   which the buffer may leave quarantine although the job that ran when it was unmapped is
   still on the hardware.
   */
  lemma ReapPassesEarly(cap: nat, budget: nat) returns (ss: seq<State>, xs: seq<Step>)
    ensures IsRun(ss, xs, 1, cap, budget) && |xs| == 8 && xs[0].Create?
    ensures xs[1..][..3] == [KickJob(BIN, true), ResetGpu, FailJob(BIN, true)]
    ensures xs[1..][3..] == [KickJob(1, false), CloseBo(1, 0)] + [ReapJob(1), KickJob(0, true)]
    ensures Early(ss[1..][3..], 0)
  {
    var s0, x, s := FirstStates(cap, budget);
    var ss1, xs1 := FailedStretch(s, 0, cap, budget);
    Prepend(s0, x, ss1, xs1, cap, budget);
    ss, xs := [s0] + ss1, [x] + xs1;
    assert ss[1..] == ss1 && xs[1..] == xs1;
  }
}
