/** Every run of the buffer table, and what holds in each of its states. */
module BoRuns {
  import opened GpuSpace
  import opened GpuTlb
  import opened BlockPool
  import opened Lowmem
  import opened BoMemory
  import opened BoState
  import opened BoInv
  import opened BoSteps

  /**
   * One step: a request, the part of a pass over the table that looks at one slot, an
   * event of the hardware, or what the GPU does to its cached translations.
   */
  datatype Step =
    | Create(r: NewBo, offers: seq<Offer>, extra: seq<nat>, now: nat)
    | ImportForeign(client: nat, window: nat, pages: nat)
    | ImportOwn(client: nat, k: nat)
    | ExportBo(client: nat, k: nat)
    | OpenFd(k: nat)
    | CloseFd(k: nat)
    | CloseBo(client: nat, k: nat)
    | OwnerGone(client: nat, k: nat)
    | SharerGone(client: nat, k: nat)
    | SubmitJob(bos: seq<nat>)
    | JobEnds(j: nat)
    | PollSlot(k: nat, now: nat)
    | Sweep(now: nat, idle: nat)
    | KickJob(q: nat, flush: bool)
    | FinishJob(q: nat)
    | FailJob(q: nat, pair: bool)
    | ReapJob(q: nat)
    | ResetGpu
    | TlbLoad(p: nat)
    | TlbEvict(e: Entry)

  /**
   * When a step may happen. A reset fails every job it finds on the hardware before anything
   * else is started, and only a render whose bin failed that way is ever reaped.
   */
  predicate Enabled(s: State, x: Step) {
    match x
    case Create(r, _, _, _) => r.client != 0
    case ImportForeign(client, _, _) => client != 0
    case OwnerGone(client, _) => client != 0
    case SharerGone(client, _) => client != 0
    case JobEnds(j) => j in s.jobs.lists
    case KickJob(q, _) => q < NQ && q < |s.hw.active| && !s.hw.active[q] && (s.hw.wedged ==> !Busy(s.hw, 0))
    case FinishJob(q) => q < NQ && q < |s.hw.active| && s.hw.active[q] && (s.hw.wedged ==> q == CPU)
    case FailJob(q, _) => q < NQ && q < |s.hw.active| && s.hw.active[q] && s.hw.wedged && q != CPU
    case ReapJob(q) => q == RENDER && s.hw.doomed > 0 && (s.hw.wedged ==> !Busy(s.hw, 0))
    case TlbLoad(p) => p < |s.t.va.pt| && s.t.va.pt[p].Valid?
    case _ => true
  }

  /** The tables have their sizes and the live buffers' ranges lie inside them. */
  ghost predicate Sane(s: State) {
    && VaOk(s.t.va) && |s.hw.submitted| == NQ && |s.hw.completed| == NQ && |s.hw.active| == NQ
    && forall k :: k in s.uses ==> InTable(s.t, k)
  }

  lemma InvSane(s: State, cap: nat, budget: nat)
    requires Inv(s, cap, budget)
    ensures Sane(s)
  {
    AllInTable(s, cap, budget);
  }

  ghost function Next(s: State, x: Step, cap: nat, budget: nat): State
    requires Sane(s) && Enabled(s, x)
  {
    match x
    case Create(r, offers, extra, now) => CreateBo(s, r, offers, extra, now, cap, budget).s
    case ImportForeign(client, window, pages) => ImportWindow(s, client, window, pages).s
    case ImportOwn(client, k) => ImportExport(s, client, k)
    case ExportBo(client, k) => Export(s, client, k)
    case OpenFd(k) => OpenName(s, k)
    case CloseFd(k) => CloseName(s, k)
    case CloseBo(client, k) => CloseHandle(s, client, k)
    case OwnerGone(client, k) => LeaveOwner(s, client, k)
    case SharerGone(client, k) => LeaveSharer(s, client, k)
    case SubmitJob(bos) => Submit(s, bos)
    case JobEnds(j) => EndJob(s, j)
    case PollSlot(k, now) => Polled(s, k, now, cap)
    case Sweep(now, idle) => s.(m := Trim(s.m, cap, now, idle))
    case KickJob(q, flush) => Kick(s, q, flush)
    case FinishJob(q) => Finish(s, q)
    case FailJob(q, pair) => Fail(s, q, pair)
    case ReapJob(q) => Reap(s, q)
    case ResetGpu => Reset(s)
    case TlbLoad(p) => s.(c := Load(s.t, s.c, p))
    case TlbEvict(e) => s.(c := Evict(s.c, e))
  }

  lemma TlbKeeps(s: State, p: nat, e: Entry, cap: nat, budget: nat)
    requires Inv(s, cap, budget)
    ensures p < |s.t.va.pt| && s.t.va.pt[p].Valid? ==> Inv(s.(c := Load(s.t, s.c, p)), cap, budget)
    ensures Inv(s.(c := Evict(s.c, e)), cap, budget)
  {
    HardwareKeeps(s.t, s.c, p, e);
    if p < |s.t.va.pt| && s.t.va.pt[p].Valid? { CacheChange(s, Load(s.t, s.c, p), s.hw, cap, budget); }
    CacheChange(s, Evict(s.c, e), s.hw, cap, budget);
  }

  lemma StepKeeps(s: State, x: Step, cap: nat, budget: nat)
    requires Inv(s, cap, budget) && Enabled(s, x)
    ensures Sane(s) && Inv(Next(s, x, cap, budget), cap, budget)
  {
    InvSane(s, cap, budget);
    match x
    case Create(r, offers, extra, now) => CreateKeeps(s, r, offers, extra, now, cap, budget);
    case ImportForeign(client, window, pages) => ImportWindowKeeps(s, client, window, pages, cap, budget);
    case ImportOwn(client, k) => ImportExportKeeps(s, client, k, cap, budget);
    case ExportBo(client, k) => ExportKeeps(s, client, k, cap, budget);
    case OpenFd(k) => OpenNameKeeps(s, k, cap, budget);
    case CloseFd(k) => CloseNameKeeps(s, k, cap, budget);
    case CloseBo(client, k) => CloseHandleKeeps(s, client, k, cap, budget);
    case OwnerGone(client, k) => LeaveKeeps(s, client, k, cap, budget);
    case SharerGone(client, k) => LeaveKeeps(s, client, k, cap, budget);
    case SubmitJob(bos) => SubmitKeeps(s, bos, cap, budget);
    case JobEnds(j) => EndJobKeeps(s, j, cap, budget);
    case PollSlot(k, now) => PolledKeeps(s, k, now, cap, budget);
    case Sweep(now, idle) => TrimPoolKeeps(s, now, idle, cap, budget);
    case KickJob(q, flush) => KickKeeps(s, q, flush, cap, budget);
    case FinishJob(q) => FinishKeeps(s, q, cap, budget);
    case FailJob(q, pair) => FailKeeps(s, q, pair, cap, budget);
    case ReapJob(q) => ReapKeeps(s, q, cap, budget);
    case ResetGpu => ResetKeeps(s, cap, budget);
    case TlbLoad(p) => TlbKeeps(s, p, Entry(0, Overflow(0)), cap, budget);
    case TlbEvict(e) => TlbKeeps(s, 0, e, cap, budget);
  }

  // ---- runs ----

  function OvfFrames(n: nat): (r: seq<Frame>)
    ensures |r| == n
  {
    seq(n, i requires 0 <= i < n => Overflow(i))
  }

  const EMPTY := Memory(map[], [], 0, 0, [], [], 0)

  /** A server that has mapped its overflow pool of `n` pages and nothing else. */
  ghost function Start(n: nat): State
    requires 0 < n <= PT_ENTRIES - BASE
  {
    var a := VaAlloc(Va(Invalids(PT_ENTRIES), [], BASE), n);
    State(MapIn(Table(a.va, map[]), OVF, Span(a.lo, n), OvfFrames(n)), Cache({}, 1, 1),
          Hw(seq(NQ, _ => 0), seq(NQ, _ => 0), seq(NQ, _ => false), false, 0), map[], map[], map[], Jobs(map[], 0), EMPTY)
  }

  lemma {:induction false} NothingHeld(n: nat)
    ensures Held(map[], n) == multiset{} && LowBytes(map[], n) == 0
  {
    if n > 0 { NothingHeld(n - 1); }
  }

  lemma StartSpace(n: nat)
    requires 0 < n <= PT_ENTRIES - BASE
    ensures SpaceOk(Start(n).t, Start(n).c)
  {
    var v := Va(Invalids(PT_ENTRIES), [], BASE);
    var t := Table(v, map[]);
    forall p: nat | p < PT_ENTRIES ensures Backed(t, p) {}
    assert TableOk(t) && CacheOk(t, Cache({}, 0, 0));
    InstallSpace(t, Cache({}, 0, 0), OVF, n, OvfFrames(n));
    FlushKeeps(Start(n).t, Cache({}, 1, 0));
  }

  lemma StartInv(n: nat, cap: nat, budget: nat)
    requires 0 < n <= PT_ENTRIES - BASE
    ensures Inv(Start(n), cap, budget)
  {
    var s := Start(n);
    StartSpace(n);
    NothingHeld(MAX_BOS);
    assert Ids(EMPTY.pool) == [];
    assert MemoryOk(s.m, cap, budget);
    forall l: nat ensures Tied(s, l) {}
  }

  /** `ss` are the states of a run that takes the steps `xs` from the start. */
  ghost predicate IsRun(ss: seq<State>, xs: seq<Step>, n: nat, cap: nat, budget: nat) {
    && 0 < n <= PT_ENTRIES - BASE && |ss| == |xs| + 1 && ss[0] == Start(n)
    && forall i {:trigger Leads(ss, xs, i, cap, budget)} :: 0 <= i < |xs| ==> Leads(ss, xs, i, cap, budget)
  }

  ghost predicate Leads(ss: seq<State>, xs: seq<Step>, i: nat, cap: nat, budget: nat)
    requires i < |xs| < |ss|
  {
    Sane(ss[i]) && Enabled(ss[i], xs[i]) && ss[i + 1] == Next(ss[i], xs[i], cap, budget)
  }

  lemma LeadsKeeps(ss: seq<State>, xs: seq<Step>, i: nat, cap: nat, budget: nat)
    requires i < |xs| < |ss| && Leads(ss, xs, i, cap, budget) && Inv(ss[i], cap, budget)
    ensures Inv(ss[i + 1], cap, budget)
  {
    StepKeeps(ss[i], xs[i], cap, budget);
  }

  lemma {:induction false} RunInv(ss: seq<State>, xs: seq<Step>, n: nat, cap: nat, budget: nat, i: nat)
    requires IsRun(ss, xs, n, cap, budget) && i < |ss|
    ensures Inv(ss[i], cap, budget)
    decreases i
  {
    if i == 0 {
      StartInv(n, cap, budget);
    } else {
      RunInv(ss, xs, n, cap, budget, i - 1);
      assert Leads(ss, xs, i - 1, cap, budget);
      LeadsKeeps(ss, xs, i - 1, cap, budget);
    }
  }
}
