/** Submits and attached fences in the history, and the two promises of implicit sync. */
module ImplicitSyncRuns {
  import opened SchedState
  import opened SchedInv
  import opened SchedSteps
  import opened SchedRuns
  import opened SchedTheorems
  import opened ImplicitSync

  // ------------------------------------------------------------------------
  // A submit
  // ------------------------------------------------------------------------

  lemma FirstDepsFit(s: State, slot: nat, rq: Request)
    requires Inv(s)
    ensures DepsFit(s, FirstDeps(s, slot, rq).deps)
  {
    var flags := if HasPair(rq.op) then {false} else {false, true};
    ExplicitFit(s, slot, rq.ins, flags);
    ImplicitDepsFit(s, {slot}, rq.bos, DepSet(ExplicitDeps(s, slot, rq.ins, flags), 0));
  }

  /** The two histories inside a bin/render submit. */
  function BinH(h: History, slot: nat, rq: Request): History {
    EnqueueH(h, slot, BIN, FirstDeps(h.s, slot, rq).deps, [])
  }

  function RenderH(h: History, slot: nat, rq: Request): History {
    EnqueueH(BinH(h, slot, rq), slot, RENDER, ExplicitDeps(h.s, slot, rq.ins, {true}), rq.bos)
  }

  lemma PairKeeps(h: History, slot: nat, rq: Request)
    requires InvH(h) && slot in h.s.used && HasPair(rq.op)
    ensures InvH(BinH(h, slot, rq)) && InvH(RenderH(h, slot, rq)) && InvH(QueueH(h, slot, rq))
  {
    var s := h.s;
    InvNumbered(s);
    FirstDepsFit(s, slot, rq);
    EnqueueHKeeps(h, slot, BIN, FirstDeps(s, slot, rq).deps, []);
    ExplicitFit(s, slot, rq.ins, {true});
    DepsFitLater(s, slot, BIN, FirstDeps(s, slot, rq).deps, [], ExplicitDeps(s, slot, rq.ins, {true}));
    EnqueueHKeeps(BinH(h, slot, rq), slot, RENDER, ExplicitDeps(s, slot, rq.ins, {true}), rq.bos);
    PairShape(h, slot, rq);
    LinkHKeeps(RenderH(h, slot, rq), s.w.gseq + 1, s.w.gseq + 2);
  }

  lemma PairShape(h: History, slot: nat, rq: Request)
    requires Numbered(h.s.w)
    ensures var h' := RenderH(h, slot, rq);
      var n := h.s.w.gseq + 1;
      && Linkable(h'.s.w, n, n + 1) && n in h'.cover && n + 1 in h'.cover && h'.s.w.gseq == n + 1
      && !OnQueue(h'.s.w, n + 1)
  {
  }

  lemma LinkHKeeps(h: History, b: nat, r: nat)
    requires InvH(h) && Linkable(h.s.w, b, r) && b in h.cover && r in h.cover && h.s.w.gseq == r && !OnQueue(h.s.w, r)
    ensures InvH(LinkH(h, b, r))
  {
    InvNumbered(h.s);
    LinkKeeps(h.s, b, r);
    LinkCover(h.s.w, h.cover, b, r);
    LinkUses(h.s.w, h.cover, h.s.last, h.uses, b, r);
  }

  lemma QueueHKeeps(h: History, slot: nat, rq: Request)
    requires InvH(h) && slot in h.s.used
    ensures InvH(QueueH(h, slot, rq))
  {
    if HasPair(rq.op) {
      PairKeeps(h, slot, rq);
    } else {
      FirstDepsFit(h.s, slot, rq);
      EnqueueHKeeps(h, slot, OneQueue(rq.op), FirstDeps(h.s, slot, rq).deps, rq.bos);
    }
  }

  /** What the first job of a submit waits for. */
  function FirstCover(h: History, slot: nat, rq: Request): set<nat> {
    NewCover(h.s.w, h.cover, Cell(slot, FirstQueue(rq.op)), FirstDeps(h.s, slot, rq).deps)
  }

  lemma PairCover(h: History, slot: nat, rq: Request)
    requires HasPair(rq.op)
    ensures var n := h.s.w.gseq + 1;
      && RenderH(h, slot, rq).cover.Keys == h.cover.Keys + {n, n + 1}
      && QueueH(h, slot, rq).s.w.gseq == n + 1
      && QueueH(h, slot, rq).cover
         == h.cover[n := FirstCover(h, slot, rq)][n + 1 := RenderH(h, slot, rq).cover[n + 1] + FirstCover(h, slot, rq)]
  {
    var n := h.s.w.gseq + 1;
    var h1, h2 := BinH(h, slot, rq), RenderH(h, slot, rq);
    assert h1.cover == h.cover[n := FirstCover(h, slot, rq)];
    assert h2.cover == h1.cover[n + 1 := h2.cover[n + 1]];
    assert QueueH(h, slot, rq).cover == h2.cover[n + 1 := h2.cover[n + 1] + h2.cover[n]];
  }

  /** What the first job of a submit waits for, the last one does too; earlier records stay. */
  lemma QueueHCover(h: History, slot: nat, rq: Request)
    requires Below(h.cover, h.s.w.gseq)
    ensures var h' := QueueH(h, slot, rq);
      var n := h.s.w.gseq + 1;
      && h'.s.w.gseq == (if HasPair(rq.op) then n + 1 else n)
      && n in h'.cover && h'.s.w.gseq in h'.cover
      && FirstCover(h, slot, rq) <= h'.cover[n]
      && h'.cover[n] <= h'.cover[h'.s.w.gseq]
      && (forall g :: g in h.cover ==> g in h'.cover && h'.cover[g] == h.cover[g])
  {
    if HasPair(rq.op) {
      PairCover(h, slot, rq);
    }
  }

  /** The jobs of a submit are new; the last one holds the recorded fence. */
  ghost predicate NewJobs(w: Work, w': Work, f: Fence) {
    && w'.gseq in w'.jobs && w'.jobs[w'.gseq].fence == f && w.gseq < w'.gseq
    && (forall g :: g in w.jobs ==> g in w'.jobs && w'.jobs[g] == w.jobs[g])
    && (forall g :: g in w'.jobs && g !in w.jobs ==> w.gseq < g && (w'.jobs[g].fence == f || w'.jobs[g].fence.queue == BIN))
  }

  lemma PairJobs(s: State, slot: nat, rq: Request)
    requires Numbered(s.w) && HasPair(rq.op)
    ensures var w' := Queue(s, slot, rq).w;
      var n := s.w.gseq + 1;
      && w'.gseq == n + 1 && w'.jobs.Keys == s.w.jobs.Keys + {n, n + 1}
      && w'.jobs[n].fence == NewFence(s.page, slot, BIN) && w'.jobs[n + 1].fence == NewFence(s.page, slot, RENDER)
      && (forall g :: g in s.w.jobs ==> w'.jobs[g] == s.w.jobs[g])
  {
  }

  lemma QueueJobs(s: State, slot: nat, rq: Request)
    requires Numbered(s.w)
    ensures NewJobs(s.w, Queue(s, slot, rq).w, NewFence(s.page, slot, OneQueue(rq.op)))
  {
    if HasPair(rq.op) {
      PairJobs(s, slot, rq);
    } else {
      assert Queue(s, slot, rq).w.jobs.Keys == s.w.jobs.Keys + {s.w.gseq + 1};
    }
  }

  lemma QueueHJobs(h: History, slot: nat, rq: Request)
    requires Numbered(h.s.w)
    ensures NewJobs(h.s.w, QueueH(h, slot, rq).s.w, NewFence(h.s.page, slot, OneQueue(rq.op)))
    ensures QueueH(h, slot, rq).s.last == h.s.last && QueueH(h, slot, rq).uses == h.uses
  {
    QueueJobs(h.s, slot, rq);
    QueueHState(h, slot, rq);
  }

  /** A pending last use of another slot is covered by the first job of the submit. */
  lemma OtherUseCovered(h: History, slot: nat, rq: Request, bo: nat, q: nat, l: nat)
    requires InvH(h) && FirstDeps(h.s, slot, rq).dropped == 0
    requires bo in rq.bos && bo in h.s.last && q in h.s.last[bo] && h.s.last[bo][q].slot != slot
    requires l in h.s.w.jobs && h.s.w.jobs[l].fence == h.s.last[bo][q]
    ensures l in h.cover
      && h.cover[l] <= FirstCover(h, slot, rq)
  {
    var s := h.s;
    UnfinishedUnsignaled(s, l);
    assert PendingUse(s, {slot}, bo, q);
    assert JobOk(s.w, s.page, s.used, l);
    var flags := if HasPair(rq.op) then {false} else {false, true};
    ImplicitHas(s, {slot}, rq.bos, DepSet(ExplicitDeps(s, slot, rq.ins, flags), 0), bo, q, s.last[bo][q]);
    FirstDepsFit(s, slot, rq);
    HasCovers(h, Cell(slot, FirstQueue(rq.op)), FirstDeps(s, slot, rq).deps, l);
  }

  lemma SubmitOverwrites(h: History, slot: nat, rq: Request)
    requires InvH(h) && slot in h.s.used && FirstDeps(h.s, slot, rq).dropped == 0
    requires InvH(QueueH(h, slot, rq))
    ensures var h' := QueueH(h, slot, rq);
      h'.s.w.gseq in h'.s.w.jobs && Overwrites(h'.s.w, h'.cover, h.s.last, rq.bos, h'.s.w.gseq)
  {
    var h' := QueueH(h, slot, rq);
    var w' := h'.s.w;
    var r := w'.gseq;
    InvNumbered(h.s);
    QueueHJobs(h, slot, rq);
    QueueHCover(h, slot, rq);
    var q := OneQueue(rq.op);
    forall bo, l | bo in rq.bos && bo in h.s.last && q in h.s.last[bo] && l in w'.jobs && w'.jobs[l].fence == h.s.last[bo][q]
      ensures l in h'.cover && h'.cover[l] <= h'.cover[r]
    {
      OldUseIsOld(h, slot, rq, bo, q, l);
      if h.s.last[bo][q].slot == slot {
        assert SameRow(w', l, r);
      } else {
        OtherUseCovered(h, slot, rq, bo, q, l);
      }
    }
  }

  /** A last-use fence recorded before the submit never names one of its jobs. */
  lemma OldUseIsOld(h: History, slot: nat, rq: Request, bo: nat, q: nat, l: nat)
    requires Inv(h.s) && bo in h.s.last && q in h.s.last[bo] && q == OneQueue(rq.op)
    requires h.s.last[bo][q].queue == q
    requires l in QueueH(h, slot, rq).s.w.jobs && QueueH(h, slot, rq).s.w.jobs[l].fence == h.s.last[bo][q]
    ensures l in h.s.w.jobs && h.s.w.jobs[l].fence == h.s.last[bo][q]
  {
    InvNumbered(h.s);
    QueueHJobs(h, slot, rq);
    OldFenceNotNew(h.s, slot, q, h.s.last[bo][q]);
  }

  lemma OldFenceNotNew(s: State, slot: nat, q: nat, f: Fence)
    requires PageOk(s.page, s.used) && HandedOut(s.page, f)
    ensures f != NewFence(s.page, slot, q)
  {
    assert Num(s.page.slotGen, slot) < GEN_MOD;
  }

  lemma SubmittedHKeeps(h: History, slot: nat, rq: Request)
    requires InvH(h) && slot in h.s.used && FirstDeps(h.s, slot, rq).dropped == 0
    ensures InvH(SubmittedH(h, slot, rq)) && SubmittedH(h, slot, rq).s == Submitted(h.s, slot, rq)
  {
    var h' := QueueH(h, slot, rq);
    InvNumbered(h.s);
    QueueHKeeps(h, slot, rq);
    SubmitOverwrites(h, slot, rq);
    QueueHJobs(h, slot, rq);
    QueueHCover(h, slot, rq);
    assert JobOk(h'.s.w, h'.s.page, h'.s.used, h'.s.w.gseq);
    UseUses(h'.s.w, h'.cover, h.s.last, h.uses, rq.bos, h'.s.w.gseq);
    SubmittedKeeps(h.s, slot, rq);
    assert h'.s == Queue(h.s, slot, rq);
  }

  // ------------------------------------------------------------------------
  // An attached fence
  // ------------------------------------------------------------------------

  lemma JoinDepsFit(s: State, bos: seq<nat>, f: Fence)
    requires Inv(s) && HandedOut(s.page, f)
    ensures DepsFit(s, JoinDeps(s, bos, f).deps)
  {
    KnownFits(s, f);
    SetAddFits(s, DepSet([], 0), f);
    ImplicitDepsFit(s, {}, bos, SetAdd(DepSet([], 0), f));
  }

  lemma JoinCovers(h: History, slot: nat, bos: seq<nat>, f: Fence, bo: nat, q: nat, l: nat)
    requires InvH(h) && HandedOut(h.s.page, f) && JoinDeps(h.s, bos, f).dropped == 0
    requires bo in bos && bo in h.s.last && q in h.s.last[bo] && l in h.s.w.jobs && h.s.w.jobs[l].fence == h.s.last[bo][q]
    ensures l in h.cover && h.cover[l] <= NewCover(h.s.w, h.cover, Cell(slot, CPU), JoinDeps(h.s, bos, f).deps)
  {
    var s := h.s;
    UnfinishedUnsignaled(s, l);
    assert PendingUse(s, {}, bo, q);
    assert JobOk(s.w, s.page, s.used, l);
    SetAddHas(DepSet([], 0), f, f);
    ImplicitHas(s, {}, bos, SetAdd(DepSet([], 0), f), bo, q, f);
    JoinDepsFit(s, bos, f);
    HasCovers(h, Cell(slot, CPU), JoinDeps(s, bos, f).deps, l);
  }

  lemma JoinedHKeeps(h: History, slot: nat, bos: seq<nat>, f: Fence)
    requires InvH(h) && slot in h.s.used && HandedOut(h.s.page, f) && JoinDeps(h.s, bos, f).dropped == 0
    ensures InvH(JoinedH(h, slot, bos, f)) && JoinedH(h, slot, bos, f).s == Joined(h.s, slot, bos, f)
  {
    var deps := JoinDeps(h.s, bos, f).deps;
    var h' := EnqueueH(h, slot, CPU, deps, []);
    var w' := h'.s.w;
    var r := w'.gseq;
    InvNumbered(h.s);
    JoinDepsFit(h.s, bos, f);
    EnqueueHKeeps(h, slot, CPU, deps, []);
    assert Overwrites(w', h'.cover, h.s.last, bos, r) by {
      forall bo, l | bo in bos && bo in h.s.last && CPU in h.s.last[bo] && l in w'.jobs && l in h'.cover && r in h'.cover
          && w'.jobs[l].fence == h.s.last[bo][CPU]
        ensures h'.cover[l] <= h'.cover[r]
      {
        if l != r { JoinCovers(h, slot, bos, f, bo, CPU, l); }
      }
    }
    assert JobOk(w', h'.s.page, h'.s.used, r);
    UseUses(w', h'.cover, h.s.last, h.uses, bos, r);
    JoinedKeeps(h.s, slot, bos, f);
  }

  // ------------------------------------------------------------------------
  // Runs
  // ------------------------------------------------------------------------

  lemma InitH(mode: Mode)
    ensures InvH(History(Init(mode), map[], map[]))
  {
    InitInv(mode);
  }

  /** A step that adds no job and no use, and completes none. */
  lemma QuietStep(h: History, t: State)
    requires InvH(h) && Inv(t) && t.w.jobs == h.s.w.jobs && t.w.active == h.s.w.active && t.w.gseq >= h.s.w.gseq
    requires h.s.used <= t.used
    requires forall bo :: bo in t.last && bo in h.s.last ==> t.last[bo] == h.s.last[bo]
    requires forall bo :: bo in t.last && bo !in h.s.last ==> t.last[bo] == map[] && bo !in h.uses
    ensures InvH(h.(s := t))
  {
    var w, w' := h.s.w, t.w;
    forall g | g in w'.jobs ensures g in h.cover && g in h.cover[g] && Held(w', h.cover, g) {
      assert Held(w, h.cover, g);
      forall x | x in h.cover[g] && x in w'.jobs && x != g ensures !OnQueue(w', g) && HasBlocker(w', h.cover, g, x) {
        var d :| Blocks(w, d, g) && d in h.cover && x in h.cover[d];
        assert Blocks(w', d, g);
      }
    }
    assert RowsNested(w', h.cover) by {
      forall d, g | SameRow(w', d, g) && d in h.cover && g in h.cover ensures h.cover[d] <= h.cover[g] {
        assert SameRow(w, d, g);
      }
    }
    forall bo, u, b: nat | Owed(w', t.last, h.uses, bo, u, b) ensures Shown(w', h.cover, t.last, bo, u.g, b) {
      assert Owed(w, h.s.last, h.uses, bo, u, b);
      var q, l :| ShownBy(w, h.cover, h.s.last, bo, u.g, b, q, l);
      assert ShownBy(w', h.cover, t.last, bo, u.g, b, q, l);
    }
  }

  /** Steps that only change records: opening a slot, syncobjs, buffers coming and going. */
  predicate Quiet(step: Step) {
    step.OpenClient? || step.SubmitNoMem? || step.SetMode? || step.SyncImport? || step.SyncSet? || step.SyncDestroy? || step.BoCreate?
    || step.BoGone?
  }

  lemma QuietKeepsH(h: History, step: Step)
    requires InvH(h) && EnabledH(h, step) && Quiet(step)
    ensures InvH(PrepareH(h, step))
  {
    PrepareKeeps(h.s, step);
    QuietStep(h, Prepare(h.s, step));
  }

  lemma PrepareKeepsH(h: History, step: Step)
    requires InvH(h) && EnabledH(h, step)
    ensures InvH(PrepareH(h, step))
  {
    if Quiet(step) {
      QuietKeepsH(h, step);
    } else {
      match step
      case Submit(slot, rq) => if SubmitCheck(h.s, slot, rq).Ok? { SubmittedHKeeps(h, slot, rq); }
      case SubmitNop(slot) => EnqueueHKeeps(h, slot, CPU, [], []);
      case AttachFence(slot, bos, f) => if !AttachRejected(h.s, bos, f) { JoinedHKeeps(h, slot, bos, f); }
      case Events(done) => CompleteEachCover(h, done);
    }
  }

  /** Every step of a run keeps the history's invariant. */
  lemma StepKeepsH(h: History, step: Step)
    requires InvH(h) && EnabledH(h, step)
    ensures InvH(NextH(h, step))
  {
    PrepareKeepsH(h, step);
    PrepareHState(h, step);
    if Schedules(h.s, step) {
      DispatchCover(PrepareH(h, step));
    }
  }

  ghost predicate IsRunH(hs: seq<History>, steps: seq<Step>) {
    && |hs| == |steps| + 1
    && (exists m :: hs[0] == History(Init(m), map[], map[]))
    && (forall i :: 0 <= i < |steps| ==> EnabledH(hs[i], steps[i]) && hs[i + 1] == NextH(hs[i], steps[i]))
  }

  lemma {:induction false} RunInvH(hs: seq<History>, steps: seq<Step>, i: nat)
    requires IsRunH(hs, steps) && i < |hs|
    ensures InvH(hs[i])
  {
    if i == 0 {
      var m :| hs[0] == History(Init(m), map[], map[]);
      InitH(m);
    } else {
      RunInvH(hs, steps, i - 1);
      StepKeepsH(hs[i - 1], steps[i - 1]);
    }
  }

  // ------------------------------------------------------------------------
  // What later histories keep
  // ------------------------------------------------------------------------

  /** Covers stay; a job number once gone stays gone; a job keeps its fence. */
  ghost predicate Later(h: History, h': History) {
    && h.s.w.gseq <= h'.s.w.gseq
    && (forall g :: g in h.cover ==> g in h'.cover && h'.cover[g] == h.cover[g])
    && (forall g :: g in h'.s.w.jobs && g <= h.s.w.gseq ==> g in h.s.w.jobs && h'.s.w.jobs[g].fence == h.s.w.jobs[g].fence)
  }

  lemma CompleteEachLater(s: State, done: seq<nat>)
    requires Inv(s)
    ensures var t := CompleteEach(s, done);
      t.w.gseq == s.w.gseq && forall g :: g in t.w.jobs ==> g in s.w.jobs && t.w.jobs[g].fence == s.w.jobs[g].fence
    decreases |done|
  {
    if done != [] {
      var q := done[0];
      if q in s.w.active {
        assert QueueOk(s.w, q);
        DoneKeeps(s, s.w.active[q]);
        CompleteEachLater(JobDone(s, s.w.active[q], false), done[1..]);
      } else {
        CompleteEachLater(s, done[1..]);
      }
    }
  }

  lemma SubmitLater(h: History, slot: nat, rq: Request)
    requires InvH(h)
    ensures Later(h, SubmittedH(h, slot, rq))
  {
    InvNumbered(h.s);
    QueueHCover(h, slot, rq);
    QueueHJobs(h, slot, rq);
  }

  lemma DispatchLater(h: History, h': History)
    requires Later(h, h')
    ensures Later(h, h'.(s := Dispatch(h'.s)))
  {
    DispatchFrame(h'.s);
  }

  lemma EnqueueLater(h: History, slot: nat, q: nat, deps: seq<Fence>, bos: seq<nat>)
    requires Below(h.cover, h.s.w.gseq)
    ensures Later(h, EnqueueH(h, slot, q, deps, bos))
  {
  }

  lemma PrepareLater(h: History, step: Step)
    requires InvH(h) && EnabledH(h, step)
    ensures Later(h, PrepareH(h, step))
  {
    if step.Submit? {
      SubmitLater(h, step.slot, step.rq);
    } else if step.SubmitNop? {
      EnqueueLater(h, step.slot, CPU, [], []);
    } else if step.AttachFence? {
      EnqueueLater(h, step.slot, CPU, JoinDeps(h.s, step.bos, step.fence).deps, []);
    } else if step.Events? {
      CompleteEachLater(h.s, step.done);
    }
  }

  lemma StepLater(h: History, step: Step)
    requires InvH(h) && EnabledH(h, step)
    ensures Later(h, NextH(h, step))
  {
    PrepareLater(h, step);
    PrepareHState(h, step);
    DispatchLater(h, PrepareH(h, step));
  }

  lemma {:induction false} RunLater(hs: seq<History>, steps: seq<Step>, i: nat, j: nat)
    requires IsRunH(hs, steps) && i <= j < |hs|
    ensures Later(hs[i], hs[j])
    decreases j - i
  {
    if i < j {
      RunInvH(hs, steps, i);
      StepLater(hs[i], steps[i]);
      RunLater(hs, steps, i + 1, j);
    }
  }

  // ------------------------------------------------------------------------
  // The two promises
  // ------------------------------------------------------------------------

  /**
   BO_WAIT: the last-use fences taken at one moment stand for every use before it. Once
   they are all signalled, every job submitted until then that names the buffer is done.
   */
  lemma BoWaitSound(hs: seq<History>, steps: seq<Step>, i: nat, j: nat, bo: nat, u: Use)
    requires IsRunH(hs, steps) && i <= j < |hs| && bo in hs[i].s.last
    requires forall q :: q in hs[i].s.last[bo] ==> Signaled(hs[j].s.page, hs[i].s.last[bo][q])
    requires u in Uses(hs[i].uses, bo)
    ensures u.g !in hs[j].s.w.jobs
  {
    RunInvH(hs, steps, i);
    RunInvH(hs, steps, j);
    RunLater(hs, steps, i, j);
    if u.g in hs[j].s.w.jobs {
      var q, l := UseShows(hs[i], bo, u);
      if l in hs[j].s.w.jobs {
        UnfinishedUnsignaled(hs[j].s, l);
      }
    }
  }

  /** An unfinished use shows in some last-use fence of the buffer. */
  lemma UseShows(h: History, bo: nat, u: Use) returns (q: nat, l: nat)
    requires InvH(h) && bo in h.s.last && u in Uses(h.uses, bo) && u.g in h.s.w.jobs
    ensures q in h.s.last[bo] && l in h.s.w.jobs && l <= h.s.w.gseq && h.s.w.jobs[l].fence == h.s.last[bo][q]
      && l in h.cover && u.g in h.cover[l]
  {
    assert Owed(h.s.w, h.s.last, h.uses, bo, u, NSLOTS);
    q, l :| ShownBy(h.s.w, h.cover, h.s.last, bo, u.g, NSLOTS, q, l);
  }

  /**
   Cross-client order: a client that names a buffer another client's unfinished job `u`
   uses, for the first time since `u`, has none of the submit's jobs on the hardware or
   finished before `u` is - whatever third clients wrote to the buffer's record between.
   */
  lemma CrossClientOrder(hs: seq<History>, steps: seq<Step>, i: nat, j: nat, bo: nat, u: Use, g: nat)
    requires IsRunH(hs, steps) && i < j < |hs|
    requires steps[i].Submit? && SubmitCheck(hs[i].s, steps[i].slot, steps[i].rq).Ok? && bo in steps[i].rq.bos
    requires u in Uses(hs[i].uses, bo) && u.slot != steps[i].slot && SilentSince(hs[i].uses, bo, u.g, steps[i].slot)
    requires hs[i].s.w.gseq < g <= hs[i + 1].s.w.gseq
    requires u.g in hs[j].s.w.jobs
    ensures g in hs[j].s.w.jobs && !OnQueue(hs[j].s.w, g)
  {
    RunInvH(hs, steps, i);
    RunInvH(hs, steps, j);
    RunLater(hs, steps, i, j);
    RunLater(hs, steps, i + 1, j);
    assert u.g in hs[i].s.w.jobs;
    SubmitCovers(hs[i], steps[i].slot, steps[i].rq, bo, u, g);
    HeldBy(hs[j], g, u.g);
  }

  /** As long as `x` is unfinished, a job that covers it is neither finished nor on the hardware. */
  lemma HeldBy(h: History, g: nat, x: nat)
    requires CoverOk(h.s.w, h.cover) && g in h.cover && x in h.cover[g] && x in h.s.w.jobs && x < g
    ensures g in h.s.w.jobs && !OnQueue(h.s.w, g)
  {
    if g in h.s.w.jobs {
      assert Held(h.s.w, h.cover, g);
    }
  }

  lemma SubmitCovers(h: History, slot: nat, rq: Request, bo: nat, u: Use, g: nat)
    requires InvH(h) && SubmitCheck(h.s, slot, rq).Ok? && FirstDeps(h.s, slot, rq).dropped == 0
    requires bo in rq.bos && bo in h.s.last
    requires u in Uses(h.uses, bo) && u.slot != slot && SilentSince(h.uses, bo, u.g, slot) && u.g in h.s.w.jobs
    requires h.s.w.gseq < g <= NextH(h, Submit(slot, rq)).s.w.gseq
    ensures g in NextH(h, Submit(slot, rq)).cover && u.g in NextH(h, Submit(slot, rq)).cover[g]
  {
    NextSubmit(h, slot, rq);
    UseInFirst(h, slot, rq, bo, u);
    QueueCovers(h, slot, rq, g);
  }

  lemma UseInFirst(h: History, slot: nat, rq: Request, bo: nat, u: Use)
    requires InvH(h) && FirstDeps(h.s, slot, rq).dropped == 0 && bo in h.s.last && bo in rq.bos
    requires u in Uses(h.uses, bo) && u.slot != slot && SilentSince(h.uses, bo, u.g, slot) && u.g in h.s.w.jobs
    ensures u.g in FirstCover(h, slot, rq)
  {
    assert Owed(h.s.w, h.s.last, h.uses, bo, u, slot);
    var q, l :| ShownBy(h.s.w, h.cover, h.s.last, bo, u.g, slot, q, l);
    OtherUseCovered(h, slot, rq, bo, q, l);
  }

  /** Each job of a submit covers what its first job does. */
  lemma QueueCovers(h: History, slot: nat, rq: Request, g: nat)
    requires Below(h.cover, h.s.w.gseq) && h.s.w.gseq < g <= QueueH(h, slot, rq).s.w.gseq
    ensures g in QueueH(h, slot, rq).cover && FirstCover(h, slot, rq) <= QueueH(h, slot, rq).cover[g]
  {
    QueueHCover(h, slot, rq);
  }

  lemma NextSubmit(h: History, slot: nat, rq: Request)
    requires SubmitCheck(h.s, slot, rq).Ok?
    ensures NextH(h, Submit(slot, rq)).cover == QueueH(h, slot, rq).cover
    ensures NextH(h, Submit(slot, rq)).s.w.gseq == QueueH(h, slot, rq).s.w.gseq
  {
    QueueHState(h, slot, rq);
    DispatchFrame(Submitted(h.s, slot, rq));
  }
}
