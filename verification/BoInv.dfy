/** What every step of the buffer table keeps. */
module BoInv {
  import opened GpuSpace
  import opened GpuTlb
  import opened BoMemory
  import opened BoState

  // ---- references ----

  /** The counts of a live buffer are exact, somebody holds it, and only a referenced one is exported. */
  ghost predicate UseOk(uses: map<nat, Use>, jobs: Jobs, k: nat)
    requires k in uses
  {
    var u := uses[k];
    && u.refs == Refs(u) && u.inflight == Mentions(jobs.lists, k, jobs.next)
    && (u.refs > 0 || u.inflight > 0) && (u.exported ==> u.refs > 0)
  }

  ghost predicate NamesLive(uses: map<nat, Use>, jobs: Jobs, j: nat)
    requires j in jobs.lists
  {
    j < jobs.next && forall i :: 0 <= i < |jobs.lists[j]| ==> jobs.lists[j][i] in uses
  }

  ghost predicate ListsOk(uses: map<nat, Use>, jobs: Jobs) {
    forall j: nat {:trigger NamesLive(uses, jobs, j)} :: j in jobs.lists ==> NamesLive(uses, jobs, j)
  }

  /** The references are in order, but for those of buffer `k`. */
  ghost predicate RefsBut(uses: map<nat, Use>, jobs: Jobs, k: nat) {
    && (forall l: nat {:trigger UseOk(uses, jobs, l)} :: l in uses && l != k ==> UseOk(uses, jobs, l))
    && ListsOk(uses, jobs)
  }

  ghost predicate RefsOk(uses: map<nat, Use>, jobs: Jobs) {
    && (forall l: nat {:trigger UseOk(uses, jobs, l)} :: l in uses ==> UseOk(uses, jobs, l))
    && ListsOk(uses, jobs)
  }

  lemma {:induction false} Unmentioned(lists: map<nat, seq<nat>>, k: nat, n: nat, j: nat)
    requires Mentions(lists, k, n) == 0 && j < n && j in lists
    ensures k !in lists[j]
  {
    if j < n - 1 { Unmentioned(lists, k, n - 1, j); }
  }

  lemma ChangeUse(uses: map<nat, Use>, jobs: Jobs, k: nat, u: Use)
    requires RefsBut(uses, jobs, k) && k in uses
    ensures RefsBut(uses[k := u], jobs, k)
    ensures UseOk(uses[k := u], jobs, k) ==> RefsOk(uses[k := u], jobs)
  {
    var uses' := uses[k := u];
    forall l: nat | l in uses' && l != k ensures UseOk(uses', jobs, l) { assert UseOk(uses, jobs, l); }
    forall j: nat | j in jobs.lists ensures NamesLive(uses', jobs, j) { assert NamesLive(uses, jobs, j); }
  }

  /** A buffer no job names may go. */
  lemma ForgetUse(uses: map<nat, Use>, jobs: Jobs, k: nat)
    requires RefsBut(uses, jobs, k) && Mentions(jobs.lists, k, jobs.next) == 0
    ensures RefsOk(uses - {k}, jobs)
  {
    var uses' := uses - {k};
    forall l: nat | l in uses' ensures UseOk(uses', jobs, l) { assert UseOk(uses, jobs, l); }
    forall j: nat | j in jobs.lists ensures NamesLive(uses', jobs, j) {
      assert NamesLive(uses, jobs, j);
      Unmentioned(jobs.lists, k, jobs.next, j);
    }
  }

  lemma {:induction false} NeverMentioned(uses: map<nat, Use>, lists: map<nat, seq<nat>>, next: nat, k: nat, n: nat)
    requires ListsOk(uses, Jobs(lists, next)) && k !in uses
    ensures Mentions(lists, k, n) == 0
  {
    if n > 0 {
      NeverMentioned(uses, lists, next, k, n - 1);
      if n - 1 in lists { assert NamesLive(uses, Jobs(lists, next), n - 1); }
    }
  }

  /** A new buffer has its creator's reference and nothing else. */
  lemma NewUse(uses: map<nat, Use>, jobs: Jobs, k: nat, client: nat)
    requires RefsOk(uses, jobs) && k !in uses && client != 0
    ensures RefsOk(uses[k := Use(client, {}, 0, 1, 0, false)], jobs)
  {
    var uses' := uses[k := Use(client, {}, 0, 1, 0, false)];
    NeverMentioned(uses, jobs.lists, jobs.next, k, jobs.next);
    forall l: nat | l in uses' ensures UseOk(uses', jobs, l) { if l != k { assert UseOk(uses, jobs, l); } }
    forall j: nat | j in jobs.lists ensures NamesLive(uses', jobs, j) { assert NamesLive(uses, jobs, j); }
  }

  // ---- slots ----

  /** What a slot's records say of each other; `used` is whether it has references recorded. */
  ghost predicate TieOk(maps: map<nat, Mapping>, used: bool, m: Memory, imported: map<nat, nat>,
                        pass: map<nat, seq<nat>>, k: nat)
  {
    && (k in maps ==> k <= OVF && (k == OVF ==> maps[k].live))
    && (used <==> k in maps && k < MAX_BOS && maps[k].live)
    && (k in pass <==> k in maps && !maps[k].live) && (k in pass ==> |pass[k]| == NQ)
    && (k in m.holds ==> k in maps && k !in imported && k < MAX_BOS)
    && (k in imported ==> k in maps && k < MAX_BOS)
    && (k in maps && k < MAX_BOS ==> k in m.holds || k in imported)
    && (k in maps ==> OwnFrames(maps[k].frames, m, k))
  }

  /** Pages of a block are mapped only by the buffer that holds the block, each at its own place. */
  ghost predicate OwnFrames(frames: seq<Frame>, m: Memory, k: nat) {
    && (forall i :: 0 <= i < |frames| && frames[i].Own? ==> k in m.holds && frames[i] == Own(m.holds[k].block.id, i))
    && (k in m.holds ==> |frames| == m.holds[k].block.pages)
  }

  ghost predicate Tied(s: State, k: nat) {
    TieOk(s.t.maps, k in s.uses, s.m, s.imported, s.pass, k)
  }

  ghost predicate TiesBut(s: State, k: nat) {
    forall l: nat {:trigger Tied(s, l)} :: l != k ==> Tied(s, l)
  }

  ghost predicate Ties(s: State) {
    forall l: nat {:trigger Tied(s, l)} :: Tied(s, l)
  }

  ghost predicate HwOk(hw: Hw) {
    && |hw.submitted| == NQ && |hw.completed| == NQ && |hw.active| == NQ
    && forall q :: 0 <= q < NQ ==> hw.submitted[q] == hw.completed[q] + (if hw.active[q] then 1 else 0)
  }

  ghost predicate SpaceOk(t: Table, c: Cache) { TableOk(t) && CacheOk(t, c) }

  ghost predicate Inv(s: State, cap: nat, budget: nat) {
    && SpaceOk(s.t, s.c) && RefsOk(s.uses, s.jobs) && Ties(s) && HwOk(s.hw)
    && MemoryOk(s.m, cap, budget) && s.m.hand == []
  }

  // ---- quarantine ----

  lemma QuarantineSpace(t: Table, c: Cache, k: nat, idle: bool)
    requires SpaceOk(t, c) && k in t.maps && t.maps[k].live
    ensures InTable(t, k)
    ensures SpaceOk(Clear(t, k, Changed(c).ptGen), if idle then Flush(Changed(c)) else Changed(c))
  {
    ClearKeeps(t, k, c.ptGen + 1);
    ClearCached(t, c, k);
    if idle { FlushKeeps(Clear(t, k, c.ptGen + 1), Changed(c)); }
  }

  /** A live buffer that nothing holds goes to quarantine and the rest is untouched. */
  lemma QuarantineKeeps(s: State, k: nat, cap: nat, budget: nat)
    requires SpaceOk(s.t, s.c) && RefsBut(s.uses, s.jobs, k) && Ties(s) && HwOk(s.hw)
    requires MemoryOk(s.m, cap, budget) && s.m.hand == []
    requires k in s.uses && Mentions(s.jobs.lists, k, s.jobs.next) == 0
    ensures InTable(s.t, k) && Inv(Quarantine(s, k), cap, budget)
    ensures forall l :: l in Quarantine(s, k).uses <==> l in s.uses && l != k
  {
    assert Tied(s, k);
    QuarantineSpace(s.t, s.c, k, !Busy(s.hw, 0));
    ForgetUse(s.uses, s.jobs, k);
    var s' := Quarantine(s, k);
    forall l: nat ensures Tied(s', l) { assert Tied(s, l); }
  }

  lemma UnrefKeeps(s: State, k: nat, cap: nat, budget: nat)
    requires SpaceOk(s.t, s.c) && RefsBut(s.uses, s.jobs, k) && Ties(s) && HwOk(s.hw)
    requires MemoryOk(s.m, cap, budget) && s.m.hand == []
    requires k in s.uses && s.uses[k].refs == Refs(s.uses[k]) + 1
    requires s.uses[k].inflight == Mentions(s.jobs.lists, k, s.jobs.next)
    ensures InTable(s.t, k) && Inv(Unref(s, k), cap, budget)
  {
    assert Tied(s, k);
    assert MapOk(s.t, k);
    var u := s.uses[k];
    var u' := u.(refs := u.refs - 1, exported := u.exported && u.refs - 1 > 0);
    var s' := s.(uses := s.uses[k := u']);
    ChangeUse(s.uses, s.jobs, k, u');
    forall l: nat ensures Tied(s', l) { assert Tied(s, l); }
    if u'.refs == 0 && u.inflight == 0 {
      QuarantineKeeps(s', k, cap, budget);
    }
  }
}
