/** Each request and each event, step by step, keeps the buffer table in order. */
module BoSteps {
  import opened GpuSpace
  import opened GpuTlb
  import opened BlockPool
  import opened Lowmem
  import opened BoMemory
  import opened BoState
  import opened BoInv

  // ---- references ----

  lemma UseKeeps(s: State, k: nat, u: Use, cap: nat, budget: nat)
    requires Inv(s, cap, budget) && k in s.uses && UseOk(s.uses[k := u], s.jobs, k)
    ensures Inv(SetUse(s, k, u), cap, budget)
  {
    ChangeUse(s.uses, s.jobs, k, u);
    var s' := SetUse(s, k, u);
    forall l: nat ensures Tied(s', l) { assert Tied(s, l); }
  }

  lemma ImportExportKeeps(s: State, client: nat, k: nat, cap: nat, budget: nat)
    requires Inv(s, cap, budget)
    ensures Inv(ImportExport(s, client, k), cap, budget)
  {
    if Named(s, k) && s.uses[k].exported {
      var u := s.uses[k];
      if u.owner != client && client !in u.sharers {
        assert UseOk(s.uses, s.jobs, k);
        UseKeeps(s, k, u.(sharers := u.sharers + {client}, refs := u.refs + 1), cap, budget);
      }
    }
  }

  lemma ExportKeeps(s: State, client: nat, k: nat, cap: nat, budget: nat)
    requires Inv(s, cap, budget)
    ensures Inv(Export(s, client, k), cap, budget)
  {
    if Named(s, k) {
      assert UseOk(s.uses, s.jobs, k);
      UseKeeps(s, k, s.uses[k].(exported := true), cap, budget);
    }
  }

  lemma OpenNameKeeps(s: State, k: nat, cap: nat, budget: nat)
    requires Inv(s, cap, budget)
    ensures Inv(OpenName(s, k), cap, budget)
  {
    if Named(s, k) && s.uses[k].exported {
      assert UseOk(s.uses, s.jobs, k);
      UseKeeps(s, k, s.uses[k].(opens := s.uses[k].opens + 1, refs := s.uses[k].refs + 1), cap, budget);
    }
  }

  lemma UsedInTable(s: State, cap: nat, budget: nat, k: nat)
    requires Inv(s, cap, budget) && k in s.uses
    ensures InTable(s.t, k)
  {
    assert Tied(s, k);
    assert MapOk(s.t, k);
  }

  /** Dropping one counted reference keeps the counts exact; the last one sends the buffer to quarantine. */
  lemma DropRefKeeps(s: State, k: nat, u: Use, cap: nat, budget: nat)
    requires Inv(s, cap, budget) && k in s.uses
    requires u.refs == s.uses[k].refs == Refs(u) + 1 && u.inflight == s.uses[k].inflight
    ensures InTable(s.t, k) && Inv(DropRef(s, k, u), cap, budget)
  {
    UsedInTable(s, cap, budget, k);
    assert UseOk(s.uses, s.jobs, k);
    ChangeUse(s.uses, s.jobs, k, u);
    var s' := SetUse(s, k, u);
    forall l: nat ensures Tied(s', l) { assert Tied(s, l); }
    UnrefKeeps(s', k, cap, budget);
  }

  lemma CloseNameKeeps(s: State, k: nat, cap: nat, budget: nat)
    requires Inv(s, cap, budget)
    ensures (k in s.uses ==> InTable(s.t, k)) && Inv(CloseName(s, k), cap, budget)
  {
    if k in s.uses {
      UsedInTable(s, cap, budget, k);
      assert UseOk(s.uses, s.jobs, k);
      if s.uses[k].opens > 0 { DropRefKeeps(s, k, s.uses[k].(opens := s.uses[k].opens - 1), cap, budget); }
    }
  }

  lemma CloseHandleKeeps(s: State, client: nat, k: nat, cap: nat, budget: nat)
    requires Inv(s, cap, budget)
    ensures (k in s.uses ==> InTable(s.t, k)) && Inv(CloseHandle(s, client, k), cap, budget)
  {
    if k in s.uses {
      UsedInTable(s, cap, budget, k);
      assert UseOk(s.uses, s.jobs, k);
      var u := s.uses[k];
      if client in u.sharers {
        if Named(s, k) { DropRefKeeps(s, k, u.(sharers := u.sharers - {client}), cap, budget); }
      } else if u.owner != 0 {
        if Named(s, k) { DropRefKeeps(s, k, u.(owner := 0), cap, budget); }
      }
    }
  }

  lemma LeaveKeeps(s: State, client: nat, k: nat, cap: nat, budget: nat)
    requires Inv(s, cap, budget) && client != 0
    ensures k in s.uses ==> InTable(s.t, k)
    ensures Inv(LeaveOwner(s, client, k), cap, budget)
    ensures Inv(LeaveSharer(s, client, k), cap, budget)
  {
    if k in s.uses {
      UsedInTable(s, cap, budget, k);
      assert UseOk(s.uses, s.jobs, k);
      var u := s.uses[k];
      if Named(s, k) && u.owner == client { DropRefKeeps(s, k, u.(owner := 0), cap, budget); }
      if client in u.sharers { DropRefKeeps(s, k, u.(sharers := u.sharers - {client}), cap, budget); }
    }
  }

  // ---- pins ----

  lemma {:induction false} PinnedCounts(uses: map<nat, Use>, bos: seq<nat>, k: nat)
    ensures Pinned(uses, bos).Keys == uses.Keys
    ensures k in uses ==> Pinned(uses, bos)[k] == uses[k].(inflight := uses[k].inflight + multiset(bos)[k])
    decreases |bos|
  {
    if bos != [] {
      var n := |bos| - 1;
      PinnedCounts(uses, bos[..n], k);
      assert bos == bos[..n] + [bos[n]];
    }
  }

  lemma {:induction false} MentionsSame(lists: map<nat, seq<nat>>, lists': map<nat, seq<nat>>, k: nat, n: nat)
    requires forall j: nat :: j < n ==> (j in lists <==> j in lists') && (j in lists ==> lists'[j] == lists[j])
    ensures Mentions(lists', k, n) == Mentions(lists, k, n)
  {
    if n > 0 { MentionsSame(lists, lists', k, n - 1); }
  }

  lemma SubmitRefs(uses: map<nat, Use>, jobs: Jobs, bos: seq<nat>)
    requires RefsOk(uses, jobs) && forall i :: 0 <= i < |bos| ==> bos[i] in uses
    ensures RefsOk(Pinned(uses, bos), Jobs(jobs.lists[jobs.next := bos], jobs.next + 1))
    ensures Pinned(uses, bos).Keys == uses.Keys
  {
    var uses', jobs' := Pinned(uses, bos), Jobs(jobs.lists[jobs.next := bos], jobs.next + 1);
    PinnedCounts(uses, bos, 0);
    forall l: nat | l in uses' ensures UseOk(uses', jobs', l) {
      PinnedCounts(uses, bos, l);
      assert UseOk(uses, jobs, l);
      MentionsSame(jobs.lists, jobs'.lists, l, jobs.next);
    }
    forall j: nat | j in jobs'.lists ensures NamesLive(uses', jobs', j) {
      if j != jobs.next { assert NamesLive(uses, jobs, j); }
    }
  }

  lemma SubmitKeeps(s: State, bos: seq<nat>, cap: nat, budget: nat)
    requires Inv(s, cap, budget)
    ensures Inv(Submit(s, bos), cap, budget)
  {
    if AllNamed(s, bos) {
      SubmitRefs(s.uses, s.jobs, bos);
      var s' := Submit(s, bos);
      forall l: nat ensures Tied(s', l) { assert Tied(s, l); }
    }
  }

  /** Taking the first name off job `j`'s list takes one mention of it away. */
  lemma {:induction false} MentionsTail(lists: map<nat, seq<nat>>, j: nat, k: nat, n: nat)
    requires j in lists && lists[j] != [] && j < n
    ensures Mentions(lists[j := lists[j][1..]], k, n) + (if k == lists[j][0] then 1 else 0) == Mentions(lists, k, n)
  {
    var lists' := lists[j := lists[j][1..]];
    if j == n - 1 {
      MentionsSame(lists, lists', k, n - 1);
      assert lists[j] == [lists[j][0]] + lists[j][1..];
    } else {
      MentionsTail(lists, j, k, n - 1);
    }
  }

  lemma TailRefs(uses: map<nat, Use>, jobs: Jobs, j: nat)
    requires RefsOk(uses, jobs) && j in jobs.lists && jobs.lists[j] != []
    ensures jobs.lists[j][0] in uses
    ensures RefsBut(uses, jobs.(lists := jobs.lists[j := jobs.lists[j][1..]]), jobs.lists[j][0])
    ensures uses[jobs.lists[j][0]].inflight ==
            Mentions(jobs.lists[j := jobs.lists[j][1..]], jobs.lists[j][0], jobs.next) + 1
  {
    var k, jobs' := jobs.lists[j][0], jobs.(lists := jobs.lists[j := jobs.lists[j][1..]]);
    assert NamesLive(uses, jobs, j);
    assert UseOk(uses, jobs, k);
    MentionsTail(jobs.lists, j, k, jobs.next);
    forall l: nat | l in uses && l != k ensures UseOk(uses, jobs', l) {
      assert UseOk(uses, jobs, l);
      MentionsTail(jobs.lists, j, l, jobs.next);
    }
    forall i: nat | i in jobs'.lists ensures NamesLive(uses, jobs', i) { assert NamesLive(uses, jobs, i); }
  }

  lemma UnpinKeeps(s: State, k: nat, cap: nat, budget: nat)
    requires SpaceOk(s.t, s.c) && RefsBut(s.uses, s.jobs, k) && Ties(s) && HwOk(s.hw)
    requires MemoryOk(s.m, cap, budget) && s.m.hand == []
    requires k in s.uses && s.uses[k].refs == Refs(s.uses[k]) && (s.uses[k].exported ==> s.uses[k].refs > 0)
    requires s.uses[k].inflight == Mentions(s.jobs.lists, k, s.jobs.next) + 1
    ensures InTable(s.t, k) && Inv(Unpin(s, k), cap, budget) && Unpin(s, k).jobs == s.jobs
  {
    assert Tied(s, k);
    assert MapOk(s.t, k);
    var u' := s.uses[k].(inflight := s.uses[k].inflight - 1);
    var s' := SetUse(s, k, u');
    ChangeUse(s.uses, s.jobs, k, u');
    forall l: nat ensures Tied(s', l) { assert Tied(s, l); }
    if u'.refs == 0 && u'.inflight == 0 { QuarantineKeeps(s', k, cap, budget); }
  }

  lemma PopPinKeeps(s: State, j: nat, cap: nat, budget: nat)
    requires Inv(s, cap, budget) && j in s.jobs.lists && s.jobs.lists[j] != []
    ensures InTable(s.t, s.jobs.lists[j][0]) && Inv(PopPin(s, j), cap, budget)
    ensures PopPin(s, j).jobs == Shortened(s, j).jobs
  {
    var bos, s1 := s.jobs.lists[j], Shortened(s, j);
    TailRefs(s.uses, s.jobs, j);
    assert UseOk(s.uses, s.jobs, bos[0]);
    forall l: nat ensures Tied(s1, l) { assert Tied(s, l); }
    UnpinKeeps(s1, bos[0], cap, budget);
  }

  lemma {:induction false} MentionsNone(lists: map<nat, seq<nat>>, j: nat, k: nat, n: nat)
    requires j in lists && lists[j] == []
    ensures Mentions(lists - {j}, k, n) == Mentions(lists, k, n)
  {
    if n > 0 { MentionsNone(lists, j, k, n - 1); }
  }

  lemma LastPinKeeps(s: State, j: nat, cap: nat, budget: nat)
    requires Inv(s, cap, budget) && j in s.jobs.lists && s.jobs.lists[j] == []
    ensures Inv(s.(jobs := s.jobs.(lists := s.jobs.lists - {j})), cap, budget)
  {
    var s' := s.(jobs := s.jobs.(lists := s.jobs.lists - {j}));
    forall l: nat | l in s.uses ensures UseOk(s'.uses, s'.jobs, l) {
      assert UseOk(s.uses, s.jobs, l);
      MentionsNone(s.jobs.lists, j, l, s.jobs.next);
    }
    forall i: nat | i in s'.jobs.lists ensures NamesLive(s'.uses, s'.jobs, i) { assert NamesLive(s.uses, s.jobs, i); }
    forall l: nat ensures Tied(s', l) { assert Tied(s, l); }
  }

  lemma AllInTable(s: State, cap: nat, budget: nat)
    requires Inv(s, cap, budget)
    ensures forall k :: k in s.uses ==> InTable(s.t, k)
  {
    forall k | k in s.uses ensures InTable(s.t, k) { UsedInTable(s, cap, budget, k); }
  }

  lemma {:induction false} EndJobKeeps(s: State, j: nat, cap: nat, budget: nat)
    requires Inv(s, cap, budget) && j in s.jobs.lists
    ensures (forall k :: k in s.uses ==> InTable(s.t, k)) && Inv(EndJob(s, j), cap, budget)
    decreases |s.jobs.lists[j]|
  {
    AllInTable(s, cap, budget);
    var bos := s.jobs.lists[j];
    if bos == [] {
      LastPinKeeps(s, j, cap, budget);
    } else {
      PopPinKeeps(s, j, cap, budget);
      EndJobKeeps(PopPin(s, j), j, cap, budget);
    }
  }

  // ---- out of quarantine ----

  lemma FreeSpace(t: Table, c: Cache, k: nat)
    requires SpaceOk(t, c) && k in t.maps && !t.maps[k].live && t.maps[k].clearGen <= c.tlbGen
    ensures SpaceOk(Drop(t, k), c)
  {
    DropKeeps(t, k);
    DropCached(t, c, k);
  }

  lemma FreeMemory(m: Memory, k: nat, now: nat, cap: nat, budget: nat)
    requires MemoryOk(m, cap, budget) && m.hand == [] && k in m.holds
    ensures var m' := Put(Release(m, k), m.holds[k].block, now, cap);
            MemoryOk(m', cap, budget) && m'.hand == [] && m'.holds == m.holds - {k}
  {
    ReleaseKeeps(m, k, cap, budget);
    PutKeeps(Release(m, k), m.holds[k].block, now, cap, budget);
    PutShape(Release(m, k), m.holds[k].block, now, cap);
  }

  lemma FreeBoKeeps(s: State, k: nat, now: nat, cap: nat, budget: nat)
    requires Inv(s, cap, budget) && MayFree(s, k)
    ensures Inv(FreeBo(s, k, now, cap), cap, budget)
  {
    assert Tied(s, k);
    FreeSpace(s.t, s.c, k);
    var s' := FreeBo(s, k, now, cap);
    if k !in s.imported { FreeMemory(s.m, k, now, cap, budget); }
    forall l: nat ensures Tied(s', l) {
      assert Tied(s, l);
      if l != k { FreeTied(s, k, now, cap, l); }
    }
  }

  lemma FreeTied(s: State, k: nat, now: nat, cap: nat, l: nat)
    requires Tied(s, l) && l != k && k in s.t.maps
    ensures Tied(FreeBo(s, k, now, cap), l)
  {
  }

  lemma PolledKeeps(s: State, k: nat, now: nat, cap: nat, budget: nat)
    requires Inv(s, cap, budget)
    ensures Inv(Polled(s, k, now, cap), cap, budget)
  {
    if MayFree(s, k) { FreeBoKeeps(s, k, now, cap, budget); }
  }

  // ---- arriving ----

  lemma InstallSpace(t: Table, c: Cache, k: nat, n: nat, frames: seq<Frame>)
    requires SpaceOk(t, c) && k !in t.maps && n > 0 && VaAlloc(t.va, n).ok && |frames| == n
    ensures var a := VaAlloc(t.va, n);
            a.lo + n <= |a.va.pt| && SpaceOk(MapIn(t.(va := a.va), k, Span(a.lo, n), frames), Changed(c))
  {
    var a := VaAlloc(t.va, n);
    AllocFits(t.va, n);
    AllocKeeps(t, n);
    AllocCached(t, c, n);
    MapInKeeps(t.(va := a.va), k, Span(a.lo, n), frames);
    MapInCached(t.(va := a.va), c, k, Span(a.lo, n), frames);
  }

  /** A new range in a free slot, with its block or window already recorded there. */
  lemma InstallKeeps(s: State, k: nat, n: nat, frames: seq<Frame>, client: nat, cap: nat, budget: nat)
    requires SpaceOk(s.t, s.c) && RefsOk(s.uses, s.jobs) && TiesBut(s, k) && HwOk(s.hw)
    requires MemoryOk(s.m, cap, budget) && s.m.hand == []
    requires k < MAX_BOS && k !in s.t.maps && k !in s.uses && k !in s.pass
    requires (k in s.m.holds && k !in s.imported) || (k in s.imported && k !in s.m.holds)
    requires OwnFrames(frames, s.m, k)
    requires n > 0 && |frames| == n && client != 0 && VaAlloc(s.t.va, n).ok
    ensures var a := VaAlloc(s.t.va, n);
            a.lo + n <= |a.va.pt| && Inv(Installed(s, k, a, frames, client), cap, budget)
  {
    var a := VaAlloc(s.t.va, n);
    InstallSpace(s.t, s.c, k, n, frames);
    NewUse(s.uses, s.jobs, k, client);
    var s' := Installed(s, k, a, frames, client);
    forall l: nat ensures Tied(s', l) { if l != k { assert Tied(s, l); } }
  }

  /** The block found is the only one in hand; the buffers' blocks are as they were. */
  ghost predicate GotOk(m: Memory, g: Got, pages: nat, cap: nat, budget: nat) {
    && MemoryOk(g.m, cap, budget) && SameHolds(m, g.m)
    && (g.ok ==> g.m.hand == [g.block.id] && g.block.pages == pages)
    && (!g.ok ==> g.m.hand == [])
  }

  lemma GetFreshKeeps(m: Memory, pages: nat, cached: bool, extra: seq<nat>, cap: nat, budget: nat)
    requires MemoryOk(m, cap, budget) && m.hand == []
    ensures GotOk(m, GetFresh(m, pages, cached, extra), pages, cap, budget)
  {
    if extra != [] { TakeFreshKeeps(m, 1, 0, cap, budget); }
  }

  lemma GetLowKeeps(m: Memory, pages: nat, cached: bool, offers: seq<Offer>, extra: seq<nat>, cap: nat, budget: nat)
    requires MemoryOk(m, cap, budget) && m.hand == [] && pages > 0
    ensures GotOk(m, GetLow(m, pages, cached, offers, extra), pages, cap, budget)
  {
    var f := Search(offers, pages * PAGE, TRIES, 0, -1);
    TakeFreshKeeps(m, f.n, f.keep, cap, budget);
    if f.keep < 0 { GetFreshKeeps(TakeFresh(m, f.n, f.keep), pages, cached, extra, cap, budget); }
  }

  lemma GetPooledKeeps(m: Memory, i: nat, cap: nat, budget: nat)
    requires MemoryOk(m, cap, budget) && m.hand == [] && i < |m.pool|
    ensures GotOk(m, Got(TakePooled(m, i), true, m.pool[i]), m.pool[i].pages, cap, budget)
  {
    TakePooledKeeps(m, i, cap, budget);
  }

  lemma GetBlockKeeps(m: Memory, pages: nat, cached: bool, wantLow: bool, offers: seq<Offer>, extra: seq<nat>,
                      cap: nat, budget: nat)
    requires MemoryOk(m, cap, budget) && m.hand == [] && pages > 0
    ensures GotOk(m, GetBlock(m, pages, cached, wantLow, offers, extra), pages, cap, budget)
  {
    var i := PickIndex(m.pool, pages, cached, wantLow);
    if i >= 0 {
      GetPooledKeeps(m, i, cap, budget);
    } else if wantLow {
      GetLowKeeps(m, pages, cached, offers, extra, cap, budget);
    } else {
      GetFreshKeeps(m, pages, cached, extra, cap, budget);
    }
  }

  lemma MemoryChange(s: State, m: Memory, cap: nat, budget: nat)
    requires Inv(s, cap, budget) && MemoryOk(m, cap, budget) && m.hand == [] && SameHolds(s.m, m)
    ensures Inv(s.(m := m), cap, budget)
  {
    var s' := s.(m := m);
    forall l: nat ensures Tied(s', l) { assert Tied(s, l); }
  }

  lemma CreateMemory(m: Memory, k: nat, b: Block, low: bool, cap: nat, budget: nat)
    requires MemoryOk(m, cap, budget) && m.hand == [b.id] && k !in m.holds && k < MAX_BOS
    requires low ==> Low(b) && Admit(m.lowLive, Footprint(b.pages), budget)
    ensures MemoryOk(Assign(m, k, b, low), cap, budget) && Assign(m, k, b, low).hand == []
    ensures Assign(m, k, b, low).holds == m.holds[k := Holding(b, low)]
  {
    AssignKeeps(m, k, b, low, cap, budget);
  }

  lemma AssignedTies(s: State, m: Memory, k: nat, h: Holding)
    requires Ties(s) && m.holds == s.m.holds[k := h]
    ensures TiesBut(s.(m := m), k)
  {
    var s' := s.(m := m);
    forall l: nat | l != k ensures Tied(s', l) { assert Tied(s, l); }
  }

  /** A slot without a range has nothing else recorded either. */
  lemma SlotClear(s: State, k: nat)
    requires Ties(s) && k < MAX_BOS && k !in s.t.maps
    ensures k !in s.uses && k !in s.pass && k !in s.m.holds && k !in s.imported
  {
    assert Tied(s, k);
  }

  /** The block in hand, given to a free slot together with a range. */
  lemma CreateInstalls(s: State, m: Memory, k: nat, b: Block, low: bool, frames: seq<Frame>, client: nat, cap: nat, budget: nat)
    requires SpaceOk(s.t, s.c) && RefsOk(s.uses, s.jobs) && Ties(s) && HwOk(s.hw)
    requires k < MAX_BOS && k !in s.t.maps && client != 0
    requires MemoryOk(m, cap, budget) && m.hand == [] && m.holds == s.m.holds[k := Holding(b, low)]
    requires b.pages > 0 && VaAlloc(s.t.va, b.pages).ok && |frames| == b.pages && OwnFrames(frames, m, k)
    ensures var a := VaAlloc(s.t.va, b.pages);
            a.lo + b.pages <= |a.va.pt| && Inv(Installed(s.(m := m), k, a, frames, client), cap, budget)
  {
    SlotClear(s, k);
    AssignedTies(s, m, k, Holding(b, low));
    InstallKeeps(s.(m := m), k, b.pages, frames, client, cap, budget);
  }

  lemma CreatePlaces(s: State, k: nat, r: NewBo, b: Block, low: bool, cap: nat, budget: nat)
    requires SpaceOk(s.t, s.c) && RefsOk(s.uses, s.jobs) && Ties(s) && HwOk(s.hw)
    requires k < MAX_BOS && k !in s.t.maps && r.client != 0
    requires MemoryOk(s.m, cap, budget) && s.m.hand == [b.id] && b.pages > 0
    requires low ==> Low(b) && Admit(s.m.lowLive, Footprint(b.pages), budget)
    requires VaAlloc(s.t.va, b.pages).ok
    ensures Inv(PlaceBo(s, k, r, b.pages, b, low, 0, cap).s, cap, budget)
  {
    SlotClear(s, k);
    CreateMemory(s.m, k, b, low, cap, budget);
    var frames := BoFrames(b.id, b.pages, if r.scanout then r.scanPages else 0, r.buffer);
    assert OwnFrames(frames, Assign(s.m, k, b, low), k);
    CreateInstalls(s, Assign(s.m, k, b, low), k, b, low, frames, r.client, cap, budget);
  }

  lemma MemoryTies(s: State, m: Memory)
    requires Ties(s) && SameHolds(s.m, m)
    ensures Ties(s.(m := m))
  {
    var s' := s.(m := m);
    forall l: nat ensures Tied(s', l) { assert Tied(s, l); }
  }

  lemma CreateKeeps(s: State, r: NewBo, offers: seq<Offer>, extra: seq<nat>, now: nat, cap: nat, budget: nat)
    requires Inv(s, cap, budget) && r.client != 0
    ensures Inv(CreateBo(s, r, offers, extra, now, cap, budget).s, cap, budget)
  {
    var k := FreeSlot(s.t, 0);
    if r.size <= MAX_SIZE && k < MAX_BOS {
      var pages := PagesFor(r.size);
      var wantLow := r.lowmem && !r.scanout && Admit(s.m.lowLive, Footprint(pages), budget);
      var g := GetBlock(s.m, pages, r.cached && !r.scanout, wantLow, offers, extra);
      GetBlockKeeps(s.m, pages, r.cached && !r.scanout, wantLow, offers, extra, cap, budget);
      if !g.ok {
        MemoryChange(s, g.m, cap, budget);
      } else if !VaAlloc(s.t.va, pages).ok {
        PutKeeps(g.m, g.block, now, cap, budget);
        PutShape(g.m, g.block, now, cap);
        MemoryChange(s, Put(g.m, g.block, now, cap), cap, budget);
      } else {
        MemoryTies(s, g.m);
        CreatePlaces(s.(m := g.m), k, r, g.block, wantLow && Low(g.block), cap, budget);
      }
    }
  }

  lemma ImportedTies(s: State, k: nat, window: nat)
    requires Ties(s)
    ensures TiesBut(s.(imported := s.imported[k := window]), k)
  {
    var s' := s.(imported := s.imported[k := window]);
    forall l: nat | l != k ensures Tied(s', l) { assert Tied(s, l); }
  }

  lemma ImportWindowKeeps(s: State, client: nat, window: nat, pages: nat, cap: nat, budget: nat)
    requires Inv(s, cap, budget) && client != 0
    ensures Inv(ImportWindow(s, client, window, pages).s, cap, budget)
  {
    var k := FreeSlot(s.t, 0);
    if FindImport(s, client, window, 0) >= MAX_BOS && k < MAX_BOS && pages > 0 && VaAlloc(s.t.va, pages).ok {
      SlotClear(s, k);
      ImportedTies(s, k, window);
      InstallKeeps(s.(imported := s.imported[k := window]), k, pages, WindowFrames(window, pages), client, cap, budget);
    }
  }

  lemma TrimPoolKeeps(s: State, now: nat, idle: nat, cap: nat, budget: nat)
    requires Inv(s, cap, budget)
    ensures Inv(s.(m := Trim(s.m, cap, now, idle)), cap, budget)
  {
    TrimKeeps(s.m, cap, budget, now, idle);
    MemoryChange(s, Trim(s.m, cap, now, idle), cap, budget);
  }

  // ---- the hardware ----

  lemma CacheChange(s: State, c: Cache, hw: Hw, cap: nat, budget: nat)
    requires Inv(s, cap, budget) && CacheOk(s.t, c) && HwOk(hw)
    ensures Inv(s.(c := c, hw := hw), cap, budget)
  {
    var s' := s.(c := c, hw := hw);
    forall l: nat ensures Tied(s', l) { assert Tied(s, l); }
  }

  lemma KickKeeps(s: State, q: nat, flush: bool, cap: nat, budget: nat)
    requires Inv(s, cap, budget) && q < NQ && !s.hw.active[q]
    ensures Inv(Kick(s, q, flush), cap, budget)
  {
    FlushKeeps(s.t, s.c);
    CacheChange(s, Kick(s, q, flush).c, Kick(s, q, flush).hw, cap, budget);
  }

  lemma FinishKeeps(s: State, q: nat, cap: nat, budget: nat)
    requires Inv(s, cap, budget) && q < NQ && s.hw.active[q]
    ensures Inv(Finish(s, q), cap, budget)
  {
    CacheChange(s, s.c, Finish(s, q).hw, cap, budget);
  }

  lemma FailKeeps(s: State, q: nat, pair: bool, cap: nat, budget: nat)
    requires Inv(s, cap, budget) && q < NQ && s.hw.active[q]
    ensures Inv(Fail(s, q, pair), cap, budget)
  {
    CacheChange(s, s.c, Fail(s, q, pair).hw, cap, budget);
  }

  lemma ReapKeeps(s: State, q: nat, cap: nat, budget: nat)
    requires Inv(s, cap, budget) && q < NQ
    ensures Inv(Reap(s, q), cap, budget)
  {
    CacheChange(s, s.c, Reap(s, q).hw, cap, budget);
  }

  lemma ChangedKeeps(t: Table, c: Cache)
    requires CacheOk(t, c)
    ensures CacheOk(t, Changed(c))
  {
    forall k: nat | k in t.maps ensures GenOk(t, Changed(c), k) { assert GenOk(t, c, k); }
    forall e | e in c.entries ensures EntryOk(t, Changed(c), e) {
      assert EntryOk(t, c, e);
      if !Current(t, e) {
        var k :| LeftOver(t, c, e, k);
        assert LeftOver(t, Changed(c), e, k);
      }
    }
  }

  lemma ResetKeeps(s: State, cap: nat, budget: nat)
    requires Inv(s, cap, budget)
    ensures Inv(Reset(s), cap, budget)
  {
    ChangedKeeps(s.t, s.c);
    FlushKeeps(s.t, Changed(s.c));
    CacheChange(s, Reset(s).c, Reset(s).hw, cap, budget);
  }
}
