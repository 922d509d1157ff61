/** The buffer table of the server, changed in place by the clients' requests. */
module BufferTable {
  import opened GpuSpace
  import opened GpuTlb
  import opened GpuTable
  import opened BlockPool
  import opened Lowmem
  import opened BoMemory
  import opened BoState
  import opened BoInv
  import opened BoSteps
  import opened BoRuns
  import opened BlockStore

  class Buffers {
    const space: AddressSpace
    const store: Store
    var maps: map<nat, Mapping>
    var ptGen: nat
    var tlbGen: nat
    /** What the GPU may have cached. */
    ghost var entries: set<Entry>
    var hw: Hw
    var pass: map<nat, seq<nat>>
    var imported: map<nat, nat>
    var uses: map<nat, Use>
    var lists: map<nat, seq<nat>>
    var nextJob: nat

    ghost predicate Ok()
      reads this, space, store
    {
      space.Valid() && store.Valid()
    }

    ghost function S(): State
      requires Ok()
      reads this, space, space.pt, space.holes, store, store.pool
    {
      State(Table(space.V(), maps), Cache(entries, ptGen, tlbGen), hw, pass, imported, uses,
            Jobs(lists, nextJob), store.M())
    }

    ghost predicate Good()
      reads this, space, space.pt, space.holes, store, store.pool
    {
      Ok() && Inv(S(), store.cap, store.budget)
    }

    /** The overflow pool of `n` pages mapped, and nothing else. */
    constructor (n: nat, cap: nat, budget: nat)
      requires 0 < n <= PT_ENTRIES - BASE
      ensures Ok() && fresh(space) && fresh(space.pt) && fresh(space.holes) && fresh(store) && fresh(store.pool)
      ensures store.cap == cap && store.budget == budget && S() == Start(n) && Good()
    {
      var sp := new AddressSpace();
      var ok, lo := sp.VaAlloc(n);
      sp.WritePtes(lo, OvfFrames(n));
      space := sp;
      store := new Store(cap, budget);
      maps := map[OVF := Mapping(Span(lo, n), OvfFrames(n), true, 0)];
      ptGen, tlbGen, entries := 1, 1, {};
      hw := Hw(seq(NQ, _ => 0), seq(NQ, _ => 0), seq(NQ, _ => false), false, 0);
      pass, imported, uses, lists, nextJob := map[], map[], map[], map[], 0;
      new;
      StartInv(n, cap, budget);
    }

    // ---- leaving ----

    method MmuFlush()
      requires Ok()
      modifies this`tlbGen, this`entries
      ensures Ok() && S() == old(S()).(c := Flush(old(S()).c))
    {
      entries := {};
      tlbGen := ptGen;
    }

    method AnyBusy() returns (busy: bool)
      ensures busy == Busy(hw, 0)
    {
      busy := false;
      for q := 0 to |hw.active|
        invariant Busy(hw, 0) == (busy || Busy(hw, q))
      {
        if q != CPU && hw.active[q] { busy := true; }
      }
    }

    method QuarantineBegin(k: nat)
      requires Ok() && InTable(S().t, k)
      modifies this`maps, this`ptGen, this`tlbGen, this`entries, this`pass, this`uses, space.pt
      ensures Ok() && S() == Quarantine(old(S()), k)
    {
      var m := maps[k];
      space.ClearPtes(m.span.lo, m.span.n);
      ptGen := ptGen + 1;
      maps := maps[k := m.(live := false, clearGen := ptGen)];
      pass := pass[k := hw.submitted];
      uses := uses - {k};
      var busy := AnyBusy();
      if !busy { MmuFlush(); }
    }

    method BoUnref(k: nat)
      requires Ok() && InTable(S().t, k) && k in uses
      modifies this`maps, this`ptGen, this`tlbGen, this`entries, this`pass, this`uses, space.pt
      ensures Ok() && S() == Unref(old(S()), k)
    {
      var u := uses[k];
      if u.refs > 0 { u := u.(refs := u.refs - 1); }
      if u.refs == 0 { u := u.(exported := false); }
      uses := uses[k := u];
      if u.refs == 0 && u.inflight == 0 { QuarantineBegin(k); }
    }

    method AllQueuesPassed(k: nat) returns (ok: bool)
      requires k in pass
      ensures ok == AllPassed(hw.completed, pass[k], 0)
    {
      ok := true;
      var q := 0;
      while q < |pass[k]| && ok
        invariant q <= |pass[k]|
        invariant AllPassed(hw.completed, pass[k], 0) == (ok && AllPassed(hw.completed, pass[k], q))
        decreases |pass[k]| - q, ok
      {
        if q >= |hw.completed| || hw.completed[q] < pass[k][q] { ok := false; } else { q := q + 1; }
      }
    }

    /** Out of quarantine. */
    method FreeOne(k: nat, now: nat)
      requires Good() && k in maps
      modifies this`maps, this`pass, this`imported, space`nholes, space.holes, store, store.pool
      ensures Ok() && S() == FreeBo(old(S()), k, now, store.cap)
    {
      assert Inv(S(), store.cap, store.budget);
      if k in imported {
        imported := imported - {k};
      } else if k in store.holds {
        var b := store.TakeBack(k);
        store.PutBack(b, now);
      }
      space.VaFree(maps[k].span);
      maps := maps - {k};
      pass := pass - {k};
    }

    method PollSlot(k: nat, now: nat)
      requires Good()
      modifies this, space, space.holes, store, store.pool
      ensures Good() && S() == Polled(old(S()), k, now, store.cap)
    {
      PolledKeeps(S(), k, now, store.cap, store.budget);
      if k in maps && !maps[k].live && tlbGen >= maps[k].clearGen && k in pass {
        var ok := AllQueuesPassed(k);
        if ok { FreeOne(k, now); }
      }
    }

    /** One pass over the table: exactly the buffers that may go are gone, the others as they were. */
    method QuarantinePoll(now: nat)
      requires Good()
      modifies this, space, space.holes, store, store.pool
      ensures Good() && Swept(old(S()), S(), MAX_BOS)
    {
      ghost var s0 := S();
      NothingSwept(s0);
      for k := 0 to MAX_BOS
        invariant Good() && Swept(s0, S(), k)
      {
        PollNext(k, now, s0);
      }
    }

    method PollNext(k: nat, now: nat, ghost s0: State)
      requires Good() && Swept(s0, S(), k)
      modifies this, space, space.holes, store, store.pool
      ensures Good() && Swept(s0, S(), k + 1)
    {
      SweptStep(s0, S(), k, now, store.cap);
      PollSlot(k, now);
    }

    // ---- references ----

    /** The reference that `u` no longer counts is dropped. */
    method DropOne(k: nat, u: Use)
      requires Ok() && InTable(S().t, k) && k in uses
      modifies this`maps, this`ptGen, this`tlbGen, this`entries, this`pass, this`uses, space.pt
      ensures Ok() && S() == DropRef(old(S()), k, u)
    {
      uses := uses[k := u];
      assert S() == SetUse(old(S()), k, u);
      BoUnref(k);
    }

    method DropFd(k: nat) returns (dropped: bool)
      requires Good()
      modifies this, space.pt
      ensures (k in old(uses) ==> InTable(old(S()).t, k)) && Good() && S() == CloseName(old(S()), k)
      ensures dropped == (k in old(uses) && old(uses)[k].opens > 0)
    {
      CloseNameKeeps(S(), k, store.cap, store.budget);
      dropped := k in uses && uses[k].opens > 0;
      if dropped { DropOne(k, uses[k].(opens := uses[k].opens - 1)); }
    }

    /** A descriptor of the name is closed; what may then leave quarantine does. */
    method CloseFd(k: nat, now: nat)
      requires Good()
      modifies this, space, space.pt, space.holes, store, store.pool
      ensures (k in old(uses) ==> InTable(old(S()).t, k)) && Good()
      ensures if k in old(uses) && old(uses)[k].opens > 0 then Swept(CloseName(old(S()), k), S(), MAX_BOS)
              else S() == old(S())
    {
      var dropped := DropFd(k);
      if dropped { QuarantinePoll(now); }
    }

    method DropHandle(client: nat, k: nat) returns (dropped: bool)
      requires Good()
      modifies this, space.pt
      ensures (k in old(uses) ==> InTable(old(S()).t, k)) && Good() && S() == CloseHandle(old(S()), client, k)
      ensures dropped == Closes(old(S()), client, k)
    {
      CloseHandleKeeps(S(), client, k, store.cap, store.budget);
      dropped := false;
      if k in uses && uses[k].refs > 0 {
        var u := uses[k];
        if client in u.sharers {
          dropped := true;
          DropOne(k, u.(sharers := u.sharers - {client}));
        } else if u.owner != 0 {
          dropped := true;
          DropOne(k, u.(owner := 0));
        }
      }
    }

    /** A client closes a handle; what may then leave quarantine does. */
    method CloseBo(client: nat, k: nat, now: nat)
      requires Good()
      modifies this, space, space.pt, space.holes, store, store.pool
      ensures (k in old(uses) ==> InTable(old(S()).t, k)) && Good()
      ensures if Closes(old(S()), client, k) then Swept(CloseHandle(old(S()), client, k), S(), MAX_BOS)
              else S() == old(S())
    {
      var dropped := DropHandle(client, k);
      if dropped { QuarantinePoll(now); }
    }

    method LeaveOwned(client: nat, k: nat)
      requires Good() && client != 0
      modifies this, space.pt
      ensures (k in old(uses) ==> InTable(old(S()).t, k)) && Good() && S() == LeaveOwner(old(S()), client, k) && hw == old(hw)
    {
      LeaveKeeps(S(), client, k, store.cap, store.budget);
      if k in uses && uses[k].refs > 0 && uses[k].owner == client {
        DropOne(k, uses[k].(owner := 0));
      }
    }

    method LeaveShared(client: nat, k: nat)
      requires Good() && client != 0
      modifies this, space.pt
      ensures (k in old(uses) ==> InTable(old(S()).t, k)) && Good() && S() == LeaveSharer(old(S()), client, k) && hw == old(hw)
    {
      LeaveKeeps(S(), client, k, store.cap, store.budget);
      if k in uses && client in uses[k].sharers {
        DropOne(k, uses[k].(sharers := uses[k].sharers - {client}));
      }
    }

    /** What a departing client holds of buffer `k`. */
    method Leave(client: nat, k: nat)
      requires Good() && client != 0
      modifies this, space.pt
      ensures Good() && Left(old(uses), uses, client, k) && hw == old(hw)
    {
      ghost var s0 := S();
      LeaveOwned(client, k);
      ghost var s1 := S();
      LeaveShared(client, k);
      LeftStep(s0, s1, S(), client, k, store.cap, store.budget);
    }

    /**
     * A client is gone: exactly its references are, from every buffer, and with them the
     * buffers that nothing else held; what may leave quarantine does, and the pool is swept.
     */
    method ClientGone(client: nat, now: nat, idle: nat) returns (ghost left: State, ghost polled: State)
      requires Good() && client != 0
      modifies this, space, space.pt, space.holes, store, store.pool
      ensures Good() && Departed(old(uses), uses, client, MAX_BOS)
      ensures left.m == old(S()).m && left.hw == old(S()).hw && left.uses == uses && Swept(left, polled, MAX_BOS)
      ensures S() == polled.(m := Trim(polled.m, store.cap, now, idle))
    {
      LeaveAll(client);
      left := S();
      QuarantinePoll(now);
      polled := S();
      PoolTick(now, idle);
    }

    /** Blocks idle for too long, or above the cap, go back to the allocator. */
    method PoolTick(now: nat, idle: nat)
      requires Good()
      modifies store, store.pool
      ensures Good() && S() == old(S()).(m := Trim(old(S()).m, store.cap, now, idle))
    {
      TrimPoolKeeps(S(), now, idle, store.cap, store.budget);
      store.TrimTo(now, idle);
    }

    method LeaveAll(client: nat)
      requires Good() && client != 0
      modifies this, space.pt
      ensures Good() && Departed(old(uses), uses, client, MAX_BOS) && hw == old(hw)
    {
      NothingLeft(uses, client);
      for k := 0 to MAX_BOS
        invariant Good() && Departed(old(uses), uses, client, k) && hw == old(hw)
      {
        ghost var before := uses;
        Leave(client, k);
        DepartedStep(old(uses), before, uses, client, k);
      }
    }

    // ---- jobs ----

    method CanName(bos: seq<nat>) returns (ok: bool)
      requires Ok()
      ensures ok == AllNamed(S(), bos)
    {
      ok := true;
      for i := 0 to |bos|
        invariant ok == forall j :: 0 <= j < i ==> Named(S(), bos[j])
      {
        if bos[i] !in uses || uses[bos[i]].refs == 0 { ok := false; }
      }
    }

    method PinAll(bos: seq<nat>)
      modifies this`uses
      ensures uses == Pinned(old(uses), bos)
    {
      for i := 0 to |bos|
        invariant uses == Pinned(old(uses), bos[..i])
      {
        assert bos[..i + 1][..i] == bos[..i];
        if bos[i] in uses { uses := uses[bos[i] := uses[bos[i]].(inflight := uses[bos[i]].inflight + 1)]; }
      }
      assert bos[..|bos|] == bos;
    }

    /** Every buffer named must be a live one with references; each mention is one pin. */
    method PinForJob(bos: seq<nat>) returns (ok: bool)
      requires Good()
      modifies this`uses, this`lists, this`nextJob
      ensures Good() && S() == Submit(old(S()), bos) && ok == AllNamed(old(S()), bos)
    {
      SubmitKeeps(S(), bos, store.cap, store.budget);
      ok := CanName(bos);
      if ok {
        PinAll(bos);
        lists := lists[nextJob := bos];
        nextJob := nextJob + 1;
        assert S() == Submit(old(S()), bos);
      }
    }

    /** One pin of buffer `k` fewer. */
    method UnpinOne(k: nat)
      requires Ok() && (k in uses ==> InTable(S().t, k))
      modifies this`maps, this`ptGen, this`tlbGen, this`entries, this`pass, this`uses, space.pt
      ensures Ok() && S() == Unpin(old(S()), k)
    {
      if k in uses {
        var u := uses[k];
        if u.inflight > 0 { u := u.(inflight := u.inflight - 1); }
        uses := uses[k := u];
        assert S() == SetUse(old(S()), k, u);
        if u.refs == 0 && u.inflight == 0 { QuarantineBegin(k); }
      }
    }

    method UnpinFirst(j: nat)
      requires Good() && j in lists && lists[j] != []
      modifies this, space.pt
      ensures (old(lists)[j][0] in old(uses) ==> InTable(old(S()).t, old(lists)[j][0]))
      ensures Good() && S() == PopPin(old(S()), j) && lists == old(lists)[j := old(lists)[j][1..]]
    {
      PopPinKeeps(S(), j, store.cap, store.budget);
      var k := lists[j][0];
      lists := lists[j := lists[j][1..]];
      assert S() == Shortened(old(S()), j);
      UnpinOne(k);
    }

    /** A finished or discarded job lets go of its buffers, and is gone. */
    method JobEnds(j: nat)
      requires Good() && j in lists
      modifies this, space.pt
      ensures (forall k :: k in old(uses) ==> InTable(old(S()).t, k)) && Good() && S() == EndJob(old(S()), j)
    {
      ghost var s0 := S();
      EndJobKeeps(s0, j, store.cap, store.budget);
      while lists[j] != []
        invariant Good() && j in lists && (forall k :: k in uses ==> InTable(S().t, k))
        invariant EndJob(S(), j) == EndJob(s0, j)
        decreases |lists[j]|
      {
        UnpinNext(j, s0);
      }
      lists := lists - {j};
    }

    method UnpinNext(j: nat, ghost s0: State)
      requires Good() && j in lists && lists[j] != [] && (forall k :: k in uses ==> InTable(S().t, k))
      modifies this, space.pt
      ensures Good() && j in lists && |lists[j]| < |old(lists)[j]| && (forall k :: k in uses ==> InTable(S().t, k))
      ensures EndJob(S(), j) == EndJob(old(S()), j)
    {
      UnpinFirst(j);
      AllInTable(S(), store.cap, store.budget);
    }

    // ---- arriving ----

    method FindFreeSlot() returns (k: nat)
      requires Ok()
      ensures k == FreeSlot(S().t, 0)
    {
      k := 0;
      while k < MAX_BOS && k in maps
        invariant k <= MAX_BOS && FreeSlot(S().t, 0) == FreeSlot(S().t, k)
      {
        k := k + 1;
      }
    }

    /** The entries of the new range, and its creator's reference. */
    method Install(k: nat, lo: nat, frames: seq<Frame>, client: nat)
      requires Ok() && lo + |frames| <= PT_ENTRIES
      modifies this`maps, this`ptGen, this`uses, space.pt
      ensures Ok() && S() == Installed(old(S()), k, Alloc(old(S()).t.va, true, lo), frames, client)
    {
      space.WritePtes(lo, frames);
      ptGen := ptGen + 1;
      maps := maps[k := Mapping(Span(lo, |frames|), frames, true, 0)];
      uses := uses[k := Use(client, {}, 0, 1, 0, false)];
    }

    /** A new buffer: a slot, a block, a range, and the entries that map it. */
    method Create(r: NewBo, offers: seq<Offer>, extra: seq<nat>, now: nat) returns (ok: bool, k: nat)
      requires Good() && r.client != 0
      modifies this, space, space.pt, space.holes, store, store.pool
      ensures Good() && CreateBo(old(S()), r, offers, extra, now, store.cap, store.budget) == Outcome(S(), ok, k)
    {
      CreateKeeps(S(), r, offers, extra, now, store.cap, store.budget);
      ok, k := false, 0;
      var slot := FindFreeSlot();
      if r.size > MAX_SIZE || slot == MAX_BOS { return; }
      var pages := PagesFor(r.size);
      var wantLow := false;
      if r.lowmem && !r.scanout {
        var foot := FootprintOf(pages);
        wantLow := Admit(store.lowLive, foot, store.budget);
      }
      ok, k := CreateIn(slot, r, pages, wantLow, offers, extra, now);
    }

    method CreateIn(slot: nat, r: NewBo, pages: nat, wantLow: bool, offers: seq<Offer>, extra: seq<nat>, now: nat)
      returns (ok: bool, k: nat)
      requires Good() && pages > 0
      modifies this`maps, this`ptGen, this`uses, space, space.pt, space.holes, store, store.pool
      ensures Ok()
      ensures var s := old(S());
              var g := GetBlock(s.m, pages, r.cached && !r.scanout, wantLow, offers, extra);
              (if !g.ok then Outcome(s.(m := g.m), false, 0)
               else PlaceBo(s.(m := g.m), slot, r, pages, g.block, wantLow && Low(g.block), now, store.cap))
              == Outcome(S(), ok, k)
    {
      GetBlockKeeps(S().m, pages, r.cached && !r.scanout, wantLow, offers, extra, store.cap, store.budget);
      ok, k := false, 0;
      var got, b := store.Get(pages, r.cached && !r.scanout, wantLow, offers, extra);
      if got { ok, k := Place(slot, r, pages, b, wantLow && Low(b), now); }
    }

    method Place(slot: nat, r: NewBo, pages: nat, b: Block, low: bool, now: nat) returns (ok: bool, k: nat)
      requires Ok() && VaOk(S().t.va) && store.poolBytes == Bytes(store.pool[..store.npool])
      modifies this`maps, this`ptGen, this`uses, space, space.pt, space.holes, store, store.pool
      ensures Ok() && PlaceBo(old(S()), slot, r, pages, b, low, now, store.cap) == Outcome(S(), ok, k)
    {
      AllocFitsIf(S().t.va, pages);
      k := 0;
      var lo: nat;
      ok, lo := space.VaAlloc(pages);
      if !ok {
        store.PutBack(b, now);
      } else {
        store.Give(slot, b, low);
        k := slot;
        Install(slot, lo, BoFrames(b.id, pages, if r.scanout then r.scanPages else 0, r.buffer), r.client);
      }
    }

    method FindOwnImport(client: nat, window: nat) returns (f: nat)
      requires Ok()
      ensures f == FindImport(S(), client, window, 0)
    {
      f := 0;
      while f < MAX_BOS && !(f in uses && f in imported && uses[f].refs > 0 && uses[f].owner == client && imported[f] == window)
        invariant f <= MAX_BOS && FindImport(S(), client, window, 0) == FindImport(S(), client, window, f)
      {
        f := f + 1;
      }
    }

    /** Another server's buffer: mapped again only if this client has not imported it yet. */
    method ImportForeign(client: nat, window: nat, pages: nat) returns (ok: bool, k: nat)
      requires Good() && client != 0
      modifies this, space, space.pt, space.holes
      ensures Good() && ImportWindow(old(S()), client, window, pages) == Outcome(S(), ok, k)
    {
      ImportWindowKeeps(S(), client, window, pages, store.cap, store.budget);
      var f := FindOwnImport(client, window);
      if f < MAX_BOS { return true, f; }
      ok, k := false, 0;
      var slot := FindFreeSlot();
      if slot == MAX_BOS || pages == 0 { return; }
      ok, k := MapWindow(slot, client, window, pages);
    }

    method MapWindow(slot: nat, client: nat, window: nat, pages: nat) returns (ok: bool, k: nat)
      requires Ok() && VaOk(S().t.va)
      modifies this`maps, this`ptGen, this`uses, this`imported, space, space.pt, space.holes
      ensures Ok()
      ensures var s := old(S());
              var a := VaAlloc(s.t.va, pages);
              (if !a.ok then Outcome(s, false, 0)
               else
                 AllocFits(s.t.va, pages);
                 var s1 := s.(imported := s.imported[slot := window]);
                 Outcome(Installed(s1, slot, a, WindowFrames(window, pages), client), true, slot))
              == Outcome(S(), ok, k)
    {
      AllocFitsIf(S().t.va, pages);
      k := 0;
      var lo: nat;
      ok, lo := space.VaAlloc(pages);
      if ok {
        k := slot;
        imported := imported[slot := window];
        Install(slot, lo, WindowFrames(window, pages), client);
      }
    }

    method ImportOwn(client: nat, k: nat)
      requires Good()
      modifies this`uses
      ensures Good() && S() == ImportExport(old(S()), client, k)
    {
      ImportExportKeeps(S(), client, k, store.cap, store.budget);
      if k in uses && uses[k].refs > 0 && uses[k].exported {
        var u := uses[k];
        if u.owner != client && client !in u.sharers {
          uses := uses[k := u.(sharers := u.sharers + {client}, refs := u.refs + 1)];
        }
      }
    }

    method ExportBo(client: nat, k: nat)
      requires Good()
      modifies this`uses
      ensures Good() && S() == Export(old(S()), client, k)
    {
      ExportKeeps(S(), client, k, store.cap, store.budget);
      if k in uses && uses[k].refs > 0 && (uses[k].owner == client || client in uses[k].sharers) &&
        k !in imported && !(k in store.holds && store.holds[k].block.cached) &&
        !(k in maps && |maps[k].frames| > 0 && maps[k].frames[0].Fb?)
      {
        uses := uses[k := uses[k].(exported := true)];
      }
    }

    method OpenFd(k: nat)
      requires Good()
      modifies this`uses
      ensures Good() && S() == OpenName(old(S()), k)
    {
      OpenNameKeeps(S(), k, store.cap, store.budget);
      if k in uses && uses[k].refs > 0 && uses[k].exported {
        uses := uses[k := uses[k].(opens := uses[k].opens + 1, refs := uses[k].refs + 1)];
      }
    }
  }

  lemma AllocFitsIf(v: Va, n: nat)
    requires VaOk(v)
    ensures VaAlloc(v, n).ok ==> VaAlloc(v, n).lo + n <= PT_ENTRIES
  {
    if VaAlloc(v, n).ok { AllocFits(v, n); }
  }

  /** There is a handle that the client's request closes: its own import, or else the creator's. */
  predicate Closes(s: State, client: nat, k: nat) {
    Named(s, k) && (client in s.uses[k].sharers || s.uses[k].owner != 0)
  }

  /** The same use without the client's references. */
  predicate Reduced(u: Use, u': Use, client: nat) {
    && u'.owner == (if u.owner == client then 0 else u.owner) && u'.sharers == u.sharers - {client}
    && u'.opens == u.opens && u'.inflight == u.inflight
  }

  /** Nothing but the client held it. */
  predicate Bereft(u: Use, client: nat) {
    (u.owner == 0 || u.owner == client) && u.sharers <= {client} && u.opens == 0 && u.inflight == 0
  }

  ghost predicate SlotLeft(uses: map<nat, Use>, uses': map<nat, Use>, client: nat, l: nat) {
    && (l in uses' ==> l in uses && Reduced(uses[l], uses'[l], client))
    && (l in uses && l !in uses' ==> Bereft(uses[l], client))
  }

  ghost predicate Same(uses: map<nat, Use>, uses': map<nat, Use>, l: nat) {
    (l in uses <==> l in uses') && (l in uses ==> uses'[l] == uses[l])
  }

  /** The client's references are gone from buffer `k`; the others are as they were. */
  ghost predicate Left(uses: map<nat, Use>, uses': map<nat, Use>, client: nat, k: nat) {
    && SlotLeft(uses, uses', client, k)
    && forall l: nat {:trigger Same(uses, uses', l)} :: l != k ==> Same(uses, uses', l)
  }

  /** And from all buffers below `n`. */
  ghost predicate Departed(uses: map<nat, Use>, uses': map<nat, Use>, client: nat, n: nat) {
    && (forall l: nat {:trigger SlotLeft(uses, uses', client, l)} :: l < n ==> SlotLeft(uses, uses', client, l))
    && (forall l: nat {:trigger Same(uses, uses', l)} :: l >= n ==> Same(uses, uses', l))
  }

  lemma NothingLeft(uses: map<nat, Use>, client: nat)
    ensures Departed(uses, uses, client, 0)
  {
    forall l: nat ensures Same(uses, uses, l) {}
  }

  lemma DepartedStep(uses: map<nat, Use>, uses1: map<nat, Use>, uses2: map<nat, Use>, client: nat, k: nat)
    requires Departed(uses, uses1, client, k) && Left(uses1, uses2, client, k)
    ensures Departed(uses, uses2, client, k + 1)
  {
    assert Same(uses, uses1, k);
    forall l: nat | l < k + 1 ensures SlotLeft(uses, uses2, client, l) {
      if l < k { assert SlotLeft(uses, uses1, client, l) && Same(uses1, uses2, l); }
    }
    forall l: nat | l >= k + 1 ensures Same(uses, uses2, l) { assert Same(uses, uses1, l) && Same(uses1, uses2, l); }
  }

  /** Dropping a reference of buffer `k` leaves its other counts, and it goes only when it has none. */
  lemma DropRefUses(s: State, k: nat, u: Use)
    requires k in s.uses && InTable(s.t, k) && u.refs == Refs(u) + 1
    ensures var s' := DropRef(s, k, u);
            && (k in s'.uses ==> s'.uses[k] == u.(refs := u.refs - 1, exported := u.exported && u.refs > 1))
            && (k !in s'.uses ==> Refs(u) == 0 && u.inflight == 0)
            && forall l: nat {:trigger Same(s.uses, s'.uses, l)} :: l != k ==> Same(s.uses, s'.uses, l)
  {
  }

  lemma LeftStep(s0: State, s1: State, s2: State, client: nat, k: nat, cap: nat, budget: nat)
    requires Inv(s0, cap, budget) && Inv(s1, cap, budget) && client != 0
    requires (k in s0.uses ==> InTable(s0.t, k)) && s1 == LeaveOwner(s0, client, k)
    requires (k in s1.uses ==> InTable(s1.t, k)) && s2 == LeaveSharer(s1, client, k)
    ensures Left(s0.uses, s2.uses, client, k)
  {
    OwnerLeft(s0, s1, client, k, cap, budget);
    SharerLeft(s1, s2, client, k, cap, budget);
    forall l: nat | l != k ensures Same(s0.uses, s2.uses, l) { assert Same(s0.uses, s1.uses, l) && Same(s1.uses, s2.uses, l); }
  }

  lemma OwnerLeft(s0: State, s1: State, client: nat, k: nat, cap: nat, budget: nat)
    requires Inv(s0, cap, budget) && client != 0
    requires (k in s0.uses ==> InTable(s0.t, k)) && s1 == LeaveOwner(s0, client, k)
    ensures k in s1.uses ==>
              && k in s0.uses && s1.uses[k].owner == (if s0.uses[k].owner == client then 0 else s0.uses[k].owner)
              && s1.uses[k].sharers == s0.uses[k].sharers && s1.uses[k].opens == s0.uses[k].opens
              && s1.uses[k].inflight == s0.uses[k].inflight
    ensures k in s0.uses && k !in s1.uses ==> Bereft(s0.uses[k], client)
    ensures forall l: nat {:trigger Same(s0.uses, s1.uses, l)} :: l != k ==> Same(s0.uses, s1.uses, l)
  {
    if k in s0.uses {
      assert UseOk(s0.uses, s0.jobs, k);
      if Named(s0, k) && s0.uses[k].owner == client { DropRefUses(s0, k, s0.uses[k].(owner := 0)); }
    }
  }

  lemma SharerLeft(s1: State, s2: State, client: nat, k: nat, cap: nat, budget: nat)
    requires Inv(s1, cap, budget) && client != 0
    requires (k in s1.uses ==> InTable(s1.t, k)) && s2 == LeaveSharer(s1, client, k)
    ensures k in s2.uses ==>
              && k in s1.uses && s2.uses[k].owner == s1.uses[k].owner
              && s2.uses[k].sharers == s1.uses[k].sharers - {client}
              && s2.uses[k].opens == s1.uses[k].opens && s2.uses[k].inflight == s1.uses[k].inflight
    ensures k in s1.uses && k !in s2.uses ==> s1.uses[k].owner == 0 && Bereft(s1.uses[k], client)
    ensures forall l: nat {:trigger Same(s1.uses, s2.uses, l)} :: l != k ==> Same(s1.uses, s2.uses, l)
  {
    if k in s1.uses {
      assert UseOk(s1.uses, s1.jobs, k);
      if client in s1.uses[k].sharers {
        DropRefUses(s1, k, s1.uses[k].(sharers := s1.uses[k].sharers - {client}));
      }
    }
  }

  /** What is left after a pass over the slots below `n`: those that might not go, and all the others. */
  ghost predicate SlotSwept(s0: State, s: State, n: nat, l: nat) {
    if l < n && MayFree(s0, l) then l !in s.t.maps && l !in s.pass
    else
      && (l in s.t.maps <==> l in s0.t.maps) && (l in s.t.maps ==> s.t.maps[l] == s0.t.maps[l])
      && (l in s.pass <==> l in s0.pass) && (l in s.pass ==> s.pass[l] == s0.pass[l])
  }

  ghost predicate Swept(s0: State, s: State, n: nat) {
    && s.c == s0.c && s.hw == s0.hw && s.uses == s0.uses && s.jobs == s0.jobs
    && forall l: nat {:trigger SlotSwept(s0, s, n, l)} :: SlotSwept(s0, s, n, l)
  }

  lemma NothingSwept(s: State)
    ensures Swept(s, s, 0)
  {
    forall l: nat ensures SlotSwept(s, s, 0, l) {}
  }

  lemma SweptStep(s0: State, s: State, k: nat, now: nat, cap: nat)
    requires Swept(s0, s, k)
    ensures Swept(s0, Polled(s, k, now, cap), k + 1)
  {
    var s', n := Polled(s, k, now, cap), k + 1;
    assert SlotSwept(s0, s, k, k);
    forall l: nat ensures SlotSwept(s0, s', n, l) { assert SlotSwept(s0, s, k, l); }
  }
}
