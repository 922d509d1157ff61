/**
 * The buffer objects of the render server: their references, the ranges and blocks
 * they occupy, and how they leave through quarantine.
 */
module BoState {
  import opened GpuSpace
  import opened GpuTlb
  import opened BlockPool
  import opened Lowmem
  import opened BoMemory

  const NQ := 6
  const BIN := 0
  const RENDER := 1
  const CPU := 5
  /** The key under which the overflow pool's range is kept: no buffer has it. */
  const OVF := MAX_BOS

  /** Who holds a live buffer: its creator, importing clients, open descriptors, jobs. */
  datatype Use = Use(owner: nat, sharers: set<nat>, opens: nat, refs: nat, inflight: nat, exported: bool)

  /**
   * Jobs sent to and finished by each hardware queue, and whether one is there now; whether
   * a reset is failing the jobs it found there; and how many queued renders have a failed bin.
   */
  datatype Hw = Hw(submitted: seq<nat>, completed: seq<nat>, active: seq<bool>, wedged: bool, doomed: nat)

  /** The buffer lists of the queued and active jobs, by job number. */
  datatype Jobs = Jobs(lists: map<nat, seq<nat>>, next: nat)

  datatype State = State(t: Table, c: Cache, hw: Hw, pass: map<nat, seq<nat>>, imported: map<nat, nat>,
                         uses: map<nat, Use>, jobs: Jobs, m: Memory)

  function Refs(u: Use): nat { (if u.owner != 0 then 1 else 0) + |u.sharers| + u.opens }

  /** How often the jobs below number `n` name buffer `k`. */
  function Mentions(lists: map<nat, seq<nat>>, k: nat, n: nat): nat {
    if n == 0 then 0
    else Mentions(lists, k, n - 1) + (if n - 1 in lists then multiset(lists[n - 1])[k] else 0)
  }

  // ---- leaving ----

  predicate Busy(hw: Hw, q: nat)
    requires q <= |hw.active|
    decreases |hw.active| - q
  {
    if q == |hw.active| then false else (q != CPU && hw.active[q]) || Busy(hw, q + 1)
  }

  /** Unmapped; the translations are flushed at once if nothing runs, else by the next job's start. */
  function Quarantine(s: State, k: nat): State
    requires k in s.t.maps && s.t.maps[k].span.lo + s.t.maps[k].span.n <= |s.t.va.pt|
  {
    var c := Changed(s.c);
    s.(t := Clear(s.t, k, c.ptGen), c := if Busy(s.hw, 0) then c else Flush(c),
       pass := s.pass[k := s.hw.submitted], uses := s.uses - {k})
  }

  /** One reference fewer; the last one withdraws the name, and nobody's buffer is quarantined. */
  function Unref(s: State, k: nat): State
    requires k in s.uses && k in s.t.maps && s.t.maps[k].span.lo + s.t.maps[k].span.n <= |s.t.va.pt|
  {
    var u := s.uses[k];
    var refs := if u.refs > 0 then u.refs - 1 else 0;
    var u' := u.(refs := refs, exported := u.exported && refs > 0);
    var s' := s.(uses := s.uses[k := u']);
    if refs == 0 && u.inflight == 0 then Quarantine(s', k) else s'
  }

  predicate AllPassed(completed: seq<nat>, pass: seq<nat>, q: nat)
    requires q <= |pass|
    decreases |pass| - q
  {
    q == |pass| || (q < |completed| && completed[q] >= pass[q] && AllPassed(completed, pass, q + 1))
  }

  predicate MayFree(s: State, k: nat) {
    && k in s.t.maps && !s.t.maps[k].live && s.c.tlbGen >= s.t.maps[k].clearGen
    && k in s.pass && AllPassed(s.hw.completed, s.pass[k], 0)
  }

  /** Out of quarantine: the block to the pool, or the window closed; the range to the holes. */
  function FreeBo(s: State, k: nat, now: nat, cap: nat): State
    requires k in s.t.maps
  {
    var s1 := s.(t := Drop(s.t, k), pass := s.pass - {k});
    if k in s.imported then s1.(imported := s.imported - {k})
    else if k in s.m.holds then s1.(m := Put(Release(s.m, k), s.m.holds[k].block, now, cap))
    else s1
  }

  /** What a pass over the table does with slot `k`. */
  function Polled(s: State, k: nat, now: nat, cap: nat): State {
    if MayFree(s, k) then FreeBo(s, k, now, cap) else s
  }

  // ---- arriving ----

  const MAX_SIZE := 0x4000_0000

  function PagesFor(size: nat): nat {
    var n := (size + PAGE - 1) / PAGE;
    if n == 0 then 1 else n
  }

  /** The pages hold the size asked for, and one page fewer would not (nor would none). */
  lemma PagesHold(size: nat)
    ensures PagesFor(size) >= 1 && size <= PagesFor(size) * PAGE
    ensures PagesFor(size) > 1 ==> (PagesFor(size) - 1) * PAGE < size
  {
  }

  /** The lowest slot not in use, MAX_BOS if there is none. */
  function FreeSlot(t: Table, k: nat): (r: nat)
    requires k <= MAX_BOS
    ensures k <= r <= MAX_BOS && (r < MAX_BOS ==> r !in t.maps)
    ensures forall i :: k <= i < r ==> i in t.maps
    decreases MAX_BOS - k
  {
    if k == MAX_BOS || k !in t.maps then k else FreeSlot(t, k + 1)
  }

  datatype Got = Got(m: Memory, ok: bool, block: Block)

  /** A fresh block on the ordinary path: `extra` is its address, if the allocator has one. */
  function GetFresh(m: Memory, pages: nat, cached: bool, extra: seq<nat>): Got {
    if extra == [] then Got(m, false, Block(0, 0, 0, false, 0))
    else Got(TakeFresh(m, 1, 0), true, Block(m.taken, extra[0], pages, cached, 0))
  }

  /** A fresh block below the limit if the tries find one; if they find nothing whole, the ordinary path. */
  function GetLow(m: Memory, pages: nat, cached: bool, offers: seq<Offer>, extra: seq<nat>): Got
    requires pages > 0
  {
    var f := Search(offers, pages * PAGE, TRIES, 0, -1);
    var m1 := TakeFresh(m, f.n, f.keep);
    if f.keep >= 0 then Got(m1, true, Block(m.taken + f.keep, offers[f.keep].first, pages, cached, 0))
    else GetFresh(m1, pages, cached, extra)
  }

  /** A block: pooled, else placed low if wanted, else whatever comes. */
  function GetBlock(m: Memory, pages: nat, cached: bool, wantLow: bool, offers: seq<Offer>, extra: seq<nat>): Got
    requires pages > 0
  {
    var i := PickIndex(m.pool, pages, cached, wantLow);
    if i >= 0 then Got(TakePooled(m, i), true, m.pool[i])
    else if wantLow then GetLow(m, pages, cached, offers, extra)
    else GetFresh(m, pages, cached, extra)
  }

  /** The first pages of a scan-out buffer are the frame buffer's, the others its own. */
  function BoFrames(block: nat, pages: nat, scanPages: nat, buffer: nat): (r: seq<Frame>)
    ensures |r| == pages
  {
    seq(pages, i requires 0 <= i < pages => if i < scanPages then Fb(buffer, i) else Own(block, i))
  }

  datatype NewBo = NewBo(client: nat, size: nat, cached: bool, lowmem: bool, scanout: bool, scanPages: nat, buffer: nat)

  datatype Outcome = Outcome(s: State, ok: bool, slot: nat)

  function CreateBo(s: State, r: NewBo, offers: seq<Offer>, extra: seq<nat>, now: nat, cap: nat, budget: nat): Outcome
    requires VaOk(s.t.va)
  {
    var k := FreeSlot(s.t, 0);
    if r.size > MAX_SIZE || k == MAX_BOS then Outcome(s, false, 0)
    else
      var pages := PagesFor(r.size);
      var wantLow := r.lowmem && !r.scanout && Admit(s.m.lowLive, Footprint(pages), budget);
      var g := GetBlock(s.m, pages, r.cached && !r.scanout, wantLow, offers, extra);
      if !g.ok then Outcome(s.(m := g.m), false, 0)
      else PlaceBo(s.(m := g.m), k, r, pages, g.block, wantLow && Low(g.block), now, cap)
  }

  /** A range for the block in hand; without one, the block goes to the pool. */
  function PlaceBo(s: State, k: nat, r: NewBo, pages: nat, b: Block, low: bool, now: nat, cap: nat): Outcome
    requires VaOk(s.t.va)
  {
    var a := VaAlloc(s.t.va, pages);
    if !a.ok then Outcome(s.(m := Put(s.m, b, now, cap)), false, 0)
    else
      AllocFits(s.t.va, pages);
      var frames := BoFrames(b.id, pages, if r.scanout then r.scanPages else 0, r.buffer);
      Outcome(Installed(s.(m := Assign(s.m, k, b, low)), k, a, frames, r.client), true, k)
  }

  /** The range is mapped and the buffer is its creator's. */
  function Installed(s: State, k: nat, a: Alloc, frames: seq<Frame>, client: nat): State
    requires a.lo + |frames| <= |a.va.pt|
  {
    s.(t := MapIn(s.t.(va := a.va), k, Span(a.lo, |frames|), frames), c := Changed(s.c),
       uses := s.uses[k := Use(client, {}, 0, 1, 0, false)])
  }

  /** Another server's buffer, `window`: the client's own earlier import of it, or a new range over its pages. */
  function ImportWindow(s: State, client: nat, window: nat, pages: nat): Outcome
    requires VaOk(s.t.va)
  {
    var f := FindImport(s, client, window, 0);
    var k := FreeSlot(s.t, 0);
    if f < MAX_BOS then Outcome(s, true, f)
    else if k == MAX_BOS || pages == 0 then Outcome(s, false, 0)
    else
      var a := VaAlloc(s.t.va, pages);
      if !a.ok then Outcome(s, false, 0)
      else
        AllocFits(s.t.va, pages);
        Outcome(Installed(s.(imported := s.imported[k := window]), k, a, WindowFrames(window, pages), client), true, k)
  }

  function WindowFrames(window: nat, pages: nat): (r: seq<Frame>)
    ensures |r| == pages
  {
    seq(pages, i requires 0 <= i < pages => Foreign(window, i))
  }

  function FindImport(s: State, client: nat, window: nat, k: nat): nat
    decreases MAX_BOS - k
  {
    if k >= MAX_BOS then MAX_BOS
    else if k in s.uses && k in s.imported && s.uses[k].refs > 0 && s.uses[k].owner == client && s.imported[k] == window
    then k
    else FindImport(s, client, window, k + 1)
  }

  // ---- references ----

  /** A buffer that a client may name. */
  predicate Named(s: State, k: nat) { k in s.uses && s.uses[k].refs > 0 }

  function SetUse(s: State, k: nat, u: Use): State { s.(uses := s.uses[k := u]) }

  /** Importing an exported buffer of this server: one reference per client, none for its own. */
  function ImportExport(s: State, client: nat, k: nat): State {
    if !Named(s, k) || !s.uses[k].exported then s
    else
      var u := s.uses[k];
      if u.owner == client || client in u.sharers then s
      else SetUse(s, k, u.(sharers := u.sharers + {client}, refs := u.refs + 1))
  }

  /** Not another server's pages, not cacheable, and not a scan-out buffer. */
  predicate Exportable(s: State, k: nat) {
    && k !in s.imported && !(k in s.m.holds && s.m.holds[k].block.cached)
    && !(k in s.t.maps && |s.t.maps[k].frames| > 0 && s.t.maps[k].frames[0].Fb?)
  }

  /** A client publishes a buffer it has a handle of. */
  function Export(s: State, client: nat, k: nat): State {
    if !Named(s, k) || (s.uses[k].owner != client && client !in s.uses[k].sharers) || !Exportable(s, k) then s
    else SetUse(s, k, s.uses[k].(exported := true))
  }

  function OpenName(s: State, k: nat): State {
    if !Named(s, k) || !s.uses[k].exported then s
    else SetUse(s, k, s.uses[k].(opens := s.uses[k].opens + 1, refs := s.uses[k].refs + 1))
  }

  /** Drops one reference of buffer `k`, the counts other than `refs` being already those of `u`. */
  function DropRef(s: State, k: nat, u: Use): State
    requires k in s.t.maps && s.t.maps[k].span.lo + s.t.maps[k].span.n <= |s.t.va.pt|
  {
    Unref(SetUse(s, k, u), k)
  }

  // ---- requests that drop references ----

  /** A buffer's range lies in the page table. */
  predicate InTable(t: Table, k: nat) {
    k in t.maps && t.maps[k].span.lo + t.maps[k].span.n <= |t.va.pt|
  }

  function CloseName(s: State, k: nat): State
    requires k in s.uses ==> InTable(s.t, k)
  {
    if k !in s.uses || s.uses[k].opens == 0 then s
    else DropRef(s, k, s.uses[k].(opens := s.uses[k].opens - 1))
  }

  /** A client closes a handle: its import, else the creator's handle, whoever's it is. */
  function CloseHandle(s: State, client: nat, k: nat): State
    requires k in s.uses ==> InTable(s.t, k)
  {
    if !Named(s, k) then s
    else
      var u := s.uses[k];
      if client in u.sharers then DropRef(s, k, u.(sharers := u.sharers - {client}))
      else if u.owner != 0 then DropRef(s, k, u.(owner := 0))
      else s
  }

  /** The creator's reference of a client that is gone. */
  function LeaveOwner(s: State, client: nat, k: nat): State
    requires k in s.uses ==> InTable(s.t, k)
  {
    if !Named(s, k) || s.uses[k].owner != client then s
    else DropRef(s, k, s.uses[k].(owner := 0))
  }

  function LeaveSharer(s: State, client: nat, k: nat): State
    requires k in s.uses ==> InTable(s.t, k)
  {
    if k !in s.uses || client !in s.uses[k].sharers then s
    else DropRef(s, k, s.uses[k].(sharers := s.uses[k].sharers - {client}))
  }

  // ---- jobs ----

  predicate AllNamed(s: State, bos: seq<nat>) { forall i :: 0 <= i < |bos| ==> Named(s, bos[i]) }

  /** Each mention of a buffer is one pin. */
  function Pinned(uses: map<nat, Use>, bos: seq<nat>): map<nat, Use>
    decreases |bos|
  {
    if bos == [] then uses
    else
      var n := |bos| - 1;
      var u := Pinned(uses, bos[..n]);
      if bos[n] in u then u[bos[n] := u[bos[n]].(inflight := u[bos[n]].inflight + 1)] else u
  }

  /** A job's buffers are pinned all or none. */
  function Submit(s: State, bos: seq<nat>): State {
    if !AllNamed(s, bos) then s
    else s.(uses := Pinned(s.uses, bos), jobs := Jobs(s.jobs.lists[s.jobs.next := bos], s.jobs.next + 1))
  }

  /** One pin fewer. */
  function Unpin(s: State, k: nat): State
    requires k in s.uses ==> InTable(s.t, k)
  {
    if k !in s.uses then s
    else
      var u := s.uses[k];
      var n := if u.inflight > 0 then u.inflight - 1 else 0;
      var s' := SetUse(s, k, u.(inflight := n));
      if u.refs == 0 && n == 0 then Quarantine(s', k) else s'
  }

  /** A job ends: its pins go one by one, in the order of its list, and then the job. */
  function EndJob(s: State, j: nat): State
    requires j in s.jobs.lists
    requires forall k :: k in s.uses ==> InTable(s.t, k)
    decreases |s.jobs.lists[j]|
  {
    var bos := s.jobs.lists[j];
    if bos == [] then s.(jobs := s.jobs.(lists := s.jobs.lists - {j}))
    else
      UnpinTable(Shortened(s, j), bos[0]);
      EndJob(PopPin(s, j), j)
  }

  /** Job `j` without the first name on its list. */
  function Shortened(s: State, j: nat): State
    requires j in s.jobs.lists && s.jobs.lists[j] != []
  {
    s.(jobs := s.jobs.(lists := s.jobs.lists[j := s.jobs.lists[j][1..]]))
  }

  /** The first pin of job `j` dropped. */
  function PopPin(s: State, j: nat): State
    requires j in s.jobs.lists && s.jobs.lists[j] != []
    requires s.jobs.lists[j][0] in s.uses ==> InTable(s.t, s.jobs.lists[j][0])
  {
    Unpin(Shortened(s, j), s.jobs.lists[j][0])
  }

  lemma UnpinTable(s: State, k: nat)
    requires forall l :: l in s.uses ==> InTable(s.t, l)
    ensures forall l :: l in Unpin(s, k).uses ==> InTable(Unpin(s, k).t, l)
  {
  }

  // ---- the hardware ----

  function Kick(s: State, q: nat, flush: bool): State
    requires q < |s.hw.active| && q < |s.hw.submitted|
  {
    s.(hw := s.hw.(submitted := s.hw.submitted[q := s.hw.submitted[q] + 1], active := s.hw.active[q := true],
                   wedged := false),
       c := if flush then Flush(s.c) else s.c)
  }

  function Finish(s: State, q: nat): State
    requires q < |s.hw.active| && q < |s.hw.completed|
  {
    s.(hw := s.hw.(completed := s.hw.completed[q := s.hw.completed[q] + 1], active := s.hw.active[q := false]))
  }

  /** A job that a reset found on queue `q` fails; a bin may leave a render behind that cannot run any more. */
  function Fail(s: State, q: nat, pair: bool): State
    requires q < |s.hw.active| && q < |s.hw.completed|
  {
    var t := Finish(s, q);
    t.(hw := t.hw.(doomed := if q == BIN && pair then t.hw.doomed + 1 else t.hw.doomed))
  }

  /** A job whose bin failed is counted as sent and finished without having run. */
  function Reap(s: State, q: nat): State
    requires q < |s.hw.submitted| && q < |s.hw.completed|
  {
    s.(hw := s.hw.(submitted := s.hw.submitted[q := s.hw.submitted[q] + 1],
                   completed := s.hw.completed[q := s.hw.completed[q] + 1],
                   doomed := if s.hw.doomed > 0 then s.hw.doomed - 1 else 0))
  }

  function Reset(s: State): State { s.(c := Flush(Changed(s.c)), hw := s.hw.(wedged := true)) }
}
