/** What clients of the buffer table may rely on, in every state of every run. */
module BoTheorems {
  import opened GpuSpace
  import opened GpuTlb
  import opened BlockPool
  import opened BoMemory
  import opened BoState
  import opened BoInv
  import opened BoRuns

  /** Every translation the GPU has cached is the current one, or belongs to a buffer still in quarantine. */
  lemma TlbSafety(ss: seq<State>, xs: seq<Step>, n: nat, cap: nat, budget: nat, i: nat, e: Entry)
    requires IsRun(ss, xs, n, cap, budget) && i < |ss| && e in ss[i].c.entries
    ensures Current(ss[i].t, e) ||
            exists k :: LeftOver(ss[i].t, ss[i].c, e, k) && k in ss[i].pass && k !in ss[i].uses
  {
    RunInv(ss, xs, n, cap, budget, i);
    var s := ss[i];
    assert EntryOk(s.t, s.c, e);
    if !Current(s.t, e) {
      var k :| LeftOver(s.t, s.c, e, k);
      assert Tied(s, k);
    }
  }

  ghost predicate Holds(s: State, k: nat, b: nat) {
    k in s.m.holds && k in s.t.maps && s.m.holds[k].block.id == b
  }

  /** So no page of a block that is pooled, or given back, can be reached: its buffer has not let go of it. */
  lemma NoStaleReuse(ss: seq<State>, xs: seq<Step>, n: nat, cap: nat, budget: nat, i: nat, e: Entry)
    requires IsRun(ss, xs, n, cap, budget) && i < |ss| && e in ss[i].c.entries && e.frame.Own?
    ensures exists k :: Holds(ss[i], k, e.frame.block)
    ensures forall j :: 0 <= j < |ss[i].m.pool| ==> ss[i].m.pool[j].id != e.frame.block
    ensures e.frame.block !in ss[i].m.back
  {
    RunInv(ss, xs, n, cap, budget, i);
    ReachedHeld(ss[i], cap, budget, e);
  }

  lemma ReachedHeld(s: State, cap: nat, budget: nat, e: Entry)
    requires Inv(s, cap, budget) && e in s.c.entries && e.frame.Own?
    ensures exists k :: Holds(s, k, e.frame.block)
    ensures forall j :: 0 <= j < |s.m.pool| ==> s.m.pool[j].id != e.frame.block
    ensures e.frame.block !in s.m.back
  {
    ReachedIsHeld(s.t, s.c, e);
    var k :| k in s.t.maps && Covers(s.t.maps[k], e.page) && |s.t.maps[k].frames| == s.t.maps[k].span.n &&
      s.t.maps[k].frames[e.page - s.t.maps[k].span.lo] == e.frame;
    assert Tied(s, k);
    assert Holds(s, k, e.frame.block);
    OneHome(s.m, k);
  }

  /**
   * The ranges of live and quarantined buffers, the overflow pool and the holes are
   * pairwise disjoint inside the space handed out so far; an entry is valid exactly when
   * its page belongs to a live buffer or the overflow pool.
   */
  lemma AddressSpace(ss: seq<State>, xs: seq<Step>, n: nat, cap: nat, budget: nat, i: nat)
    requires IsRun(ss, xs, n, cap, budget) && i < |ss|
    ensures var t := ss[i].t;
            && (forall k: nat :: k in t.maps ==> Within(t.maps[k].span, t.va.next))
            && (forall h: nat :: h < |t.va.holes| ==> Within(t.va.holes[h], t.va.next))
            && (forall k: nat, l: nat :: k in t.maps && l in t.maps && k != l ==> Apart(t.maps[k].span, t.maps[l].span))
            && (forall h: nat, g: nat :: h < g < |t.va.holes| ==> Apart(t.va.holes[h], t.va.holes[g]))
            && (forall k: nat, h: nat :: k in t.maps && h < |t.va.holes| ==> Apart(t.va.holes[h], t.maps[k].span))
    ensures forall p: nat :: p < |ss[i].t.va.pt| ==> (ss[i].t.va.pt[p].Valid? <==> LivePage(ss[i], p))
  {
    RunInv(ss, xs, n, cap, budget, i);
    SpaceParts(ss[i].t);
    forall p: nat | p < |ss[i].t.va.pt| ensures ss[i].t.va.pt[p].Valid? <==> LivePage(ss[i], p) {
      LivePages(ss[i], cap, budget, p);
    }
  }

  /** Page `p` belongs to a buffer with references, or to the overflow pool. */
  ghost predicate LivePage(s: State, p: nat) {
    exists k: nat :: (k in s.uses || k == OVF) && k in s.t.maps && Covers(s.t.maps[k], p)
  }

  lemma LivePages(s: State, cap: nat, budget: nat, p: nat)
    requires Inv(s, cap, budget) && p < |s.t.va.pt|
    ensures s.t.va.pt[p].Valid? <==> LivePage(s, p)
  {
    ValidIffLive(s.t, p);
    if s.t.va.pt[p].Valid? {
      var k :| k in s.t.maps && s.t.maps[k].live && Covers(s.t.maps[k], p);
      assert Tied(s, k);
    }
    if LivePage(s, p) {
      var k: nat :| (k in s.uses || k == OVF) && k in s.t.maps && Covers(s.t.maps[k], p);
      assert Tied(s, k);
    }
  }

  lemma SpaceParts(t: Table)
    requires TableOk(t)
    ensures forall k: nat :: k in t.maps ==> Within(t.maps[k].span, t.va.next)
    ensures forall h: nat :: h < |t.va.holes| ==> Within(t.va.holes[h], t.va.next)
    ensures forall k: nat, l: nat :: k in t.maps && l in t.maps && k != l ==> Apart(t.maps[k].span, t.maps[l].span)
    ensures forall h: nat, g: nat :: h < g < |t.va.holes| ==> Apart(t.va.holes[h], t.va.holes[g])
    ensures forall k: nat, h: nat :: k in t.maps && h < |t.va.holes| ==> Apart(t.va.holes[h], t.maps[k].span)
  {
    forall k: nat | k in t.maps ensures Within(t.maps[k].span, t.va.next) { assert MapOk(t, k); }
    forall h: nat | h < |t.va.holes| ensures Within(t.va.holes[h], t.va.next) { assert HoleOk(t.va, h); }
    forall k: nat, l: nat | k in t.maps && l in t.maps && k != l ensures Apart(t.maps[k].span, t.maps[l].span) {
      assert MapsApart(t, k, l);
    }
    forall h: nat, g: nat | h < g < |t.va.holes| ensures Apart(t.va.holes[h], t.va.holes[g]) {
      assert HolesApart(t.va, h, g);
    }
    forall k: nat, h: nat | k in t.maps && h < |t.va.holes| ensures Apart(t.va.holes[h], t.maps[k].span) {
      assert MapOk(t, k) && OffHole(t.va, h, t.maps[k].span);
    }
  }

  /** A page of a buffer is mapped to the same page of the buffer's block, or to the frame buffer or another server's pages. */
  lemma PageOfBlock(ss: seq<State>, xs: seq<Step>, n: nat, cap: nat, budget: nat, i: nat, k: nat, j: nat)
    requires IsRun(ss, xs, n, cap, budget) && i < |ss| && k in ss[i].uses
    ensures k in ss[i].t.maps && (j < ss[i].t.maps[k].span.n ==> MapsTo(ss[i], k, j))
  {
    RunInv(ss, xs, n, cap, budget, i);
    var s := ss[i];
    assert Tied(s, k);
    assert MapOk(s.t, k);
    if j < s.t.maps[k].span.n { assert Covers(s.t.maps[k], s.t.maps[k].span.lo + j); }
  }

  /** The entry of page `j` of buffer `k`. */
  ghost predicate MapsTo(s: State, k: nat, j: nat)
    requires k in s.t.maps
  {
    var p := s.t.maps[k].span.lo + j;
    && p < |s.t.va.pt| && s.t.va.pt[p].Valid?
    && match s.t.va.pt[p].frame
       case Own(b, i) => k in s.m.holds && b == s.m.holds[k].block.id && i == j < s.m.holds[k].block.pages
       case Fb(_, _) => true
       case Foreign(_, _) => true
       case Overflow(_) => true
  }

  /** A buffer in slot `k` whose page-table entries are in place. */
  predicate Live(s: State, k: nat) { k in s.t.maps && k < MAX_BOS && s.t.maps[k].live }

  /**
   * The reference counts are exact, a buffer is live exactly while somebody or some job
   * holds it, jobs name only live buffers, and an exported buffer is referenced.
   */
  lemma ReferencesExact(ss: seq<State>, xs: seq<Step>, n: nat, cap: nat, budget: nat, i: nat, k: nat)
    requires IsRun(ss, xs, n, cap, budget) && i < |ss|
    ensures Live(ss[i], k) <==> k in ss[i].uses
    ensures Live(ss[i], k) ==>
              && ss[i].uses[k].refs == Refs(ss[i].uses[k])
              && ss[i].uses[k].inflight == Mentions(ss[i].jobs.lists, k, ss[i].jobs.next)
              && (ss[i].uses[k].refs > 0 || ss[i].uses[k].inflight > 0)
              && (ss[i].uses[k].exported ==> ss[i].uses[k].refs > 0)
    ensures forall j :: j in ss[i].jobs.lists && k in ss[i].jobs.lists[j] ==> Live(ss[i], k)
  {
    RunInv(ss, xs, n, cap, budget, i);
    CountsExact(ss[i], cap, budget, k);
  }

  lemma CountsExact(s: State, cap: nat, budget: nat, k: nat)
    requires Inv(s, cap, budget)
    ensures Live(s, k) <==> k in s.uses
    ensures k in s.uses ==> UseOk(s.uses, s.jobs, k)
    ensures forall j :: j in s.jobs.lists && k in s.jobs.lists[j] ==> Live(s, k)
  {
    assert Tied(s, k);
    forall j | j in s.jobs.lists && k in s.jobs.lists[j] ensures Live(s, k) { assert NamesLive(s.uses, s.jobs, j); }
  }

  /** The pool's byte count and the low-memory count are sums over what is there, and within their limits. */
  lemma Budgets(ss: seq<State>, xs: seq<Step>, n: nat, cap: nat, budget: nat, i: nat)
    requires IsRun(ss, xs, n, cap, budget) && i < |ss|
    ensures ss[i].m.poolBytes == Bytes(ss[i].m.pool) <= cap
    ensures ss[i].m.lowLive == LowBytes(ss[i].m.holds, MAX_BOS) <= budget
    ensures Conserved(ss[i].m) && ss[i].m.hand == []
    ensures forall k :: k in ss[i].m.holds && ss[i].m.holds[k].low ==> Low(ss[i].m.holds[k].block)
  {
    RunInv(ss, xs, n, cap, budget, i);
    var m := ss[i].m;
    forall k | k in m.holds && m.holds[k].low ensures Low(m.holds[k].block) { assert HoldOk(m, k); }
  }
}
