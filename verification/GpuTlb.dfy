/**
 * The translations the GPU has cached.  The hardware may load any valid page-table
 * entry at any time while a job runs; only a flush is certain to forget them.
 */
module GpuTlb {
  import opened GpuSpace

  datatype Entry = Entry(page: nat, frame: Frame)

  /** `ptGen` counts page-table changes; `tlbGen` is its value at the last flush. */
  datatype Cache = Cache(entries: set<Entry>, ptGen: nat, tlbGen: nat)

  /** `e` is a leftover of quarantined range `k`, unmapped since the last flush. */
  ghost predicate LeftOver(t: Table, c: Cache, e: Entry, k: nat) {
    && k in t.maps && !t.maps[k].live && t.maps[k].clearGen > c.tlbGen
    && Covers(t.maps[k], e.page) && |t.maps[k].frames| == t.maps[k].span.n
    && t.maps[k].frames[e.page - t.maps[k].span.lo] == e.frame
  }

  ghost predicate Current(t: Table, e: Entry) {
    e.page < |t.va.pt| && t.va.pt[e.page] == Valid(e.frame)
  }

  ghost predicate EntryOk(t: Table, c: Cache, e: Entry) {
    Current(t, e) || exists k :: LeftOver(t, c, e, k)
  }

  ghost predicate GenOk(t: Table, c: Cache, k: nat)
    requires k in t.maps
  {
    t.maps[k].clearGen <= c.ptGen
  }

  /** Every cached translation is the current one, or a leftover of a range still in quarantine. */
  ghost predicate CacheOk(t: Table, c: Cache) {
    && c.tlbGen <= c.ptGen
    && (forall k: nat {:trigger GenOk(t, c, k)} :: k in t.maps ==> GenOk(t, c, k))
    && (forall e: Entry {:trigger EntryOk(t, c, e)} :: e in c.entries ==> EntryOk(t, c, e))
  }

  // ---- what the hardware may do ----

  function Load(t: Table, c: Cache, p: nat): Cache
    requires p < |t.va.pt| && t.va.pt[p].Valid?
  {
    c.(entries := c.entries + {Entry(p, t.va.pt[p].frame)})
  }

  function Evict(c: Cache, e: Entry): Cache { c.(entries := c.entries - {e}) }

  // ---- what the server does ----

  function Changed(c: Cache): Cache { c.(ptGen := c.ptGen + 1) }

  function Flush(c: Cache): Cache { Cache({}, c.ptGen, c.ptGen) }

  lemma HardwareKeeps(t: Table, c: Cache, p: nat, e: Entry)
    requires CacheOk(t, c)
    ensures p < |t.va.pt| && t.va.pt[p].Valid? ==> CacheOk(t, Load(t, c, p))
    ensures CacheOk(t, Evict(c, e))
  {
    if p < |t.va.pt| && t.va.pt[p].Valid? {
      var c' := Load(t, c, p);
      forall k: nat | k in t.maps ensures GenOk(t, c', k) { assert GenOk(t, c, k); }
      forall f | f in c'.entries ensures EntryOk(t, c', f) {
        if f in c.entries && !Current(t, f) {
          assert EntryOk(t, c, f);
          var k :| LeftOver(t, c, f, k);
          assert LeftOver(t, c', f, k);
        }
      }
    }
    var c' := Evict(c, e);
    forall k: nat | k in t.maps ensures GenOk(t, c', k) { assert GenOk(t, c, k); }
    forall f | f in c'.entries ensures EntryOk(t, c', f) {
      assert EntryOk(t, c, f);
      if !Current(t, f) {
        var k :| LeftOver(t, c, f, k);
        assert LeftOver(t, c', f, k);
      }
    }
  }

  lemma FlushKeeps(t: Table, c: Cache)
    requires CacheOk(t, c)
    ensures CacheOk(t, Flush(c))
  {
    forall k: nat | k in t.maps ensures GenOk(t, Flush(c), k) { assert GenOk(t, c, k); }
  }

  /** No entry is cached for a page that belongs to no range: there is nothing it could come from. */
  lemma VacantUncached(t: Table, c: Cache, s: Span, e: Entry)
    requires TableOk(t) && CacheOk(t, c) && Vacant(t, s) && e in c.entries
    ensures !(s.lo <= e.page < s.lo + s.n)
  {
    assert EntryOk(t, c, e);
    if Current(t, e) {
      assert Backed(t, e.page);
      var k :| k in t.maps && t.maps[k].live && Covers(t.maps[k], e.page);
      assert OffMap(t, k, s);
    } else {
      var k :| LeftOver(t, c, e, k);
      assert OffMap(t, k, s);
    }
  }

  /** Changing entries off the cached pages, with every quarantined range kept, keeps the cache in order. */
  lemma Carries(t: Table, t': Table, c: Cache, c': Cache)
    requires CacheOk(t, c) && c'.entries == c.entries && c'.tlbGen == c.tlbGen && c.ptGen <= c'.ptGen
    requires forall k: nat :: k in t'.maps ==> t'.maps[k].clearGen <= c'.ptGen
    requires forall e, k :: e in c.entries && LeftOver(t, c, e, k) ==> LeftOver(t', c', e, k)
    requires forall e :: e in c.entries && Current(t, e) ==> EntryOk(t', c', e)
    ensures CacheOk(t', c')
  {
    forall k: nat | k in t'.maps ensures GenOk(t', c', k) {}
    forall e | e in c'.entries ensures EntryOk(t', c', e) {
      assert EntryOk(t, c, e);
      if !Current(t, e) {
        var k :| LeftOver(t, c, e, k);
        assert LeftOver(t', c', e, k);
      }
    }
  }

  lemma AllocCached(t: Table, c: Cache, n: nat)
    requires TableOk(t) && CacheOk(t, c) && n > 0 && VaAlloc(t.va, n).ok
    ensures CacheOk(t.(va := VaAlloc(t.va, n).va), c)
  {
    var t' := t.(va := VaAlloc(t.va, n).va);
    forall e | e in c.entries && Current(t, e) ensures EntryOk(t', c, e) {
      assert Backed(t, e.page);
      var k :| k in t.maps && t.maps[k].live && Covers(t.maps[k], e.page);
      assert MapOk(t, k);
      assert Current(t', e);
    }
    forall k: nat | k in t'.maps ensures t'.maps[k].clearGen <= c.ptGen { assert GenOk(t, c, k); }
    forall e, k | e in c.entries && LeftOver(t, c, e, k) ensures LeftOver(t', c, e, k) {}
    Carries(t, t', c, c);
  }

  lemma MapInCached(t: Table, c: Cache, k: nat, s: Span, frames: seq<Frame>)
    requires TableOk(t) && CacheOk(t, c) && k !in t.maps && Vacant(t, s) && |frames| == s.n
    ensures CacheOk(MapIn(t, k, s, frames), Changed(c))
  {
    var t', c' := MapIn(t, k, s, frames), Changed(c);
    forall e | e in c.entries && Current(t, e) ensures EntryOk(t', c', e) {
      VacantUncached(t, c, s, e);
      assert Current(t', e);
    }
    forall l: nat | l in t'.maps ensures t'.maps[l].clearGen <= c'.ptGen { if l != k { assert GenOk(t, c, l); } }
    forall e, l | e in c.entries && LeftOver(t, c, e, l) ensures LeftOver(t', c', e, l) {}
    Carries(t, t', c, c');
  }

  lemma ClearCached(t: Table, c: Cache, k: nat)
    requires TableOk(t) && CacheOk(t, c) && k in t.maps && t.maps[k].live
    ensures MapOk(t, k) && CacheOk(Clear(t, k, c.ptGen + 1), Changed(c))
  {
    assert MapOk(t, k);
    var t', c' := Clear(t, k, c.ptGen + 1), Changed(c);
    forall e | e in c.entries && Current(t, e) ensures EntryOk(t', c', e) {
      if Covers(t.maps[k], e.page) {
        assert LeftOver(t', c', e, k);
      } else {
        assert Current(t', e);
      }
    }
    forall l: nat | l in t'.maps ensures t'.maps[l].clearGen <= c'.ptGen { if l != k { assert GenOk(t, c, l); } }
    forall e, l | e in c.entries && LeftOver(t, c, e, l) ensures LeftOver(t', c', e, l) {}
    Carries(t, t', c, c');
  }

  /** Once the flush has caught up, dropping the range leaves no translation behind. */
  lemma DropCached(t: Table, c: Cache, k: nat)
    requires TableOk(t) && CacheOk(t, c) && k in t.maps && !t.maps[k].live && t.maps[k].clearGen <= c.tlbGen
    ensures CacheOk(Drop(t, k), c)
  {
    var t' := Drop(t, k);
    forall e | e in c.entries && Current(t, e) ensures EntryOk(t', c, e) { assert Current(t', e); }
    forall l: nat | l in t'.maps ensures t'.maps[l].clearGen <= c.ptGen { assert GenOk(t, c, l); }
    forall e, l | e in c.entries && LeftOver(t, c, e, l) ensures LeftOver(t', c, e, l) { assert l != k; }
    Carries(t, t', c, c);
  }

  /** Whatever the GPU can still reach belongs to a range that is live or in quarantine. */
  lemma ReachedIsHeld(t: Table, c: Cache, e: Entry)
    requires TableOk(t) && CacheOk(t, c) && e in c.entries
    ensures exists k :: k in t.maps && Covers(t.maps[k], e.page) && |t.maps[k].frames| == t.maps[k].span.n &&
                        t.maps[k].frames[e.page - t.maps[k].span.lo] == e.frame
  {
    assert EntryOk(t, c, e);
    if Current(t, e) {
      assert Backed(t, e.page);
      var k :| k in t.maps && t.maps[k].live && Covers(t.maps[k], e.page);
      assert MapOk(t, k);
    } else {
      var k :| LeftOver(t, c, e, k);
    }
  }
}
