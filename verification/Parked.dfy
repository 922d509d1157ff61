/**
 * Requests the server has received and not answered: a doubly linked list of waits,
 * each of which leaves it exactly once, onto the list of the one thread that answers it.
 */
module Parked {
  import opened SchedState

  const WAIT_MAX := 8
  const WAIT_MAX_MS := 2000
  const EINVAL := -22
  const EPIPE := -32
  const ETIMEDOUT := -110

  /** What a request waits for. */
  datatype Cond =
    | OnFence(fence: Fence)
    | OnBo(fences: seq<Fence>)
    | OnSync(slot: nat, handles: seq<nat>, all: bool, forSubmit: bool)

  // ---- when a wait is over ----

  datatype Verdict = NotYet | Over(err: int)

  /** A buffer's fences: one that was never set does not count. */
  predicate FencesDone(s: State, fences: seq<Fence>) {
    forall i :: 0 <= i < |fences| && fences[i].seqno != 0 ==> Signaled(s.page, fences[i])
  }

  predicate SyncDone(s: State, k: SyncKey) {
    k in s.syncs && (s.syncs[k].Done? || (s.syncs[k].Attached? && Signaled(s.page, s.syncs[k].fence)))
  }

  /** How many of the first `n` sync objects are signalled. */
  function SyncsDone(s: State, c: Cond, n: nat): nat
    requires c.OnSync? && n <= |c.handles|
  {
    if n == 0 then 0
    else SyncsDone(s, c, n - 1) + (if SyncDone(s, SyncKey(c.slot, c.handles[n - 1])) then 1 else 0)
  }

  /** A sync object that is gone, or that is empty and may not be waited for. */
  predicate BadSync(s: State, c: Cond, i: nat)
    requires c.OnSync? && i < |c.handles|
  {
    var k := SyncKey(c.slot, c.handles[i]);
    k !in s.syncs || (s.syncs[k].Unset? && !c.forSubmit)
  }

  function Eval(s: State, c: Cond): Verdict {
    match c
    case OnFence(f) => if Signaled(s.page, f) then Over(0) else NotYet
    case OnBo(fences) => if FencesDone(s, fences) then Over(0) else NotYet
    case OnSync(_, handles, all, _) =>
      if exists i: nat :: i < |handles| && BadSync(s, c, i) then Over(EINVAL)
      else if (all && SyncsDone(s, c, |handles|) == |handles|) || (!all && SyncsDone(s, c, |handles|) > 0) then Over(0)
      else NotYet
  }

  method EvalSync(s: State, c: Cond) returns (v: Verdict)
    requires c.OnSync?
    ensures v == Eval(s, c)
  {
    var nsig := 0;
    for i := 0 to |c.handles|
      invariant nsig == SyncsDone(s, c, i)
      invariant forall j: nat :: j < i ==> !BadSync(s, c, j)
    {
      var k := SyncKey(c.slot, c.handles[i]);
      if k !in s.syncs || (s.syncs[k].Unset? && !c.forSubmit) {
        assert BadSync(s, c, i);
        return Over(EINVAL);
      }
      if SyncDone(s, k) { nsig := nsig + 1; }
    }
    v := if (c.all && nsig == |c.handles|) || (!c.all && nsig > 0) then Over(0) else NotYet;
  }

  /** A parked request. */
  class Wait {
    const client: nat
    const cond: Cond
    const deadline: nat
    var next: Wait?
    var prev: Wait?

    constructor (client: nat, cond: Cond, deadline: nat)
      ensures this.client == client && this.cond == cond && this.deadline == deadline
      ensures next == null && prev == null
    {
      this.client, this.cond, this.deadline := client, cond, deadline;
      next, prev := null, null;
    }
  }

  /** Why waits are claimed: a scan at a time, a client gone, or the server's end. */
  datatype Reason = Scanned(s: State, now: nat) | Gone(client: nat) | Ending(err: int)

  function Claim(r: Reason, w: Wait): Verdict {
    match r
    case Scanned(s, now) =>
      if Eval(s, w.cond).Over? then Eval(s, w.cond) else if now >= w.deadline then Over(ETIMEDOUT) else NotYet
    case Gone(client) => if w.client == client then Over(EPIPE) else NotYet
    case Ending(err) => Over(err)
  }

  datatype Answer = Answer(wait: Wait, err: int)

  /** Those that stay parked, in order. */
  function Staying(r: Reason, list: seq<Wait>): seq<Wait> {
    if list == [] then []
    else
      var n := |list| - 1;
      Staying(r, list[..n]) + (if Claim(r, list[n]).NotYet? then [list[n]] else [])
  }

  /** Those that are answered, the last claimed first. */
  function Leaving(r: Reason, list: seq<Wait>): seq<Answer> {
    if list == [] then []
    else
      var n := |list| - 1;
      (if Claim(r, list[n]).Over? then [Answer(list[n], Claim(r, list[n]).err)] else []) + Leaving(r, list[..n])
  }

  function WaitsOf(answers: seq<Answer>): (r: seq<Wait>)
    ensures |r| == |answers| && forall i :: 0 <= i < |r| ==> r[i] == answers[i].wait
  {
    seq(|answers|, i requires 0 <= i < |answers| => answers[i].wait)
  }

  lemma {:induction false} StayOrLeave(r: Reason, list: seq<Wait>)
    ensures multiset(Staying(r, list)) + multiset(WaitsOf(Leaving(r, list))) == multiset(list)
  {
    if list != [] {
      var n := |list| - 1;
      StayOrLeave(r, list[..n]);
      LastOne(r, list[..n], list[n]);
      assert list == list[..n] + [list[n]];
    }
  }

  lemma LastOne(r: Reason, list: seq<Wait>, w: Wait)
    ensures multiset(Staying(r, list + [w])) + multiset(WaitsOf(Leaving(r, list + [w]))) ==
            multiset(Staying(r, list)) + multiset(WaitsOf(Leaving(r, list))) + multiset{w}
  {
    assert (list + [w])[..|list|] == list;
    match Claim(r, w)
    case NotYet =>
      assert [] + Leaving(r, list) == Leaving(r, list);
    case Over(err) =>
      var a := Answer(w, err);
      assert WaitsOf([a] + Leaving(r, list)) == [w] + WaitsOf(Leaving(r, list));
      assert Staying(r, list) + [] == Staying(r, list);
  }

  lemma {:induction false} RightlyPlaced(r: Reason, list: seq<Wait>)
    ensures forall w :: w in Staying(r, list) ==> Claim(r, w).NotYet?
    ensures forall a :: a in Leaving(r, list) ==> Claim(r, a.wait) == Over(a.err)
  {
    if list != [] { RightlyPlaced(r, list[..|list| - 1]); }
  }

  /** Every parked request either stays or is answered, once; those that stay have nothing to be told. */
  lemma ClaimedOnce(r: Reason, list: seq<Wait>)
    ensures multiset(Staying(r, list)) + multiset(WaitsOf(Leaving(r, list))) == multiset(list)
    ensures forall w :: w in Staying(r, list) ==> Claim(r, w).NotYet?
    ensures forall a :: a in Leaving(r, list) ==> Claim(r, a.wait) == Over(a.err)
  {
    StayOrLeave(r, list);
    RightlyPlaced(r, list);
  }

  /** A scan leaves no request past its deadline, and none whose condition is met or has failed. */
  lemma ScanLeaves(s: State, now: nat, list: seq<Wait>, w: Wait)
    requires w in Staying(Scanned(s, now), list)
    ensures now < w.deadline && Eval(s, w.cond).NotYet?
  {
    RightlyPlaced(Scanned(s, now), list);
  }

  // ---- over a whole run ----

  /** A request is parked, or the list is swept for a reason. */
  datatype Event = Arrives(wait: Wait) | IsSwept(reason: Reason)

  /** The waits parked so far, those still parked, and those answered. */
  datatype Record = Record(all: seq<Wait>, list: seq<Wait>, answers: seq<Answer>)

  function After(events: seq<Event>): Record {
    if events == [] then Record([], [], [])
    else
      var n := |events| - 1;
      var p := After(events[..n]);
      match events[n]
      case Arrives(w) => Record([w] + p.all, [w] + p.list, p.answers)
      case IsSwept(r) => Record(p.all, Staying(r, p.list), Leaving(r, p.list) + p.answers)
  }

  lemma {:induction false} NoneLost(events: seq<Event>)
    ensures var p := After(events); multiset(p.list) + multiset(WaitsOf(p.answers)) == multiset(p.all)
  {
    if events != [] {
      var n := |events| - 1;
      NoneLost(events[..n]);
      match events[n]
      case Arrives(w) =>
      case IsSwept(r) =>
        var p := After(events[..n]);
        StayOrLeave(r, p.list);
        assert WaitsOf(Leaving(r, p.list) + p.answers) == WaitsOf(Leaving(r, p.list)) + WaitsOf(p.answers);
    }
  }

  /**
   * Whatever the arrivals, scans and departures: a request parked once is still parked and
   * not answered, or answered exactly once and no longer parked.
   */
  lemma AnsweredOnce(events: seq<Event>, w: Wait)
    requires multiset(After(events).all)[w] == 1
    ensures multiset(After(events).list)[w] + multiset(WaitsOf(After(events).answers))[w] == 1
  {
    NoneLost(events);
  }

  function CountOf(list: seq<Wait>, client: nat): nat {
    if list == [] then 0 else CountOf(list[1..], client) + (if list[0].client == client then 1 else 0)
  }

  lemma {:induction false} CountWithout(list: seq<Wait>, i: nat, client: nat)
    requires i < |list|
    ensures CountOf(Without(list, i), client) + (if list[i].client == client then 1 else 0) == CountOf(list, client)
  {
    if i == 0 {
      assert Without(list, 0) == list[1..];
    } else {
      CountWithout(list[1..], i - 1, client);
      assert Without(list, i)[1..] == Without(list[1..], i - 1) && Without(list, i)[0] == list[0];
    }
  }

  function Without(list: seq<Wait>, i: nat): seq<Wait>
    requires i < |list|
  {
    list[..i] + list[i + 1..]
  }

  function At(list: seq<Wait>, i: int): Wait? {
    if 0 <= i < |list| then list[i] else null
  }

  class WaitList {
    var head: Wait?
    var nparked: nat
    var counts: map<nat, nat>
    /** The waits, from the head on. */
    ghost var list: seq<Wait>
    /** Every wait that was ever parked here. */
    ghost var nodes: set<Wait>

    ghost predicate NodeOk(i: nat)
      requires i < |list|
      reads this`list, this`nodes, nodes
    {
      list[i] in nodes && list[i].next == At(list, i + 1) && list[i].prev == At(list, i - 1)
    }

    ghost predicate Valid()
      reads this`list, this`head, this`nparked, this`nodes, nodes
    {
      && (forall i, k :: 0 <= i < k < |list| ==> list[i] != list[k])
      && (forall i: nat {:trigger NodeOk(i)} :: i < |list| ==> NodeOk(i))
      && head == At(list, 0) && nparked == |list|
    }

    /** Each client's count is the number of its waits that are parked. */
    ghost predicate Counted()
      reads this
    {
      forall c: nat :: Num(counts, c) == CountOf(list, c)
    }

    constructor ()
      ensures Valid() && Counted() && list == []
    {
      head, nparked, counts, list, nodes := null, 0, map[], [], {};
    }

    /** A new request goes to the front. */
    method Push(w: Wait)
      requires Valid() && Counted() && w !in nodes && w.prev == null && w.next == null
      modifies this, w, nodes
      ensures Valid() && Counted() && list == [w] + old(list) && nodes == old(nodes) + {w}
    {
      forall i: nat | i < |list| ensures list[i] != w { assert NodeOk(i); }
      if head != null { assert NodeOk(0); }
      w.next := head;
      if head != null { head.prev := w; }
      head := w;
      nparked := nparked + 1;
      counts := counts[w.client := Num(counts, w.client) + 1];
      list := [w] + list;
      nodes := nodes + {w};
      forall i: nat | i < |list| ensures NodeOk(i) {
        if i > 0 { assert list[i] == old(list)[i - 1] && old(NodeOk(i - 1)); }
      }
      assert list[1..] == old(list);
    }

    /** A request leaves the list, wherever in it it is. */
    method Unlink(w: Wait, ghost i: nat)
      requires Valid() && Counted() && i < |list| && list[i] == w
      modifies this, nodes
      ensures Valid() && Counted() && list == Without(old(list), i)
      ensures w.next == null && w.prev == null && nodes == old(nodes)
    {
      forall c: nat ensures CountOf(Without(list, i), c) + (if w.client == c then 1 else 0) == CountOf(list, c) {
        CountWithout(list, i, c);
      }
      Detach(w, i);
      var n := Num(counts, w.client);
      if n > 0 { counts := counts[w.client := n - 1]; }
    }

    method Detach(w: Wait, ghost i: nat)
      requires Valid() && i < |list| && list[i] == w
      modifies this`head, this`nparked, this`list, nodes
      ensures Valid() && list == Without(old(list), i)
      ensures w.next == null && w.prev == null && nodes == old(nodes)
    {
      assert NodeOk(i);
      if i > 0 { assert NodeOk(i - 1); }
      if i + 1 < |list| { assert NodeOk(i + 1); }
      if w.prev != null { w.prev.next := w.next; } else { head := w.next; }
      if w.next != null { w.next.prev := w.prev; }
      w.next := null;
      w.prev := null;
      nparked := nparked - 1;
      list := Without(list, i);
      forall k: nat | k < |list| ensures NodeOk(k) {
        var o := if k < i then k else k + 1;
        assert list[k] == old(list)[o] && old(NodeOk(o));
      }
    }

    /**
     * A request that cannot be answered at once is parked until its deadline; a wait of no
     * time is refused, and a longer one than allowed is shortened.
     */
    method Park(s: State, client: nat, cond: Cond, timeoutMs: nat, now: nat) returns (v: Verdict)
      requires Valid() && Counted()
      modifies this, nodes
      ensures Valid() && Counted()
      ensures v == (if Size(cond) > WAIT_MAX then Over(EINVAL) else if Eval(s, cond).Over? then Eval(s, cond)
                    else if timeoutMs == 0 then Over(ETIMEDOUT) else NotYet)
      ensures v.Over? ==> list == old(list)
      ensures v.NotYet? ==>
                |list| == |old(list)| + 1 && list[1..] == old(list) && fresh(list[0]) &&
                list[0].client == client && list[0].cond == cond &&
                now < list[0].deadline <= now + WAIT_MAX_MS * 1000 && nodes == old(nodes) + {list[0]}
    {
      if Size(cond) > WAIT_MAX { return Over(EINVAL); }
      v := EvalNow(s, cond);
      if v.Over? { return; }
      if timeoutMs == 0 { return Over(ETIMEDOUT); }
      var ms := if timeoutMs > WAIT_MAX_MS then WAIT_MAX_MS else timeoutMs;
      var w := new Wait(client, cond, now + ms * 1000);
      Push(w);
    }

    /** Claims every wait for which there is a reason, and leaves the others as they are. */
    method Sweep(r: Reason) returns (answers: seq<Answer>)
      requires Valid() && Counted()
      modifies this, nodes
      ensures Valid() && Counted()
      ensures list == Staying(r, old(list)) && answers == Leaving(r, old(list)) && nodes == old(nodes)
    {
      answers := [];
      ghost var was := old(list);
      ghost var n, i := 0, 0;
      var w := head;
      while w != null
        invariant Valid() && Counted() && w == At(list, i) && nodes == old(nodes)
        invariant Swept(r, was, n, list, i) && answers == Leaving(r, was[..n])
        decreases |was| - n
      {
        SweptStep(r, was, n, list, i);
        var next, v := ClaimAt(r, w, i);
        if v.Over? { answers := [Answer(w, v.err)] + answers; } else { i := i + 1; }
        n := n + 1;
        w := next;
      }
      assert was[..n] == was;
    }

    /** Looks at one wait, and claims it if there is a reason. */
    method ClaimAt(r: Reason, w: Wait, ghost i: nat) returns (next: Wait?, v: Verdict)
      requires Valid() && Counted() && i < |list| && list[i] == w
      modifies this, nodes
      ensures Valid() && Counted() && v == Claim(r, w) && nodes == old(nodes)
      ensures v.Over? ==> list == Without(old(list), i) && next == At(list, i)
      ensures v.NotYet? ==> list == old(list) && next == At(list, i + 1)
    {
      assert NodeOk(i);
      next := w.next;
      v := Claimed(r, w);
      if v.Over? { Unlink(w, i); }
    }
  }

  /** The first `n` waits of the list have been looked at; those that stay are its first `i` now. */
  ghost predicate Swept(r: Reason, was: seq<Wait>, n: nat, list: seq<Wait>, i: nat) {
    n <= |was| && list == Staying(r, was[..n]) + was[n..] && i == |Staying(r, was[..n])|
  }

  lemma SweptStep(r: Reason, was: seq<Wait>, n: nat, list: seq<Wait>, i: nat)
    requires Swept(r, was, n, list, i) && i < |list|
    ensures n < |was| && list[i] == was[n] && forall x :: x in list ==> x in was
    ensures Claim(r, was[n]).NotYet? ==> Swept(r, was, n + 1, list, i + 1)
    ensures Claim(r, was[n]).Over? ==> Swept(r, was, n + 1, Without(list, i), i)
    ensures Leaving(r, was[..n + 1]) ==
            (if Claim(r, was[n]).Over? then [Answer(was[n], Claim(r, was[n]).err)] else []) + Leaving(r, was[..n])
  {
    StayingKnown(r, was[..n]);
    assert was[..n + 1][..n] == was[..n] && was[n..] == [was[n]] + was[n + 1..];
  }

  lemma {:induction false} StayingKnown(r: Reason, list: seq<Wait>)
    ensures forall x :: x in Staying(r, list) ==> x in list
  {
    if list != [] { StayingKnown(r, list[..|list| - 1]); }
  }

  function Size(c: Cond): nat {
    match c
    case OnFence(_) => 1
    case OnBo(fences) => |fences|
    case OnSync(_, handles, _, _) => |handles|
  }

  method EvalNow(s: State, c: Cond) returns (v: Verdict)
    ensures v == Eval(s, c)
  {
    match c
    case OnFence(f) => v := if Signaled(s.page, f) then Over(0) else NotYet;
    case OnBo(fences) =>
      for i := 0 to |fences|
        invariant forall j :: 0 <= j < i && fences[j].seqno != 0 ==> Signaled(s.page, fences[j])
      {
        if fences[i].seqno != 0 && !Signaled(s.page, fences[i]) { return NotYet; }
      }
      v := Over(0);
    case OnSync(_, _, _, _) => v := EvalSync(s, c);
  }

  method Claimed(r: Reason, w: Wait) returns (v: Verdict)
    ensures v == Claim(r, w)
  {
    match r
    case Scanned(s, now) =>
      v := EvalNow(s, w.cond);
      if v.NotYet? && now >= w.deadline { v := Over(ETIMEDOUT); }
    case Gone(client) => v := if w.client == client then Over(EPIPE) else NotYet;
    case Ending(err) => v := Over(err);
  }
}
