/**
 * What a reader's reads add up to. A read moves its reader's offset after it has let go
 * of the lock, so this depends on what else happens to the reader in between.
 */
module SampleReads {
  import opened RingPlaces
  import opened SampleRing

  /** The reads since the opening returned one stretch of the stream, up to the offset. */
  ghost predicate Joined(r: Reader, written: nat) {
    r.open ==>
      && r.base <= r.offs <= written && |r.taken| == r.offs - r.base
      && forall i :: 0 <= i < |r.taken| ==> r.taken[i] == r.base + i
  }

  ghost predicate JoinedAt(s: State, k: nat)
    requires k in s.readers
  {
    Joined(s.readers[k], |s.c.stream|)
  }

  ghost predicate AllJoined(s: State) {
    forall k: nat {:trigger JoinedAt(s, k)} :: k in s.readers ==> JoinedAt(s, k)
  }

  /** So what they returned is the stream from where the reader was opened to its offset. */
  lemma JoinedBytes(c: Ctx, r: Reader)
    requires ReaderOk(c, r) && Joined(r, |c.stream|) && r.open
    ensures r.got == c.stream[r.base..r.offs]
  {
    forall i | 0 <= i < |r.got| ensures r.got[i] == c.stream[r.base..r.offs][i] {
      assert r.taken[i] == r.base + i;
    }
  }

  // ---- the store that ends a read ----

  /**
   * The store does no harm: the reader is closed; or it is still as opened when the read
   * copied, and its offset is the one the read loaded and (if it has bytes) copied from;
   * or it has been opened anew and its offset happens to be the one stored.
   */
  predicate Harmless(r: Reader, p: Phase)
    requires p.Loaded?
  {
    || !r.open
    || (p.epoch == r.epoch && p.seen == r.offs && (p.bytes == [] || p.at == r.offs))
    || (p.epoch != r.epoch && p.seen + |p.bytes| == r.offs)
  }

  lemma StoredIff(c: Ctx, r: Reader, p: Phase)
    requires Joined(r, |c.stream|) && p.Loaded? && CallOk(c, r, p)
    ensures Joined(Stored(r, p), |c.stream|) <==> Harmless(r, p)
  {
    var r' := Stored(r, p);
    if r.open && p.epoch == r.epoch {
      if p.bytes != [] { assert r'.taken[|r.taken|] == p.at; }
    }
  }

  /** A step that stores an offset, harmlessly; or any other step. */
  ghost predicate Orderly(s: State, x: Step) {
    x.StoreOffs? ==>
      x.t in s.calls && s.calls[x.t].phase.Loaded? && s.calls[x.t].k in s.readers
      && Harmless(s.readers[s.calls[x.t].k], s.calls[x.t].phase)
  }

  /** From a state in which every reader is joined, the next is such a state exactly if the step is orderly. */
  lemma StepJoinedIff(s: State, x: Step)
    requires Inv(s) && AllJoined(s) && Enabled(s, x)
    ensures AllJoined(Next(s, x)) <==> Orderly(s, x)
  {
    var s' := Next(s, x);
    if x.StoreOffs? {
      var k, p := s.calls[x.t].k, s.calls[x.t].phase;
      assert Going(s, x.t) && JoinedAt(s, k);
      StoredIff(s.c, s.readers[k], p);
      forall l: nat | l in s'.readers && l != k ensures JoinedAt(s', l) { assert JoinedAt(s, l); }
      assert JoinedAt(s', k) <==> Orderly(s, x);
    } else {
      StepKeeps(s, x);
      forall l: nat | l in s'.readers ensures JoinedAt(s', l) {
        assert JoinedAt(s, l);
        OtherStep(s, x, l);
      }
    }
  }

  lemma OtherStep(s: State, x: Step, l: nat)
    requires Inv(s) && Enabled(s, x) && !x.StoreOffs? && l in s.readers && JoinedAt(s, l)
    ensures l in Next(s, x).readers && JoinedAt(Next(s, x), l)
  {
  }

  /**
   * In all states of a run up to the `i`th every open reader's reads are joined, if and
   * only if no step before it stored an offset harmfully.
   */
  lemma {:induction false} JoinedIff(ss: seq<State>, xs: seq<Step>, exp: nat, i: nat)
    requires IsRun(ss, xs, exp) && i < |ss|
    ensures (forall j :: 0 <= j <= i ==> AllJoined(ss[j])) <==> (forall j :: 0 <= j < i ==> Orderly(ss[j], xs[j]))
    decreases i
  {
    if i == 0 {
      forall k: nat | k in ss[0].readers ensures JoinedAt(ss[0], k) {}
      assert AllJoined(ss[0]);
    } else {
      JoinedIff(ss, xs, exp, i - 1);
      RunInv(ss, xs, exp, i - 1);
      assert Leads(ss[i - 1], xs[i - 1], ss[i]);
      if AllJoined(ss[i - 1]) { StepJoinedIff(ss[i - 1], xs[i - 1]); }
    }
  }

  // ---- a rule for callers ----

  /** A call past the lock that has yet to store the offset. */
  predicate Late(s: State, t: nat, k: nat) {
    t in s.calls && s.calls[t].k == k && (s.calls[t].phase.Copied? || s.calls[t].phase.Loaded?)
  }

  ghost predicate Quiet(s: State, k: nat) {
    forall t: nat {:trigger Late(s, t, k)} :: !Late(s, t, k)
  }

  /** The reader that a step opens anew or copies from has no read that is yet to store its offset. */
  ghost predicate Exclusive(s: State, x: Step) {
    match x
    case OpenReader(k) => Quiet(s, k)
    case ReadNow(_, k, _) => Quiet(s, k)
    case ReadBlocking(_, k, _) => Quiet(s, k)
    case Resume(t) => t in s.calls ==> Quiet(s, s.calls[t].k)
    case _ => true
  }

  /** A late call found the reader as it is, or the reader has been closed. */
  predicate Undisturbed(r: Reader, p: Phase)
    requires p.Copied? || p.Loaded?
  {
    r.open ==> p.epoch == r.epoch && p.at == r.offs && (p.Loaded? ==> p.seen == r.offs)
  }

  ghost predicate LateOk(s: State, t: nat, k: nat) {
    Late(s, t, k) ==> k in s.readers && Undisturbed(s.readers[k], s.calls[t].phase)
  }

  ghost predicate OneLate(s: State, t: nat, u: nat, k: nat) {
    Late(s, t, k) && Late(s, u, k) ==> t == u
  }

  ghost predicate Alone(s: State) {
    && (forall t: nat, k: nat {:trigger LateOk(s, t, k)} :: LateOk(s, t, k))
    && (forall t: nat, u: nat, k: nat {:trigger OneLate(s, t, u, k)} :: OneLate(s, t, u, k))
  }

  lemma AloneLate(s: State, x: Step, t: nat, k: nat)
    requires Alone(s) && |s.c.buf| > 0 && Enabled(s, x) && Exclusive(s, x)
    ensures LateOk(Next(s, x), t, k)
  {
    assert LateOk(s, t, k);
    match x
    case OpenReader(l) => if l == k { assert !Late(s, t, k); }
    case StoreOffs(u) =>
      assert OneLate(s, u, t, s.calls[u].k);
    case _ =>
  }

  lemma AloneOne(s: State, x: Step, t: nat, u: nat, k: nat)
    requires Alone(s) && |s.c.buf| > 0 && Enabled(s, x) && Exclusive(s, x)
    ensures OneLate(Next(s, x), t, u, k)
  {
    assert OneLate(s, t, u, k);
    match x
    case ReadNow(v, l, size) => if l == k { assert !Late(s, t, k) && !Late(s, u, k); }
    case ReadBlocking(v, l, size) => if l == k { assert !Late(s, t, k) && !Late(s, u, k); }
    case Resume(v) => if s.calls[v].k == k { assert !Late(s, t, k) && !Late(s, u, k); }
    case _ =>
  }

  lemma AloneKeeps(s: State, x: Step)
    requires Alone(s) && |s.c.buf| > 0 && Enabled(s, x) && Exclusive(s, x)
    ensures Alone(Next(s, x)) && Orderly(s, x)
  {
    forall t: nat, k: nat ensures LateOk(Next(s, x), t, k) { AloneLate(s, x, t, k); }
    forall t: nat, u: nat, k: nat ensures OneLate(Next(s, x), t, u, k) { AloneOne(s, x, t, u, k); }
    if x.StoreOffs? { assert LateOk(s, x.t, s.calls[x.t].k); }
  }

  lemma {:induction false} ExclusiveAlone(ss: seq<State>, xs: seq<Step>, exp: nat, i: nat)
    requires IsRun(ss, xs, exp) && i < |ss| && forall j :: 0 <= j < i ==> Exclusive(ss[j], xs[j])
    ensures Alone(ss[i]) && forall j :: 0 <= j < i ==> Orderly(ss[j], xs[j])
    decreases i
  {
    if i > 0 {
      ExclusiveAlone(ss, xs, exp, i - 1);
      assert Leads(ss[i - 1], xs[i - 1], ss[i]);
      AloneKeeps(ss[i - 1], xs[i - 1]);
    }
  }

  /**
   * If no reader is opened anew, or read again, while a read of it has yet to store the
   * offset, then the successful reads of an open reader join up to one stretch of the
   * stream, from where it was opened.
   */
  lemma ReadsJoin(ss: seq<State>, xs: seq<Step>, exp: nat, i: nat, k: nat)
    requires IsRun(ss, xs, exp) && i < |ss| && k in ss[i].readers && ss[i].readers[k].open
    requires forall j :: 0 <= j < i ==> Exclusive(ss[j], xs[j])
    ensures var r := ss[i].readers[k];
            r.base <= r.offs <= |ss[i].c.stream| && r.got == ss[i].c.stream[r.base..r.offs]
  {
    RunInv(ss, xs, exp, i);
    ExclusiveAlone(ss, xs, exp, i);
    JoinedIff(ss, xs, exp, i);
    assert JoinedAt(ss[i], k) && Sound(ss[i], k);
    JoinedBytes(ss[i].c, ss[i].readers[k]);
  }

  // ---- two runs that break the rule ----

  const EMPTY := Ctx(1, [0, 0, 0, 0], [], 0)
  const ONE := Ctx(1, [7, 0, 0, 0], [7], NEVER)

  /** One reader at offset 0, opened once, and one byte in the ring. */
  function OneByte(calls: map<nat, Call>): State {
    State(ONE, map[0 := Reader(0, true, 1, 0, [], [])], calls)
  }

  lemma OneByteReached(ss: seq<State>, xs: seq<Step>)
    requires |ss| == 3 && ss[0] == State(EMPTY, map[0 := Reader(0, false, 0, 0, [], [])], map[])
    requires ss[1] == State(EMPTY, map[0 := Reader(0, true, 1, 0, [], [])], map[]) && ss[2] == OneByte(map[])
    requires xs == [OpenReader(0), Transaction([7])]
    ensures IsRun(ss, xs, 2)
  {
    assert Power(2) == 4;
    assert Open(ss[0], 0) == ss[1];
    assert [7][1..] == [] && Put(PutByte(EMPTY, 7), []) == PutByte(EMPTY, 7);
    assert Put(EMPTY, [7]) == Ctx(1, [7, 0, 0, 0], [7], 0);
    assert WakeAll(map[]) == map[];
    assert Write(ss[1], [7]) == ss[2];
  }

  /** A blocking read of one byte copies it. */
  lemma ByteCopied(calls: map<nat, Call>, t: nat)
    requires t !in calls
    ensures Leads(OneByte(calls), ReadBlocking(t, 0, 1), OneByte(calls[t := Call(0, Copied(1, 0, [7]))]))
  {
    assert Slice(ONE.buf, 0, 1)[0] == ONE.buf[Place(0, 4)] == 7;
    assert Slice(ONE.buf, 0, 1) == [7];
  }

  lemma ExtendRun(ss: seq<State>, xs: seq<Step>, exp: nat, x: Step, t: State)
    requires IsRun(ss, xs, exp) && Leads(ss[|xs|], x, t)
    ensures IsRun(ss + [t], xs + [x], exp)
  {
  }

  lemma StartRun() returns (ss: seq<State>, xs: seq<Step>)
    ensures IsRun(ss, xs, 2) && |xs| == 2 && ss[2] == OneByte(map[])
  {
    var closed := Reader(0, false, 0, 0, [], []);
    ss := [State(EMPTY, map[0 := closed], map[]), State(EMPTY, map[0 := Reader(0, true, 1, 0, [], [])], map[]), OneByte(map[])];
    xs := [OpenReader(0), Transaction([7])];
    OneByteReached(ss, xs);
  }

  /**
   * A read copies a byte and lets go of the lock; its reader is closed and opened for
   * somebody else; then the read stores its offset. The new owner's first read fails,
   * although nothing was missed.
   */
  lemma LateStoreBreaks() returns (ss: seq<State>, xs: seq<Step>, s: State)
    ensures IsRun(ss, xs, 2) && |xs| == 7 && s == ss[7]
    ensures xs[2..] == [ReadBlocking(1, 0, 1), CloseReader(0), OpenReader(0), LoadOffs(1), StoreOffs(1)]
    ensures 0 in s.readers && s.readers[0].open && s.readers[0].taken == [] && s.readers[0].offs > |s.c.stream|
    ensures !AllJoined(s) && |s.c.buf| > 0 && forall size :: Answer(s.c, s.readers[0], size).Pipe?
  {
    var ss0, xs0 := StartRun();
    var held, loaded := map[1 := Call(0, Copied(1, 0, [7]))], map[1 := Call(0, Loaded(1, 0, [7], 1))];
    ByteCopied(map[], 1);
    assert map[][1 := Call(0, Copied(1, 0, [7]))] == held;
    var s3 := OneByte(held);
    ExtendRun(ss0, xs0, 2, ReadBlocking(1, 0, 1), s3);
    var s4 := State(ONE, map[0 := Reader(0, false, 1, 0, [], [])], held);
    assert WakeAll(held) == held;
    assert Leads(s3, CloseReader(0), s4);
    ExtendRun(ss0 + [s3], xs0 + [ReadBlocking(1, 0, 1)], 2, CloseReader(0), s4);
    var s5 := State(ONE, map[0 := Reader(1, true, 2, 1, [], [])], held);
    assert Leads(s4, OpenReader(0), s5);
    ExtendRun(ss0 + [s3] + [s4], xs0 + [ReadBlocking(1, 0, 1)] + [CloseReader(0)], 2, OpenReader(0), s5);
    ss, xs := ss0 + [s3] + [s4] + [s5], xs0 + [ReadBlocking(1, 0, 1)] + [CloseReader(0)] + [OpenReader(0)];
    var s6 := s5.(calls := loaded);
    assert Leads(s5, LoadOffs(1), s6);
    ExtendRun(ss, xs, 2, LoadOffs(1), s6);
    s := State(ONE, map[0 := Reader(2, true, 2, 1, [], [])], map[]);
    assert Leads(s6, StoreOffs(1), s);
    ExtendRun(ss + [s6], xs + [LoadOffs(1)], 2, StoreOffs(1), s);
    ss, xs := ss + [s6] + [s], xs + [LoadOffs(1)] + [StoreOffs(1)];
    assert !JoinedAt(s, 0);
  }

  /** Two reads of one reader at once: both return the same byte, and the offset passes the end. */
  lemma SecondReadRepeats() returns (ss: seq<State>, xs: seq<Step>, s: State)
    ensures IsRun(ss, xs, 2) && |xs| == 8 && s == ss[8]
    ensures xs[2..] == [ReadBlocking(1, 0, 1), ReadBlocking(2, 0, 1)] + [LoadOffs(1), StoreOffs(1), LoadOffs(2), StoreOffs(2)]
    ensures 0 in s.readers && s.readers[0].open && s.readers[0].got == [7, 7] && s.c.stream == [7] && s.readers[0].offs == 2
    ensures !AllJoined(s)
  {
    var ss0, xs0 := StartRun();
    var one, two := Call(0, Copied(1, 0, [7])), Call(0, Copied(1, 0, [7]));
    ByteCopied(map[], 1);
    ByteCopied(map[1 := one], 2);
    var s3, s4 := OneByte(map[1 := one]), OneByte(map[1 := one, 2 := two]);
    assert map[][1 := one] == map[1 := one] && map[1 := one][2 := two] == map[1 := one, 2 := two];
    ExtendRun(ss0, xs0, 2, ReadBlocking(1, 0, 1), s3);
    ExtendRun(ss0 + [s3], xs0 + [ReadBlocking(1, 0, 1)], 2, ReadBlocking(2, 0, 1), s4);
    ss, xs := ss0 + [s3] + [s4], xs0 + [ReadBlocking(1, 0, 1)] + [ReadBlocking(2, 0, 1)];
    var s5, s6, s7, s8 := RepeatStates(s4);
    ExtendRun(ss, xs, 2, LoadOffs(1), s5);
    ExtendRun(ss + [s5], xs + [LoadOffs(1)], 2, StoreOffs(1), s6);
    ss, xs := ss + [s5] + [s6], xs + [LoadOffs(1)] + [StoreOffs(1)];
    ExtendRun(ss, xs, 2, LoadOffs(2), s7);
    ExtendRun(ss + [s7], xs + [LoadOffs(2)], 2, StoreOffs(2), s8);
    ss, xs, s := ss + [s7] + [s8], xs + [LoadOffs(2)] + [StoreOffs(2)], s8;
    assert !JoinedAt(s, 0);
  }

  lemma RepeatStates(s4: State) returns (s5: State, s6: State, s7: State, s8: State)
    requires s4 == OneByte(map[1 := Call(0, Copied(1, 0, [7])), 2 := Call(0, Copied(1, 0, [7]))])
    ensures Leads(s4, LoadOffs(1), s5) && Leads(s5, StoreOffs(1), s6) && Leads(s6, LoadOffs(2), s7)
    ensures Leads(s7, StoreOffs(2), s8) && s8.c == ONE
    ensures s8.readers.Keys == {0} && s8.readers[0] == Reader(2, true, 1, 0, [0, 0], [7, 7])
  {
    s5 := Next(s4, LoadOffs(1));
    s6 := Next(s5, StoreOffs(1));
    s7 := Next(s6, LoadOffs(2));
    s8 := Next(s7, StoreOffs(2));
    assert Span(0, 1) == [0];
    assert s6.readers[0] == Reader(1, true, 1, 0, [0], [7]);
  }
}
