/**
 * The ADC's sample ring: one writer, many readers that each follow the byte stream from
 * where they were opened, and a threshold that says when a blocked reader is to be woken.
 */
module SampleRing {
  import opened RingPlaces

  const NEVER := 0xffff_ffff_ffff_ffff

  /** `stream` is every byte written so far; the buffer keeps the last of them. */
  datatype Ctx = Ctx(sampleSize: nat, buf: seq<nat>, stream: seq<nat>, nextWakeup: nat)

  /**
   * A reader. The last four fields are history: how often it has been opened, at which
   * offset the last time, and of the bytes that its reads have returned since then, where
   * in the stream they were taken from and what they were.
   */
  datatype Reader = Reader(offs: nat, open: bool, epoch: nat, base: nat, taken: seq<nat>, got: seq<nat>)

  /**
   * Where a call is: waiting on the condition; woken, about to look again; or past the
   * lock, with bytes copied from offset `at`, before or after its unlocked load of the
   * reader's offset. The store of the sum, which ends the call, is unlocked as well.
   */
  datatype Phase =
    | Waiting(size: nat, needed: nat)
    | Awake(size: nat, needed: nat)
    | Copied(epoch: nat, at: nat, bytes: seq<nat>)
    | Loaded(epoch: nat, at: nat, bytes: seq<nat>, seen: nat)

  /** A call in progress on reader `k`. */
  datatype Call = Call(k: nat, phase: Phase)

  datatype State = State(c: Ctx, readers: map<nat, Reader>, calls: map<nat, Call>)

  datatype Reply = BadF | Pipe | Data(bytes: seq<nat>)

  /** A buffer of 2 to the `exp` bytes, if that is allowed and a sample fits. */
  predicate InitOk(exp: nat, sampleSize: nat) { exp <= 31 && sampleSize < Power(exp) }

  function Power(k: nat): nat { if k == 0 then 1 else 2 * Power(k - 1) }

  // ---- writing ----

  function PutByte(c: Ctx, b: nat): Ctx
    requires |c.buf| > 0
  {
    c.(buf := c.buf[Place(|c.stream|, |c.buf|) := b], stream := c.stream + [b])
  }

  function Put(c: Ctx, data: seq<nat>): (c': Ctx)
    requires |c.buf| > 0
    ensures |c'.buf| == |c.buf| && c'.stream == c.stream + data
    ensures c'.sampleSize == c.sampleSize && c'.nextWakeup == c.nextWakeup
    decreases |data|
  {
    if data == [] then c
    else
      assert c.stream + data == (c.stream + [data[0]]) + data[1..];
      Put(PutByte(c, data[0]), data[1..])
  }

  ghost predicate Kept(c: Ctx, i: nat)
    requires |c.buf| > 0 && i < |c.stream|
  {
    c.buf[Place(i, |c.buf|)] == c.stream[i]
  }

  /** The buffer holds the last bytes of the stream, as many as fit. */
  ghost predicate CtxOk(c: Ctx) {
    && |c.buf| > 0 && c.sampleSize < |c.buf|
    && forall i: nat {:trigger Kept(c, i)} :: i < |c.stream| <= i + |c.buf| ==> Kept(c, i)
  }

  lemma PutByteKeeps(c: Ctx, b: nat)
    requires CtxOk(c)
    ensures CtxOk(PutByte(c, b))
  {
    var c' := PutByte(c, b);
    forall i: nat | i < |c'.stream| <= i + |c'.buf| ensures Kept(c', i) {
      if i < |c.stream| {
        assert Kept(c, i);
        Different(i, |c.stream|, |c.buf|);
      }
    }
  }

  lemma {:induction false} PutKeeps(c: Ctx, data: seq<nat>)
    requires CtxOk(c)
    ensures CtxOk(Put(c, data))
    decreases |data|
  {
    if data != [] {
      PutByteKeeps(c, data[0]);
      PutKeeps(PutByte(c, data[0]), data[1..]);
    }
  }

  function Woken(call: Call): Call {
    if call.phase.Waiting? then call.(phase := Awake(call.phase.size, call.phase.needed)) else call
  }

  function WakeAll(calls: map<nat, Call>): map<nat, Call> {
    map t | t in calls :: Woken(calls[t])
  }

  /** One transaction: the bytes, and at its end a broadcast if a threshold has been reached. */
  function Write(s: State, data: seq<nat>): State
    requires |s.c.buf| > 0
  {
    var c := Put(s.c, data);
    if c.nextWakeup <= |c.stream| then State(c.(nextWakeup := NEVER), s.readers, WakeAll(s.calls))
    else State(c, s.readers, s.calls)
  }

  // ---- reading ----

  /** The bytes from offset `a`, off the ring. */
  function Slice(buf: seq<nat>, a: nat, n: nat): (r: seq<nat>)
    requires |buf| > 0
    ensures |r| == n
  {
    seq(n, i requires 0 <= i < n => buf[Place(a + i, |buf|)])
  }

  function Answer(c: Ctx, r: Reader, size: nat): Reply
    requires |c.buf| > 0
  {
    if !r.open then BadF
    else if r.offs > |c.stream| || |c.stream| - r.offs > |c.buf| - 1 then Pipe
    else Data(Slice(c.buf, r.offs, if size > |c.stream| - r.offs then |c.stream| - r.offs else size))
  }

  /** The locked part of a read: an error ends the call, bytes leave it to move the offset. */
  function Copy(s: State, t: nat, k: nat, size: nat): State
    requires k in s.readers && |s.c.buf| > 0
  {
    var r := s.readers[k];
    var a := Answer(s.c, r, size);
    s.(calls := if a.Data? then s.calls[t := Call(k, Copied(r.epoch, r.offs, a.bytes))] else s.calls - {t})
  }

  /** The blocking read looks: it waits, with the threshold at its own need or below, or it copies. */
  function Look(s: State, t: nat, k: nat, size: nat, needed: nat): State
    requires k in s.readers && |s.c.buf| > 0
  {
    if |s.c.stream| < needed && s.readers[k].open then
      s.(c := s.c.(nextWakeup := if s.c.nextWakeup > needed then needed else s.c.nextWakeup),
         calls := s.calls[t := Call(k, Waiting(size, needed))])
    else Copy(s, t, k, size)
  }

  /** After the lock: the reader's offset is loaded ... */
  function Load(s: State, t: nat): State
    requires t in s.calls && s.calls[t].phase.Copied? && s.calls[t].k in s.readers
  {
    var p := s.calls[t].phase;
    s.(calls := s.calls[t := s.calls[t].(phase := Loaded(p.epoch, p.at, p.bytes, s.readers[s.calls[t].k].offs))])
  }

  function Span(a: nat, n: nat): (r: seq<nat>)
    ensures |r| == n && forall i :: 0 <= i < n ==> r[i] == a + i
  {
    seq(n, i requires 0 <= i < n => a + i)
  }

  /** A reader once a read that found it as opened for the `epoch`th time has stored its offset. */
  function Stored(r: Reader, p: Phase): Reader
    requires p.Loaded?
  {
    var r' := r.(offs := p.seen + |p.bytes|);
    if p.epoch == r.epoch then r'.(taken := r.taken + Span(p.at, |p.bytes|), got := r.got + p.bytes) else r'
  }

  /** ... and the sum stored. */
  function Store(s: State, t: nat): State
    requires t in s.calls && s.calls[t].phase.Loaded? && s.calls[t].k in s.readers
  {
    var k := s.calls[t].k;
    s.(readers := s.readers[k := Stored(s.readers[k], s.calls[t].phase)], calls := s.calls - {t})
  }

  function Opened(r: Reader, a: nat): Reader {
    Reader(a, true, r.epoch + 1, a, [], [])
  }

  function Open(s: State, k: nat): State
    requires k in s.readers && s.c.sampleSize > 0
  {
    s.(readers := s.readers[k := Opened(s.readers[k], |s.c.stream| - |s.c.stream| % s.c.sampleSize)])
  }

  /** Closing wakes everybody, so that a blocked call of this reader can return. */
  function Close(s: State, k: nat): State
    requires k in s.readers
  {
    if !s.readers[k].open then s
    else s.(readers := s.readers[k := s.readers[k].(open := false, offs := 0)], calls := WakeAll(s.calls))
  }

  // ---- what every run keeps ----

  /** What a reader's reads have returned are bytes of the stream, each from the place recorded for it. */
  ghost predicate ReaderOk(c: Ctx, r: Reader) {
    |r.got| == |r.taken| && forall i :: 0 <= i < |r.got| ==> r.taken[i] < |c.stream| && r.got[i] == c.stream[r.taken[i]]
  }

  ghost predicate CallOk(c: Ctx, r: Reader, p: Phase) {
    match p
    case Waiting(_, needed) => r.open && c.nextWakeup <= needed && |c.stream| < needed
    case Awake(_, _) => true
    case Copied(epoch, at, bytes) =>
      epoch <= r.epoch && at + |bytes| <= |c.stream| && bytes == c.stream[at..at + |bytes|]
    case Loaded(epoch, at, bytes, _) =>
      epoch <= r.epoch && at + |bytes| <= |c.stream| && bytes == c.stream[at..at + |bytes|]
  }

  ghost predicate Sound(s: State, k: nat)
    requires k in s.readers
  {
    ReaderOk(s.c, s.readers[k])
  }

  ghost predicate Going(s: State, t: nat)
    requires t in s.calls
  {
    s.calls[t].k in s.readers && CallOk(s.c, s.readers[s.calls[t].k], s.calls[t].phase)
  }

  ghost predicate Inv(s: State) {
    && CtxOk(s.c)
    && (forall k: nat {:trigger Sound(s, k)} :: k in s.readers ==> Sound(s, k))
    && (forall t: nat {:trigger Going(s, t)} :: t in s.calls ==> Going(s, t))
  }

  lemma WriteKeeps(s: State, data: seq<nat>)
    requires Inv(s)
    ensures Inv(Write(s, data))
  {
    PutKeeps(s.c, data);
    var s', c := Write(s, data), Put(s.c, data);
    CtxCarries(c, s'.c);
    forall k: nat | k in s'.readers ensures Sound(s', k) { assert Sound(s, k); }
    forall t: nat | t in s'.calls ensures Going(s', t) {
      assert Going(s, t);
      Grown(s.c.stream, data, s.calls[t].phase);
    }
  }

  /** A stretch of the stream stays what it is as the stream grows. */
  lemma Grown(stream: seq<nat>, data: seq<nat>, p: Phase)
    ensures (p.Copied? || p.Loaded?) && p.at + |p.bytes| <= |stream| ==>
              (stream + data)[p.at..p.at + |p.bytes|] == stream[p.at..p.at + |p.bytes|]
  {
  }

  lemma CtxCarries(c: Ctx, c': Ctx)
    requires CtxOk(c) && c' == c.(nextWakeup := c'.nextWakeup)
    ensures CtxOk(c')
  {
    forall i: nat | i < |c'.stream| <= i + |c'.buf| ensures Kept(c', i) { assert Kept(c, i); }
  }

  /** What a read takes off the ring is the stream itself. */
  lemma SliceTrue(c: Ctx, a: nat, n: nat)
    requires CtxOk(c) && a + n <= |c.stream| < a + |c.buf|
    ensures Slice(c.buf, a, n) == c.stream[a..a + n]
  {
    forall i | 0 <= i < n ensures Slice(c.buf, a, n)[i] == c.stream[a + i] { assert Kept(c, a + i); }
  }

  lemma CopyKeeps(s: State, t: nat, k: nat, size: nat)
    requires Inv(s) && k in s.readers
    ensures Inv(Copy(s, t, k, size))
  {
    var s', r := Copy(s, t, k, size), s.readers[k];
    var a := Answer(s.c, r, size);
    if a.Data? { SliceTrue(s.c, r.offs, |a.bytes|); }
    forall l: nat | l in s'.readers ensures Sound(s', l) { assert Sound(s, l); }
    forall u: nat | u in s'.calls ensures Going(s', u) { if u != t { assert Going(s, u); } }
  }

  lemma LookKeeps(s: State, t: nat, k: nat, size: nat, needed: nat)
    requires Inv(s) && k in s.readers
    ensures Inv(Look(s, t, k, size, needed))
  {
    var s' := Look(s, t, k, size, needed);
    if |s.c.stream| < needed && s.readers[k].open {
      CtxCarries(s.c, s'.c);
      forall l: nat | l in s'.readers ensures Sound(s', l) { assert Sound(s, l); }
      forall u: nat | u in s'.calls ensures Going(s', u) { if u != t { assert Going(s, u); } }
    } else {
      CopyKeeps(s, t, k, size);
    }
  }

  lemma LoadKeeps(s: State, t: nat)
    requires Inv(s) && t in s.calls && s.calls[t].phase.Copied?
    ensures s.calls[t].k in s.readers && Inv(Load(s, t))
  {
    assert Going(s, t);
    var s' := Load(s, t);
    forall l: nat | l in s'.readers ensures Sound(s', l) { assert Sound(s, l); }
    forall u: nat | u in s'.calls ensures Going(s', u) { assert Going(s, u); }
  }

  lemma StoredOk(c: Ctx, r: Reader, p: Phase)
    requires ReaderOk(c, r) && p.Loaded? && CallOk(c, r, p)
    ensures ReaderOk(c, Stored(r, p))
  {
  }

  lemma StoreKeeps(s: State, t: nat)
    requires Inv(s) && t in s.calls && s.calls[t].phase.Loaded?
    ensures s.calls[t].k in s.readers && Inv(Store(s, t))
  {
    assert Going(s, t);
    var s', k := Store(s, t), s.calls[t].k;
    forall l: nat | l in s'.readers ensures Sound(s', l) {
      assert Sound(s, l);
      if l == k { StoredOk(s.c, s.readers[k], s.calls[t].phase); }
    }
    forall u: nat | u in s'.calls ensures Going(s', u) { assert Going(s, u); }
  }

  lemma OpenKeeps(s: State, k: nat)
    requires Inv(s) && k in s.readers && s.c.sampleSize > 0
    ensures Inv(Open(s, k))
  {
    var s' := Open(s, k);
    forall l: nat | l in s'.readers ensures Sound(s', l) { assert Sound(s, l); }
    forall u: nat | u in s'.calls ensures Going(s', u) { assert Going(s, u); }
  }

  lemma CloseKeeps(s: State, k: nat)
    requires Inv(s) && k in s.readers
    ensures Inv(Close(s, k))
  {
    var s' := Close(s, k);
    forall l: nat | l in s'.readers ensures Sound(s', l) { assert Sound(s, l); }
    forall u: nat | u in s'.calls ensures Going(s', u) { assert Going(s, u); }
  }

  /** A reader just opened has less than a sample behind it: it can never start overrun. */
  lemma FreshNotOverrun(s: State, k: nat)
    requires Inv(s) && k in s.readers && s.c.sampleSize > 0
    ensures var r := Open(s, k).readers[k];
            r.open && r.offs % s.c.sampleSize == 0 && |s.c.stream| - r.offs < s.c.sampleSize &&
            forall size :: Answer(s.c, r, size).Data?
  {
    Aligned(|s.c.stream|, s.c.sampleSize);
  }

  lemma Aligned(x: nat, m: nat)
    requires m > 0
    ensures (x - x % m) % m == 0
  {
    var q := x / m;
    assert x - x % m == q * m + 0;
    Remainder(q * m, m, q, 0);
  }

  /** The initial check admits samples of no bytes, for which opening a reader has no meaning. */
  lemma EmptySampleAdmitted(exp: nat)
    ensures exp <= 31 <==> InitOk(exp, 0)
  {
    PowerPositive(exp);
  }

  lemma {:induction false} PowerPositive(k: nat)
    ensures Power(k) > 0
  {
    if k > 0 { PowerPositive(k - 1); }
  }

  /**
   * A read answers by the stream alone: the next bytes, as many as asked for and there
   * are, unless the reader is closed, a whole buffer or more behind, or past the end.
   */
  lemma AnswerTrue(c: Ctx, r: Reader, size: nat)
    requires CtxOk(c)
    ensures Answer(c, r, size).BadF? <==> !r.open
    ensures Answer(c, r, size).Pipe? <==> r.open && (r.offs > |c.stream| || |c.stream| - r.offs >= |c.buf|)
    ensures Answer(c, r, size).Data? ==>
              Answer(c, r, size).bytes ==
              c.stream[r.offs..if r.offs + size > |c.stream| then |c.stream| else r.offs + size]
  {
    if Answer(c, r, size).Data? {
      SliceTrue(c, r.offs, if size > |c.stream| - r.offs then |c.stream| - r.offs else size);
    }
  }

  // ---- runs ----

  /** `Resume` is a woken call looking again, `Spurious` a wake-up nobody asked for. `t` names a call. */
  datatype Step =
    | Transaction(data: seq<nat>)
    | OpenReader(k: nat)
    | CloseReader(k: nat)
    | ReadNow(t: nat, k: nat, size: nat)
    | ReadBlocking(t: nat, k: nat, size: nat)
    | Resume(t: nat)
    | Spurious(t: nat)
    | LoadOffs(t: nat)
    | StoreOffs(t: nat)

  /** Any number of calls, on any readers. */
  predicate Enabled(s: State, x: Step) {
    match x
    case Transaction(_) => true
    case OpenReader(k) => k in s.readers && s.c.sampleSize > 0
    case CloseReader(k) => k in s.readers
    case ReadNow(t, k, _) => k in s.readers && t !in s.calls
    case ReadBlocking(t, k, _) => k in s.readers && t !in s.calls
    case Resume(t) => t in s.calls && s.calls[t].phase.Awake? && s.calls[t].k in s.readers
    case Spurious(t) => t in s.calls && s.calls[t].phase.Waiting?
    case LoadOffs(t) => t in s.calls && s.calls[t].phase.Copied? && s.calls[t].k in s.readers
    case StoreOffs(t) => t in s.calls && s.calls[t].phase.Loaded? && s.calls[t].k in s.readers
  }

  function Next(s: State, x: Step): State
    requires |s.c.buf| > 0 && Enabled(s, x)
  {
    match x
    case Transaction(data) => Write(s, data)
    case OpenReader(k) => Open(s, k)
    case CloseReader(k) => Close(s, k)
    case ReadNow(t, k, size) => Copy(s, t, k, size)
    case ReadBlocking(t, k, size) => Look(s, t, k, size, s.readers[k].offs + size)
    case Resume(t) => Look(s, t, s.calls[t].k, s.calls[t].phase.size, s.calls[t].phase.needed)
    case Spurious(t) => s.(calls := s.calls[t := Woken(s.calls[t])])
    case LoadOffs(t) => Load(s, t)
    case StoreOffs(t) => Store(s, t)
  }

  lemma StepKeeps(s: State, x: Step)
    requires Inv(s) && Enabled(s, x)
    ensures Inv(Next(s, x)) && s.c.stream <= Next(s, x).c.stream && Next(s, x).readers.Keys == s.readers.Keys
  {
    match x
    case Transaction(data) => WriteKeeps(s, data);
    case OpenReader(k) => OpenKeeps(s, k);
    case CloseReader(k) => CloseKeeps(s, k);
    case ReadNow(t, k, size) => CopyKeeps(s, t, k, size);
    case ReadBlocking(t, k, size) => LookKeeps(s, t, k, size, s.readers[k].offs + size);
    case Resume(t) => LookKeeps(s, t, s.calls[t].k, s.calls[t].phase.size, s.calls[t].phase.needed);
    case Spurious(t) =>
      var s' := Next(s, x);
      forall l: nat | l in s'.readers ensures Sound(s', l) { assert Sound(s, l); }
      forall u: nat | u in s'.calls ensures Going(s', u) { assert Going(s, u); }
    case LoadOffs(t) => LoadKeeps(s, t);
    case StoreOffs(t) => StoreKeeps(s, t);
  }

  /** A buffer of 2 to the `exp` bytes, readers not yet opened, and no call. */
  ghost predicate IsStart(s: State, exp: nat) {
    && InitOk(exp, s.c.sampleSize) && |s.c.buf| == Power(exp) && s.c.stream == [] && s.c.nextWakeup == 0
    && (forall k: nat :: k in s.readers ==> s.readers[k] == Reader(0, false, 0, 0, [], []))
    && s.calls == map[]
  }

  ghost predicate Leads(s: State, x: Step, s': State) { |s.c.buf| > 0 && Enabled(s, x) && s' == Next(s, x) }

  ghost predicate IsRun(ss: seq<State>, xs: seq<Step>, exp: nat) {
    && |ss| == |xs| + 1 && IsStart(ss[0], exp)
    && forall i :: 0 <= i < |xs| ==> Leads(ss[i], xs[i], ss[i + 1])
  }

  lemma {:induction false} RunInv(ss: seq<State>, xs: seq<Step>, exp: nat, i: nat)
    requires IsRun(ss, xs, exp) && i < |ss|
    ensures Inv(ss[i])
    decreases i
  {
    if i == 0 {
      PowerPositive(exp);
      forall k: nat | k in ss[0].readers ensures Sound(ss[0], k) {}
    } else {
      RunInv(ss, xs, exp, i - 1);
      assert Leads(ss[i - 1], xs[i - 1], ss[i]);
      StepKeeps(ss[i - 1], xs[i - 1]);
    }
  }

  /** A call that waits is still short of bytes, and the threshold that would wake it is set: no wake-up is lost. */
  lemma NoLostWakeup(ss: seq<State>, xs: seq<Step>, exp: nat, i: nat, t: nat)
    requires IsRun(ss, xs, exp) && i < |ss| && t in ss[i].calls && ss[i].calls[t].phase.Waiting?
    ensures |ss[i].c.stream| < ss[i].calls[t].phase.needed && ss[i].c.nextWakeup <= ss[i].calls[t].phase.needed
    ensures forall data :: |ss[i].c.stream + data| >= ss[i].calls[t].phase.needed ==>
              |ss[i].c.buf| > 0 && t in Write(ss[i], data).calls && Write(ss[i], data).calls[t].phase.Awake?
    ensures ss[i].calls[t].k in ss[i].readers
    ensures var s' := Close(ss[i], ss[i].calls[t].k); t in s'.calls && s'.calls[t].phase.Awake?
  {
    RunInv(ss, xs, exp, i);
    assert Going(ss[i], t);
  }
}
