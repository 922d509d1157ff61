/**
 * What comes out of the jack: the engine plays the ring word by word, the driver
 * services and fills it, and every sample committed is heard once, in order.
 */
module AudioStream {
  import opened RingPlaces
  import opened AudioRing

  const PWM_RANGE := 612
  const SILENCE := 306

  /** Signed 16-bit PCM to PWM duty. */
  function Duty(s: int): nat
    requires -32768 <= s < 32768
  {
    (s + 32768) * PWM_RANGE / 65536
  }

  lemma DutyRange(s: int, t: int)
    requires -32768 <= s <= t < 32768
    ensures 0 <= Duty(s) <= Duty(t) < PWM_RANGE && Duty(0) == SILENCE
  {
  }

  /**
   * `pos` words have been played, `played` is what they were; `svc` was the position at
   * the last service.  `times[j]` is the position at which sample `j`, whose duty is
   * `duties[j]`, is to be played.
   */
  datatype Stream = Stream(r: Ring, mem: seq<nat>, pos: nat, svc: nat, played: seq<nat>,
                           times: seq<nat>, duties: seq<nat>)

  /** What is due at position `a`: the sample scheduled there, else silence. */
  function Due(times: seq<nat>, duties: seq<nat>, a: nat): nat
    requires |times| == |duties|
  {
    var n := |times|;
    if n == 0 then SILENCE
    else if times[n - 1] == a then duties[n - 1]
    else Due(times[..n - 1], duties[..n - 1], a)
  }

  lemma {:induction false} DueNone(times: seq<nat>, duties: seq<nat>, a: nat)
    requires |times| == |duties| && forall j :: 0 <= j < |times| ==> times[j] != a
    ensures Due(times, duties, a) == SILENCE
  {
    var n := |times|;
    if n > 0 { DueNone(times[..n - 1], duties[..n - 1], a); }
  }

  lemma {:induction false} DueThen(times: seq<nat>, duties: seq<nat>, j: nat)
    requires |times| == |duties| && j < |times| && forall i, k :: 0 <= i < k < |times| ==> times[i] < times[k]
    ensures Due(times, duties, times[j]) == duties[j]
  {
    var n := |times|;
    if j < n - 1 { DueThen(times[..n - 1], duties[..n - 1], j); }
  }

  lemma DueMore(times: seq<nat>, duties: seq<nat>, t: nat, d: nat, a: nat)
    requires |times| == |duties|
    ensures Due(times + [t], duties + [d], a) == if a == t then d else Due(times, duties, a)
  {
    assert (times + [t])[..|times|] == times && (duties + [d])[..|duties|] == duties;
  }

  // ---- the invariant ----

  ghost predicate AheadOk(s: Stream, j: nat)
    requires |s.mem| > 0 && |s.times| == |s.duties|
  {
    Word(s.mem, s.svc, j) == if j < s.r.pending then Due(s.times, s.duties, s.svc + j) else SILENCE
  }

  ghost predicate HeardOk(s: Stream, a: nat)
    requires a < |s.played| && |s.times| == |s.duties|
  {
    s.played[a] == Due(s.times, s.duties, a)
  }

  ghost predicate TimeOk(s: Stream, j: nat)
    requires j < |s.times|
  {
    && s.times[j] < s.svc + s.r.pending && s.times[j] % 2 == j % 2
    && (j + 1 < |s.times| ==> s.times[j] < s.times[j + 1])
  }

  ghost predicate Shape(s: Stream) {
    && RingSane(s.r) && s.r.size % 2 == 0 && |s.mem| == s.r.size
    && s.r.rd == Place(s.svc, s.r.size) && s.svc <= s.pos && (s.r.pending > 0 ==> s.pos < s.svc + s.r.size)
    && |s.played| == s.pos
    && |s.times| == |s.duties| && s.r.wr % 2 == |s.times| % 2
    && (s.r.pending > 0 ==> s.r.wr == Place(s.svc + s.r.pending, s.r.size))
  }

  ghost predicate StreamOk(s: Stream) {
    && Shape(s)
    && (forall j: nat {:trigger AheadOk(s, j)} :: j < s.r.size ==> AheadOk(s, j))
    && (forall a: nat {:trigger HeardOk(s, a)} :: a < s.pos ==> HeardOk(s, a))
    && (forall j: nat {:trigger TimeOk(s, j)} :: j < |s.times| ==> TimeOk(s, j))
  }

  lemma {:induction false} Ordered(s: Stream, i: nat, j: nat)
    requires StreamOk(s) && i < j < |s.times|
    ensures s.times[i] < s.times[j]
    decreases j
  {
    assert TimeOk(s, j - 1);
    if i < j - 1 { Ordered(s, i, j - 1); }
  }

  /** Nothing is scheduled past the pending words. */
  lemma NothingPast(s: Stream, a: nat)
    requires StreamOk(s) && a >= s.svc + s.r.pending
    ensures Due(s.times, s.duties, a) == SILENCE
  {
    forall j | 0 <= j < |s.times| ensures s.times[j] != a { assert TimeOk(s, j); }
    DueNone(s.times, s.duties, a);
  }

  /** With nothing pending the ring is silence, however often the engine has been around it. */
  lemma IdleSilent(s: Stream, a: nat)
    requires StreamOk(s) && s.r.pending == 0
    ensures s.mem[Place(a, s.r.size)] == SILENCE
  {
    var n := s.r.size;
    var j := Place(a + n - s.r.rd, n);
    PlaceOf(s.r.rd, a, n);
    SamePlace(s.svc, s.r.rd, j, n);
    assert AheadOk(s, j);
  }

  // ---- steps ----

  /** The engine plays one word. */
  function Play(s: Stream): Stream
    requires |s.mem| > 0
  {
    s.(pos := s.pos + 1, played := s.played + [s.mem[Place(s.pos, |s.mem|)]])
  }

  lemma PlayKeeps(s: Stream)
    requires StreamOk(s) && (s.r.pending > 0 ==> s.pos + 1 < s.svc + s.r.size)
    ensures StreamOk(Play(s))
  {
    var s', j := Play(s), s.pos - s.svc;
    if j >= s.r.pending { NothingPast(s, s.pos); }
    if s.r.pending == 0 { IdleSilent(s, s.pos); } else { assert AheadOk(s, j); }
    forall a: nat | a < s'.pos ensures HeardOk(s', a) { if a < s.pos { assert HeardOk(s, a); } }
    forall i: nat | i < s'.r.size ensures AheadOk(s', i) { assert AheadOk(s, i); }
    forall i: nat | i < |s'.times| ensures TimeOk(s', i) { assert TimeOk(s, i); }
  }

  /** The driver catches up with the engine's cursor, given what the clock says it moved. */
  function Serve(s: Stream, expected: nat): (s': Stream)
    requires RingSane(s.r) && |s.mem| == s.r.size
    ensures RingSane(s'.r) && |s'.mem| == s'.r.size
  {
    var a := Service(s.r, s.mem, Place(s.pos, s.r.size), expected, SILENCE);
    s.(r := a.r, mem := a.mem, svc := s.pos)
  }

  /** With words pending, the clock does not take the move for a lap. */
  predicate Timely(s: Stream, expected: nat) {
    s.r.pending > 0 ==> s.svc <= s.pos && (s.pos == s.svc || expected < s.pos - s.svc + s.r.size / 2)
  }

  lemma ServeMove(s: Stream, expected: nat)
    requires Shape(s) && Timely(s, expected) && s.r.pending > 0
    ensures Consumed(s.r, Place(s.pos, s.r.size), expected) == s.pos - s.svc
  {
    ConsumedExact(s.r, s.svc, s.pos - s.svc, Place(s.pos, s.r.size), expected);
  }

  /** The words ahead, seen from the new position. */
  lemma ServeAhead(s: Stream, expected: nat, j: nat)
    requires StreamOk(s) && Timely(s, expected) && j < s.r.size
    ensures AheadOk(Serve(s, expected), j)
  {
    var d, n := s.pos - s.svc, s.r.size;
    if s.r.pending == 0 {
      IdleSilent(s, s.pos + j);
    } else {
      ServeMove(s, expected);
      if d + j < n {
        assert AheadOk(s, d + j);
        ServeKept(s, expected, j);
      } else {
        ServeBehind(s, expected, j);
      }
    }
  }

  lemma ServeKept(s: Stream, expected: nat, j: nat)
    requires StreamOk(s) && Timely(s, expected) && s.r.pending > 0 && s.pos - s.svc + j < s.r.size
    ensures Word(Serve(s, expected).mem, s.pos, j) == Word(s.mem, s.svc, s.pos - s.svc + j)
  {
    var d := s.pos - s.svc;
    ServeMove(s, expected);
    StoreShift(s.mem, s.r.rd, s.svc, Repeat(d, SILENCE));
    StoreAt(s.mem, s.svc, Repeat(d, SILENCE), s.svc + d + j);
  }

  lemma ServeBehind(s: Stream, expected: nat, j: nat)
    requires StreamOk(s) && Timely(s, expected) && s.r.pending > 0 && j < s.r.size <= s.pos - s.svc + j
    ensures Word(Serve(s, expected).mem, s.pos, j) == SILENCE
  {
    var d, n := s.pos - s.svc, s.r.size;
    var i := d + j - n;
    ServeMove(s, expected);
    assert Place(s.pos + j, n) == Place(s.svc + i, n);
    StoreShift(s.mem, s.r.rd, s.svc, Repeat(d, SILENCE));
    StoreAt(s.mem, s.svc, Repeat(d, SILENCE), s.svc + i);
  }

  lemma ServeKeeps(s: Stream, expected: nat)
    requires StreamOk(s) && Timely(s, expected)
    ensures StreamOk(Serve(s, expected))
    ensures var s' := Serve(s, expected); s'.times == s.times && s'.duties == s.duties && s'.pos == s'.svc == s.pos
  {
    var s' := Serve(s, expected);
    if s.r.pending > 0 { ServeMove(s, expected); }
    forall j: nat | j < s'.r.size ensures AheadOk(s', j) { ServeAhead(s, expected, j); }
    forall a: nat | a < s'.pos ensures HeardOk(s', a) { assert HeardOk(s, a); }
    forall j: nat | j < |s'.times| ensures TimeOk(s', j) { assert TimeOk(s, j); }
  }

  /** The writer, if the ring ran dry, starts again some words ahead of the cursor. */
  function Restart(s: Stream, lead: nat): Stream
    requires RingSane(s.r)
  {
    s.(r := Resync(s.r, lead))
  }

  lemma {:induction false} PlaceParity(a: nat, n: nat)
    requires n > 0 && n % 2 == 0
    ensures Place(a, n) % 2 == a % 2
  {
    if a >= n { PlaceParity(a - n, n); }
  }

  /** The end of the pending words is where the writer is, and has the parity of the next sample. */
  ghost predicate AtEnd(s: Stream) {
    s.r.size > 0 && s.r.wr == Place(s.svc + s.r.pending, s.r.size)
  }

  lemma RestartRing(s: Stream, lead: nat)
    requires Shape(s)
    ensures var r := Resync(s.r, lead);
            RingSane(r) && r.rd == s.r.rd && r.size == s.r.size && r.wr % 2 == s.r.wr % 2 && r.pending >= s.r.pending &&
            r.wr == Place(s.svc + r.pending, r.size)
  {
    if s.r.pending == 0 {
      ResyncPlace(s.r, lead);
      ResyncParity(s.r, lead);
      SamePlace(s.r.rd, s.svc, Resync(s.r, lead).pending, s.r.size);
    }
  }

  lemma RestartKeeps(s: Stream, lead: nat)
    requires StreamOk(s) && s.pos == s.svc
    ensures StreamOk(Restart(s, lead)) && AtEnd(Restart(s, lead))
  {
    var s' := Restart(s, lead);
    RestartRing(s, lead);
    forall j: nat | j < s'.r.size ensures AheadOk(s', j) {
      assert AheadOk(s, j);
      if s.r.pending <= j { NothingPast(s, s.svc + j); }
    }
    forall a: nat | a < s'.pos ensures HeardOk(s', a) { assert HeardOk(s, a); }
    forall j: nat | j < |s'.times| ensures TimeOk(s', j) { assert TimeOk(s, j); }
  }

  /** One word written at the end of the pending words and committed. */
  function Push(s: Stream, w: nat): Stream
    requires RingSane(s.r) && |s.mem| == s.r.size
  {
    s.(r := Commit(s.r, 1), mem := s.mem[s.r.wr := w],
       times := s.times + [s.svc + s.r.pending], duties := s.duties + [w])
  }

  lemma PushAhead(s: Stream, w: nat, j: nat)
    requires StreamOk(s) && AtEnd(s) && s.r.pending + 1 < s.r.size && j < s.r.size
    ensures AheadOk(Push(s, w), j)
  {
    var p, n := s.r.pending, s.r.size;
    assert AheadOk(s, j);
    DueMore(s.times, s.duties, s.svc + p, w, s.svc + j);
    if j < p { Different(s.svc + j, s.svc + p, n); } else if p < j { Different(s.svc + p, s.svc + j, n); }
  }

  lemma PushShape(s: Stream, w: nat)
    requires StreamOk(s) && AtEnd(s) && s.r.pending + 1 < s.r.size && s.pos == s.svc
    ensures Shape(Push(s, w)) && AtEnd(Push(s, w))
  {
    Onward(s.svc + s.r.pending, 1, s.r.size);
    CommitParity(s.r, 1, |s.times|);
  }

  lemma PushKeeps(s: Stream, w: nat)
    requires StreamOk(s) && AtEnd(s) && s.r.pending + 1 < s.r.size && s.pos == s.svc
    ensures StreamOk(Push(s, w)) && AtEnd(Push(s, w))
  {
    var s', m := Push(s, w), |s.times|;
    PushShape(s, w);
    PlaceParity(s.svc + s.r.pending, s.r.size);
    forall j: nat | j < s'.r.size ensures AheadOk(s', j) { PushAhead(s, w, j); }
    forall a: nat | a < s'.pos ensures HeardOk(s', a) {
      assert HeardOk(s, a);
      DueMore(s.times, s.duties, s.svc + s.r.pending, w, a);
    }
    forall j: nat | j < |s'.times| ensures TimeOk(s', j) { if j < m { assert TimeOk(s, j); } }
  }

  function Pushes(s: Stream, ws: seq<nat>): Stream
    requires RingSane(s.r) && |s.mem| == s.r.size && s.r.pending + |ws| < s.r.size
    decreases |ws|
  {
    if ws == [] then s else Pushes(Push(s, ws[0]), ws[1..])
  }

  lemma {:induction false} PushesKeep(s: Stream, ws: seq<nat>)
    requires StreamOk(s) && AtEnd(s) && s.r.pending + |ws| < s.r.size && s.pos == s.svc
    ensures StreamOk(Pushes(s, ws)) && AtEnd(Pushes(s, ws))
    ensures Pushes(s, ws).duties == s.duties + ws && Pushes(s, ws).pos == s.pos
    decreases |ws|
  {
    if ws != [] {
      PushKeeps(s, ws[0]);
      PushesKeep(Push(s, ws[0]), ws[1..]);
      assert s.duties + ws == (s.duties + [ws[0]]) + ws[1..];
    }
  }

  /** Word by word or all at once: the driver stores the words and commits them together. */
  lemma {:induction false} PushesBatch(s: Stream, ws: seq<nat>)
    requires RingSane(s.r) && |s.mem| == s.r.size && s.r.pending + |ws| < s.r.size
    ensures Pushes(s, ws).mem == Written(s.mem, s.r, ws) && Pushes(s, ws).r == Commit(s.r, |ws|)
    decreases |ws|
  {
    if ws != [] {
      PushesBatch(Push(s, ws[0]), ws[1..]);
      StoreShift(s.mem[s.r.wr := ws[0]], Place(s.r.wr + 1, s.r.size), s.r.wr + 1, ws[1..]);
      Onward(s.r.wr + 1, |ws| - 1, s.r.size);
    }
  }

  function Min(a: nat, b: nat): nat { if a < b then a else b }

  /** One pass of the writer: service, restart if dry, fill what space there is. */
  function WritePass(s: Stream, expected: nat, lead: nat, ws: seq<nat>): Stream
    requires RingSane(s.r) && |s.mem| == s.r.size
  {
    var s1 := Restart(Serve(s, expected), lead);
    Pushes(s1, ws[..Min(Space(s1.r), |ws|)])
  }

  /** How many of `n` words a pass takes: as many as there is room for once the ring is serviced. */
  function Taken(s: Stream, expected: nat, lead: nat, n: nat): nat
    requires RingSane(s.r) && |s.mem| == s.r.size
  {
    Min(Space(Restart(Serve(s, expected), lead).r), n)
  }

  lemma WritePassKeeps(s: Stream, expected: nat, lead: nat, ws: seq<nat>)
    requires StreamOk(s) && Timely(s, expected)
    ensures StreamOk(WritePass(s, expected, lead, ws)) && WritePass(s, expected, lead, ws).pos == s.pos
    ensures WritePass(s, expected, lead, ws).duties == s.duties + ws[..Taken(s, expected, lead, |ws|)]
  {
    ServeKeeps(s, expected);
    var s1 := Serve(s, expected);
    RestartKeeps(s1, lead);
    var s2 := Restart(s1, lead);
    PushesKeep(s2, ws[..Min(Space(s2.r), |ws|)]);
  }

  /** The ring after a pass is what the driver's own operations leave: service, resync, store, commit. */
  lemma WritePassRing(s: Stream, expected: nat, lead: nat, ws: seq<nat>)
    requires RingSane(s.r) && |s.mem| == s.r.size
    ensures var a := Service(s.r, s.mem, Place(s.pos, s.r.size), expected, SILENCE);
            var r := Resync(a.r, lead);
            var k := Min(Space(r), |ws|);
            && WritePass(s, expected, lead, ws).r == Commit(r, k)
            && WritePass(s, expected, lead, ws).mem == Written(a.mem, r, ws[..k])
  {
    var s1 := Restart(Serve(s, expected), lead);
    PushesBatch(s1, ws[..Min(Space(s1.r), |ws|)]);
  }

  // ---- runs ----

  datatype Step = PlayWord | Sweep(expected: nat) | Write(expected: nat, lead: nat, ws: seq<nat>)

  /**
   * While words are pending: less than a lap between services, and a clock that is not half
   * a lap fast. With nothing pending the engine may go round as long as it likes.
   */
  predicate Enabled(s: Stream, x: Step) {
    match x
    case PlayWord => s.r.pending > 0 ==> s.pos + 1 < s.svc + s.r.size
    case Sweep(expected) => Timely(s, expected)
    case Write(expected, _, _) => Timely(s, expected)
  }

  function Next(s: Stream, x: Step): Stream
    requires RingSane(s.r) && |s.mem| == s.r.size
  {
    match x
    case PlayWord => Play(s)
    case Sweep(expected) => Serve(s, expected)
    case Write(expected, lead, ws) => WritePass(s, expected, lead, ws)
  }

  /** A silent ring, nothing written, nothing played. */
  function Start(size: nat): Stream {
    Stream(Ring(size, 0, 0, 0), Repeat(size, SILENCE), 0, 0, [], [], [])
  }

  ghost predicate Leads(s: Stream, x: Step, s': Stream) {
    RingSane(s.r) && |s.mem| == s.r.size && Enabled(s, x) && s' == Next(s, x)
  }

  ghost predicate IsRun(ss: seq<Stream>, xs: seq<Step>, size: nat) {
    && size > 0 && size % 2 == 0 && |ss| == |xs| + 1 && ss[0] == Start(size)
    && forall i :: 0 <= i < |xs| ==> Leads(ss[i], xs[i], ss[i + 1])
  }

  lemma StartOk(size: nat)
    requires size > 0 && size % 2 == 0
    ensures StreamOk(Start(size))
  {
    var s := Start(size);
    forall j: nat | j < size ensures AheadOk(s, j) {}
  }

  lemma StepKeeps(s: Stream, x: Step)
    requires StreamOk(s) && Enabled(s, x)
    ensures StreamOk(Next(s, x))
  {
    match x
    case PlayWord => PlayKeeps(s);
    case Sweep(expected) => ServeKeeps(s, expected);
    case Write(expected, lead, ws) => WritePassKeeps(s, expected, lead, ws);
  }

  lemma {:induction false} RunOk(ss: seq<Stream>, xs: seq<Step>, size: nat, i: nat)
    requires IsRun(ss, xs, size) && i < |ss|
    ensures StreamOk(ss[i])
    decreases i
  {
    if i == 0 {
      StartOk(size);
    } else {
      RunOk(ss, xs, size, i - 1);
      assert Leads(ss[i - 1], xs[i - 1], ss[i]);
      StepKeeps(ss[i - 1], xs[i - 1]);
    }
  }

  /**
   * What has been heard: every committed sample whose time has come, at its own time, in
   * the order committed, on its own channel; and silence at every other moment.
   */
  lemma Heard(ss: seq<Stream>, xs: seq<Step>, size: nat, i: nat)
    requires IsRun(ss, xs, size) && i < |ss|
    ensures var s := ss[i];
            && |s.played| == s.pos && |s.times| == |s.duties|
            && (forall j, k :: 0 <= j < k < |s.times| ==> s.times[j] < s.times[k])
            && (forall j :: 0 <= j < |s.times| ==> s.times[j] % 2 == j % 2 && s.times[j] < s.svc + s.r.pending)
            && (forall j :: 0 <= j < |s.times| && s.times[j] < s.pos ==> s.played[s.times[j]] == s.duties[j])
            && (forall a :: 0 <= a < s.pos && a !in s.times ==> s.played[a] == SILENCE)
  {
    RunOk(ss, xs, size, i);
    var s := ss[i];
    forall j, k | 0 <= j < k < |s.times| ensures s.times[j] < s.times[k] { Ordered(s, j, k); }
    forall j | 0 <= j < |s.times| ensures s.times[j] % 2 == j % 2 && s.times[j] < s.svc + s.r.pending {
      assert TimeOk(s, j);
    }
    forall j | 0 <= j < |s.times| && s.times[j] < s.pos ensures s.played[s.times[j]] == s.duties[j] {
      assert HeardOk(s, s.times[j]);
      DueThen(s.times, s.duties, j);
    }
    forall a: nat | a < s.pos && a !in s.times ensures s.played[a] == SILENCE {
      assert HeardOk(s, a);
      DueNone(s.times, s.duties, a);
    }
  }

  /** What one step adds to the samples committed: a pass of the writer, the words there was room for. */
  lemma CommittedBy(ss: seq<Stream>, xs: seq<Step>, size: nat, i: nat)
    requires IsRun(ss, xs, size) && i < |xs|
    ensures !xs[i].Write? ==> ss[i + 1].duties == ss[i].duties
    ensures RingSane(ss[i].r) && |ss[i].mem| == ss[i].r.size
    ensures xs[i].Write? ==>
              ss[i + 1].duties == ss[i].duties + xs[i].ws[..Taken(ss[i], xs[i].expected, xs[i].lead, |xs[i].ws|)]
  {
    RunOk(ss, xs, size, i);
    assert Leads(ss[i], xs[i], ss[i + 1]);
    if xs[i].Write? {
      WritePassKeeps(ss[i], xs[i].expected, xs[i].lead, xs[i].ws);
    } else if xs[i].Sweep? {
      ServeKeeps(ss[i], xs[i].expected);
    }
  }
}
