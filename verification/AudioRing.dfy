/**
 * The streaming ring of the audio driver: a buffer that the DMA engine plays in a loop
 * without end, the writer's position in it, and the silencing of what has played.
 */
module AudioRing {
  import opened RingPlaces

  /** Positions count words; a position is a place in the ring modulo its size. */
  datatype Ring = Ring(size: nat, wr: nat, rd: nat, pending: nat)

  predicate RingSane(r: Ring) { r.size > 0 && r.wr < r.size && r.rd < r.size && r.pending < r.size }

  // ---- how far the engine moved ----

  function Consumed(r: Ring, cur: nat, expected: nat): nat
    requires r.size > 0 && r.rd < r.size
  {
    var delta := Place(Place(cur, r.size) + r.size - r.rd, r.size);
    if delta != 0 && expected >= delta + r.size / 2 then r.size else delta
  }

  lemma Delta(start: nat, d: nat, n: nat)
    requires n > 0
    ensures Place(Place(start + d, n) + n - Place(start, n), n) == Place(d, n)
  {
    var s := Place(start, n);
    Onward(start, d, n);
    SamePlace(Place(s + d, n), s + d, n - s, n);
  }

  lemma LapOver(d: nat, n: nat)
    requires 0 < n <= d
    ensures Place(d, n) + n <= d
  {
    PlaceBelow(d - n, n);
  }

  /** The cursor was at `start` at the last service and has moved `d` words since; the clock says `expected`. */
  predicate ClockRight(size: nat, d: nat, expected: nat) {
    expected < d + size / 2 && d < expected + size / 2
  }

  /**
   * With a clock right to within half a lap the move is told exactly, a lap or more is
   * told as a lap, and only a move of whole laps is taken for none.
   */
  lemma ConsumedTrue(r: Ring, start: nat, d: nat, cur: nat, expected: nat)
    requires r.size > 0 && r.rd == Place(start, r.size) && Place(cur, r.size) == Place(start + d, r.size)
    requires ClockRight(r.size, d, expected)
    ensures Consumed(r, cur, expected) == if Place(d, r.size) == 0 then 0 else if d < r.size then d else r.size
  {
    Delta(start, d, r.size);
    if d < r.size {
    } else {
      LapOver(d, r.size);
    }
  }

  /** A move of less than a lap is told exactly if and only if the clock does not call it a lap. */
  lemma ConsumedExact(r: Ring, start: nat, d: nat, cur: nat, expected: nat)
    requires r.size > 0 && r.rd == Place(start, r.size) && Place(cur, r.size) == Place(start + d, r.size) && d < r.size
    ensures Consumed(r, cur, expected) == d <==> d == 0 || expected < d + r.size / 2
  {
    Delta(start, d, r.size);
  }

  // ---- storing into the ring ----

  function Repeat(n: nat, v: nat): (r: seq<nat>)
    ensures |r| == n && forall i :: 0 <= i < n ==> r[i] == v
  {
    seq(n, _ => v)
  }

  // ---- the operations ----

  datatype Flags = Nothing | Drained | Lapped

  datatype Advanced = Advanced(r: Ring, mem: seq<nat>, filled: nat, flags: Flags)

  function Advance(r: Ring, mem: seq<nat>, cur: nat, consumed: nat, silence: nat): Advanced
    requires r.size > 0 && |mem| == r.size
  {
    var c := Place(cur, r.size);
    if r.pending == 0 then Advanced(r.(rd := c), mem, 0, Nothing)
    else if consumed >= r.size then
      Advanced(r.(rd := c, pending := 0), StoreFrom(mem, c, Repeat(r.size, silence)), r.size, Lapped)
    else
      var m := StoreFrom(mem, r.rd, Repeat(consumed, silence));
      if consumed >= r.pending then Advanced(r.(rd := c, pending := 0), m, consumed, Drained)
      else Advanced(r.(rd := c, pending := r.pending - consumed), m, consumed, Nothing)
  }

  function Service(r: Ring, mem: seq<nat>, cur: nat, expected: nat, silence: nat): (a: Advanced)
    requires RingSane(r) && |mem| == r.size
    ensures RingSane(a.r) && a.r.size == r.size && |a.mem| == |mem|
  {
    Advance(r, mem, cur, Consumed(r, cur, expected), silence)
  }

  function Space(r: Ring): nat
    requires RingSane(r)
  {
    r.size - 1 - r.pending
  }

  function Commit(r: Ring, n: nat): Ring
    requires r.size > 0
  {
    r.(wr := Place(r.wr + n, r.size), pending := r.pending + n)
  }

  function Resync(r: Ring, lead: nat): (r': Ring)
    requires RingSane(r)
    ensures RingSane(r') && r'.size == r.size
  {
    if r.pending != 0 then r
    else
      var w := Place(r.rd + lead, r.size);
      StartAt(r, if (w + r.size - r.wr) % 2 != 0 then Place(w + 1, r.size) else w)
  }

  /** The writer moved to place `w`; the words up to it are pending. */
  function StartAt(r: Ring, w: nat): Ring
    requires RingSane(r) && w < r.size
  {
    r.(wr := w, pending := Place(w + r.size - r.rd, r.size))
  }

  // ---- what they keep ----

  /** Every word outside the pending region is silence; a pending region ends where the writer is. */
  ghost predicate RingOk(r: Ring, mem: seq<nat>, silence: nat) {
    && RingSane(r) && |mem| == r.size
    && (forall j {:trigger Word(mem, r.rd, j)} :: r.pending <= j < r.size ==> Word(mem, r.rd, j) == silence)
    && (r.pending > 0 ==> r.wr == Place(r.rd + r.pending, r.size))
  }

  function Word(mem: seq<nat>, a: nat, j: nat): nat
    requires |mem| > 0
  {
    mem[Place(a + j, |mem|)]
  }

  lemma LappedSilence(mem: seq<nat>, c: nat, silence: nat, j: nat)
    requires |mem| > 0 && j < |mem|
    ensures Word(StoreFrom(mem, c, Repeat(|mem|, silence)), c, j) == silence
  {
    StoreAt(mem, c, Repeat(|mem|, silence), c + j);
  }

  /** With nothing pending the whole ring is silence, from wherever it is looked at. */
  lemma AllSilent(r: Ring, mem: seq<nat>, silence: nat, a: nat)
    requires RingOk(r, mem, silence) && r.pending == 0
    ensures mem[Place(a, r.size)] == silence
  {
    PlaceOf(r.rd, a, r.size);
    assert Word(mem, r.rd, Place(a + r.size - r.rd, r.size)) == silence;
  }

  lemma IdleKeeps(r: Ring, mem: seq<nat>, c: nat, silence: nat)
    requires RingOk(r, mem, silence) && r.pending == 0 && c < r.size
    ensures RingOk(r.(rd := c), mem, silence)
  {
    forall j | 0 <= j < r.size ensures Word(mem, c, j) == silence { AllSilent(r, mem, silence, c + j); }
  }

  lemma LappedKeeps(r: Ring, mem: seq<nat>, c: nat, silence: nat)
    requires RingOk(r, mem, silence) && c < r.size
    ensures RingOk(r.(rd := c, pending := 0), StoreFrom(mem, c, Repeat(r.size, silence)), silence)
  {
    var m := StoreFrom(mem, c, Repeat(r.size, silence));
    forall j | 0 <= j < r.size ensures Word(m, c, j) == silence { LappedSilence(mem, c, silence, j); }
  }

  /** The engine may have moved anywhere, and the clock may be wrong: what it passed is silenced. */
  lemma ServiceKeeps(r: Ring, mem: seq<nat>, cur: nat, expected: nat, silence: nat)
    requires RingOk(r, mem, silence)
    ensures var a := Service(r, mem, cur, expected, silence);
            RingOk(a.r, a.mem, silence) && a.r.wr == r.wr && a.r.size == r.size
  {
    if r.pending == 0 {
      IdleKeeps(r, mem, Place(cur, r.size), silence);
    } else if Consumed(r, cur, expected) >= r.size {
      LappedKeeps(r, mem, Place(cur, r.size), silence);
    } else {
      AdvanceKeeps(r, mem, cur, expected, silence);
    }
  }

  /** Every place is some number of words, less than a lap, on from place `rd`. */
  lemma PlaceOf(rd: nat, a: nat, n: nat)
    requires n > 0 && rd < n
    ensures Place(rd + Place(a + n - rd, n), n) == Place(a, n)
  {
    SamePlace(Place(a + n - rd, n), a + n - rd, rd, n);
  }

  lemma Reached(r: Ring, cur: nat, expected: nat)
    requires RingSane(r) && Consumed(r, cur, expected) < r.size
    ensures Place(r.rd + Consumed(r, cur, expected), r.size) == Place(cur, r.size)
  {
    PlaceOf(r.rd, Place(cur, r.size), r.size);
  }

  lemma AdvanceKeeps(r: Ring, mem: seq<nat>, cur: nat, expected: nat, silence: nat)
    requires RingOk(r, mem, silence) && r.pending > 0 && Consumed(r, cur, expected) < r.size
    ensures var a := Service(r, mem, cur, expected, silence); RingOk(a.r, a.mem, silence)
  {
    var d, n := Consumed(r, cur, expected), r.size;
    var a := Service(r, mem, cur, expected, silence);
    Reached(r, cur, expected);
    forall j | a.r.pending <= j < n ensures Word(a.mem, a.r.rd, j) == silence {
      SamePlace(a.r.rd, r.rd + d, j, n);
      SilencedWord(r, mem, d, silence, d + j);
    }
    if d < r.pending {
      SamePlace(a.r.rd, r.rd + d, r.pending - d, n);
    }
  }

  /** After silencing `d` played words, a word further on is silent unless it is pending still. */
  lemma SilencedWord(r: Ring, mem: seq<nat>, d: nat, silence: nat, j: nat)
    requires RingOk(r, mem, silence) && d < r.size && d <= j < d + r.size && (j >= r.pending || d >= r.pending)
    ensures Word(StoreFrom(mem, r.rd, Repeat(d, silence)), r.rd, j) == silence
  {
    var n := r.size;
    if j < n {
      StoreAt(mem, r.rd, Repeat(d, silence), r.rd + j);
      assert Word(mem, r.rd, j) == silence;
    } else {
      StoreAt(mem, r.rd, Repeat(d, silence), r.rd + (j - n));
    }
  }

  /** The write position keeps its parity, and is where the pending region ends. */
  lemma ResyncKeeps(r: Ring, mem: seq<nat>, lead: nat, silence: nat)
    requires RingOk(r, mem, silence) && r.size % 2 == 0
    ensures var r' := Resync(r, lead);
            RingOk(r', mem, silence) && r'.wr == Place(r'.rd + r'.pending, r'.size) && r'.wr % 2 == r.wr % 2 &&
            r'.rd == r.rd && r'.size == r.size && r'.pending >= r.pending
  {
    if r.pending == 0 {
      ResyncPlace(r, lead);
      ResyncParity(r, lead);
      var r' := Resync(r, lead);
      forall j | r'.pending <= j < r.size ensures Word(mem, r.rd, j) == silence {}
    }
  }

  lemma StartPlace(r: Ring, w: nat)
    requires RingSane(r) && w < r.size
    ensures RingSane(StartAt(r, w)) && w == Place(r.rd + StartAt(r, w).pending, r.size)
  {
    PlaceOf(r.rd, w, r.size);
  }

  lemma ResyncPlace(r: Ring, lead: nat)
    requires RingSane(r) && r.pending == 0
    ensures var r' := Resync(r, lead); RingSane(r') && r'.wr == Place(r'.rd + r'.pending, r'.size)
  {
    StartPlace(r, Resync(r, lead).wr);
  }

  /** The next place, in a ring of even size, has the other parity. */
  lemma NextParity(w: nat, n: nat)
    requires n % 2 == 0 && w < n
    ensures Place(w + 1, n) % 2 != w % 2
  {
  }

  lemma ResyncParity(r: Ring, lead: nat)
    requires RingSane(r) && r.pending == 0 && r.size % 2 == 0
    ensures Resync(r, lead).wr % 2 == r.wr % 2
  {
    NextParity(Place(r.rd + lead, r.size), r.size);
  }

  /** `words` written at the write position and committed. */
  function Written(mem: seq<nat>, r: Ring, words: seq<nat>): (m: seq<nat>)
    requires |mem| > 0
    ensures |m| == |mem|
  {
    StoreFrom(mem, r.wr, words)
  }

  lemma WrittenWord(r: Ring, mem: seq<nat>, words: seq<nat>, j: nat)
    requires RingSane(r) && |mem| == r.size && r.wr == Place(r.rd + r.pending, r.size)
    requires |words| <= Space(r) && j < r.size
    ensures Word(Written(mem, r, words), r.rd, j) ==
            if r.pending <= j < r.pending + |words| then words[j - r.pending] else Word(mem, r.rd, j)
  {
    var n := r.size;
    StoreShift(mem, r.wr, r.rd + r.pending, words);
    if r.pending <= j {
      StoreAt(mem, r.rd + r.pending, words, r.rd + j);
    } else {
      StoreAt(mem, r.rd + r.pending, words, r.rd + j + n);
    }
  }

  lemma CommitPlace(r: Ring, n: nat)
    requires RingSane(r) && r.wr == Place(r.rd + r.pending, r.size)
    ensures Commit(r, n).wr == Place(r.rd + (r.pending + n), r.size)
  {
    Onward(r.rd + r.pending, n, r.size);
  }

  /** Writing into the free region and committing it keeps the rest silent. */
  lemma WriteKeeps(r: Ring, mem: seq<nat>, words: seq<nat>, silence: nat)
    requires RingOk(r, mem, silence) && r.wr == Place(r.rd + r.pending, r.size) && |words| <= Space(r)
    ensures RingOk(Commit(r, |words|), Written(mem, r, words), silence)
  {
    var r', m := Commit(r, |words|), Written(mem, r, words);
    CommitPlace(r, |words|);
    forall j | r'.pending <= j < r.size ensures Word(m, r.rd, j) == silence {
      WrittenWord(r, mem, words, j);
      assert Word(mem, r.rd, j) == silence;
    }
  }

  /** In an even ring, `n` places on is the parity `n` on. */
  lemma OnwardParity(w: nat, m: nat, n: nat)
    requires n % 2 == 0 && w < n && m < n
    ensures Place(w + m, n) % 2 == (w + m) % 2
  {
  }

  /** In an even ring the write position has the parity of the number of words committed. */
  lemma CommitParity(r: Ring, n: nat, total: nat)
    requires RingSane(r) && r.size % 2 == 0 && r.wr % 2 == total % 2 && n < r.size
    ensures Commit(r, n).wr % 2 == (total + n) % 2
  {
    OnwardParity(r.wr, n, r.size);
  }
}
