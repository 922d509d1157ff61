/** The driver's ring and its bookkeeping, changed in place by the service and the writer. */
module AudioDriver {
  import opened RingPlaces
  import opened AudioRing
  import opened AudioStream

  const RING_WORDS := 16384
  const RESYNC_LEAD := 256
  const MAX_WAITS := 20000

  /** What the hardware shows at one pass: the engine's cursor, and the words the clock says it played. */
  datatype Reading = Reading(cur: nat, expected: nat)

  class Driver {
    const ring: array<nat>
    var wr: nat
    var rd: nat
    var pending: nat
    /** The duties of all samples committed since the start, in order. */
    ghost var sent: seq<nat>

    ghost function R(): Ring
      reads this
    {
      Ring(ring.Length, wr, rd, pending)
    }

    /** Outside the pending words the ring is silence, and the writer is on its channel. */
    ghost predicate Valid()
      reads this, ring
    {
      RingOk(R(), ring[..], SILENCE) && ring.Length % 2 == 0 && wr % 2 == |sent| % 2
    }

    constructor ()
      ensures Valid() && fresh(ring) && ring.Length == RING_WORDS && pending == 0 && sent == []
    {
      ring := new nat[RING_WORDS](_ => SILENCE);
      wr, rd, pending, sent := 0, 0, 0, [];
      new;
      forall j | 0 <= j < RING_WORDS ensures Word(ring[..], rd, j) == SILENCE {}
    }

    /** `n` words of silence from `start` on, a lap at most. */
    method Fill(start: nat, n: nat) returns (filled: nat)
      requires ring.Length > 0
      modifies ring
      ensures filled == Min(n, ring.Length)
      ensures ring[..] == StoreFrom(old(ring[..]), start, Repeat(filled, SILENCE))
    {
      filled := if n > ring.Length then ring.Length else n;
      var p := Modulo(start, ring.Length);
      for i := 0 to filled
        invariant p == Place(start + i, ring.Length)
        invariant StoreFrom(ring[..], start + i, Repeat(filled - i, SILENCE)) ==
                  StoreFrom(old(ring[..]), start, Repeat(filled, SILENCE))
      {
        assert Repeat(filled - i, SILENCE)[1..] == Repeat(filled - i - 1, SILENCE);
        ring[p] := SILENCE;
        Onward(start + i, 1, ring.Length);
        p := if p + 1 == ring.Length then 0 else p + 1;
      }
    }

    method Moved(cur: nat, expected: nat) returns (d: nat)
      requires ring.Length > 0 && rd < ring.Length
      ensures d == Consumed(R(), cur, expected)
    {
      var n := ring.Length;
      d := Modulo(cur, n);
      d := Modulo(d + n - rd, n);
      if d != 0 && expected >= d + n / 2 { d := n; }
    }

    /** Catches up with the engine and silences what it has played. */
    method RingService(x: Reading)
      requires Valid()
      modifies this`rd, this`pending, ring
      ensures Valid()
      ensures var a := Service(old(R()), old(ring[..]), x.cur, x.expected, SILENCE); R() == a.r && ring[..] == a.mem
    {
      ServiceKeeps(R(), ring[..], x.cur, x.expected, SILENCE);
      var d := Moved(x.cur, x.expected);
      var c := Modulo(x.cur, ring.Length);
      if pending == 0 {
        rd := c;
      } else if d >= ring.Length {
        var f := Fill(c, ring.Length);
        rd := c;
        pending := 0;
      } else {
        var f := Fill(rd, d);
        rd := c;
        pending := if d >= pending then 0 else pending - d;
      }
    }

    /** If the ring ran dry, the writer starts again ahead of the cursor, on the channel it left off. */
    method Restart(lead: nat)
      requires Valid()
      modifies this`wr, this`pending
      ensures Valid() && R() == Resync(old(R()), lead) && wr == Place(rd + pending, ring.Length)
    {
      ResyncKeeps(R(), ring[..], lead, SILENCE);
      if pending == 0 {
        var w := StartPlace(lead);
        var p := Modulo(w + ring.Length - rd, ring.Length);
        wr, pending := w, p;
      }
    }

    method StartPlace(lead: nat) returns (w: nat)
      requires RingSane(R()) && pending == 0
      ensures w < ring.Length && Resync(R(), lead) == StartAt(R(), w)
    {
      var n := ring.Length;
      w := Modulo(rd + lead, n);
      if (w + n - wr) % 2 != 0 { w := Modulo(w + 1, n); }
    }

    /** Stores the duties of `k` samples at the write position and commits them. */
    method Store(s: seq<int>, done: nat, k: nat)
      requires Valid() && wr == Place(rd + pending, ring.Length) && pending + k < ring.Length
      requires done + k <= |s| && forall i :: 0 <= i < |s| ==> -32768 <= s[i] < 32768
      modifies this`wr, this`pending, this`sent, ring
      ensures Valid() && R() == Commit(old(R()), k) && sent == old(sent) + Duties(s, done, done + k)
      ensures ring[..] == Written(old(ring[..]), old(R()), Duties(s, done, done + k))
    {
      ghost var ws := Duties(s, done, done + k);
      WriteKeeps(R(), ring[..], ws, SILENCE);
      CommitParity(R(), k, |sent|);
      StoreWords(s, done, k);
      CommitWords(k);
      sent := sent + ws;
    }

    method CommitWords(k: nat)
      requires ring.Length > 0
      modifies this`wr, this`pending
      ensures R() == Commit(old(R()), k)
    {
      wr := Modulo(wr + k, ring.Length);
      pending := pending + k;
    }

    method StoreWords(s: seq<int>, done: nat, k: nat)
      requires ring.Length > 0 && done + k <= |s| && forall i :: 0 <= i < |s| ==> -32768 <= s[i] < 32768
      modifies ring
      ensures ring[..] == StoreFrom(old(ring[..]), wr, Duties(s, done, done + k))
    {
      ghost var ws := Duties(s, done, done + k);
      for i := 0 to k
        invariant StoreFrom(ring[..], wr + i, ws[i..]) == StoreFrom(old(ring[..]), wr, ws)
      {
        var p := Modulo(wr + i, ring.Length);
        ring[p] := Duty(s[done + i]);
        assert ws[i..][1..] == ws[i + 1..];
      }
    }

    /** One pass of the writer; `k` samples are taken. */
    method Pass(s: seq<int>, done: nat, x: Reading) returns (k: nat)
      requires Valid() && done < |s| && forall i :: 0 <= i < |s| ==> -32768 <= s[i] < 32768
      modifies this, ring
      ensures Valid() && done + k <= |s| && sent == old(sent) + Duties(s, done, done + k)
      ensures var a := Service(old(R()), old(ring[..]), x.cur, x.expected, SILENCE);
              var r := Resync(a.r, RESYNC_LEAD);
              && k == Min(Space(r), |s| - done)
              && R() == Commit(r, k) && ring[..] == Written(a.mem, r, Duties(s, done, done + k))
    {
      RingService(x);
      Restart(RESYNC_LEAD);
      k := ring.Length - 1 - pending;
      if k > |s| - done { k := |s| - done; }
      Store(s, done, k);
    }

    /**
     * Writes samples as room opens up behind the cursor, one pass per reading of the
     * hardware; gives up after too many passes without room.
     */
    method RingWrite(s: seq<int>, readings: seq<Reading>) returns (done: nat, stalled: bool)
      requires Valid() && forall i :: 0 <= i < |s| ==> -32768 <= s[i] < 32768
      modifies this, ring
      ensures Valid() && done <= |s| && sent == old(sent) + Duties(s, 0, done)
      ensures stalled ==> |readings| > MAX_WAITS && done < |s|
    {
      done, stalled := 0, false;
      var waits, i := 0, 0;
      while done < |s| && i < |readings| && !stalled
        invariant Valid() && done <= |s| && sent == old(sent) + Duties(s, 0, done) && i <= |readings| && waits <= i
        invariant stalled ==> waits > MAX_WAITS && done < |s|
        decreases |readings| - i
      {
        var k := Pass(s, done, readings[i]);
        DutiesJoin(s, done, done + k);
        done := done + k;
        waits := if k == 0 then waits + 1 else 0;
        stalled := waits > MAX_WAITS;
        i := i + 1;
      }
    }
  }

  lemma DutiesJoin(s: seq<int>, mid: nat, hi: nat)
    requires mid <= hi <= |s| && forall i :: 0 <= i < |s| ==> -32768 <= s[i] < 32768
    ensures Duties(s, 0, mid) + Duties(s, mid, hi) == Duties(s, 0, hi)
  {
  }

  /** The duties of samples `lo` to `hi`. */
  function Duties(s: seq<int>, lo: nat, hi: nat): (r: seq<nat>)
    requires lo <= hi <= |s| && forall i :: 0 <= i < |s| ==> -32768 <= s[i] < 32768
    ensures |r| == hi - lo
  {
    seq<nat>(hi - lo, i requires 0 <= i < hi - lo => Duty(s[lo + i]))
  }
}
