/**
 * The sample buffer, which the driver changes under its lock, and a reader of it, whose
 * offset a read loads and stores after it has let go of the lock.
 */
module SampleBuffer {
  import opened RingPlaces
  import opened SampleRing

  class Buffer {
    const buf: array<nat>
    const sampleSize: nat
    var written: nat
    var nextWakeup: nat
    /** Every byte written so far. */
    ghost var stream: seq<nat>

    ghost function C(): Ctx
      reads this, buf
    {
      Ctx(sampleSize, buf[..], stream, nextWakeup)
    }

    ghost predicate Valid()
      reads this, buf
    {
      CtxOk(C()) && written == |stream|
    }

    constructor (exp: nat, sampleSize: nat)
      requires InitOk(exp, sampleSize)
      ensures Valid() && fresh(buf) && buf.Length == Power(exp) && stream == [] && nextWakeup == 0
      ensures this.sampleSize == sampleSize
    {
      PowerPositive(exp);
      buf := new nat[Power(exp)];
      this.sampleSize := sampleSize;
      written, nextWakeup, stream := 0, 0, [];
    }

    /** Part of a transaction: the bytes go into the ring one by one. */
    method Write(data: seq<nat>)
      requires Valid()
      modifies this`written, this`stream, buf
      ensures Valid() && C() == Put(old(C()), data)
    {
      PutKeeps(C(), data);
      for i := 0 to |data|
        invariant written == |stream| && Put(C(), data[i..]) == Put(old(C()), data)
      {
        var p := Modulo(written, buf.Length);
        ghost var c := C();
        buf[p] := data[i];
        stream := stream + [data[i]];
        written := written + 1;
        assert C() == PutByte(c, data[i]);
        assert data[i..][1..] == data[i + 1..];
      }
    }

    /** The end of a transaction: whether the waiting readers are woken. */
    method WriteEnd() returns (broadcast: bool)
      requires Valid()
      modifies this`nextWakeup
      ensures Valid() && broadcast == (old(nextWakeup) <= written)
      ensures nextWakeup == if broadcast then NEVER else old(nextWakeup)
    {
      broadcast := nextWakeup <= written;
      CtxCarries(C(), C().(nextWakeup := if broadcast then NEVER else nextWakeup));
      if broadcast { nextWakeup := NEVER; }
    }

    /** The locked part of a read by a reader at `offs`: what it is answered. */
    method Read(open: bool, offs: nat, size: nat) returns (r: Reply)
      requires Valid()
      ensures r == Answer(C(), Reader(offs, open, 0, 0, [], []), size)
      ensures r.Data? ==> |r.bytes| <= size && offs + |r.bytes| <= |stream| && r.bytes == stream[offs..offs + |r.bytes|]
    {
      if !open { return BadF; }
      if offs > written || written - offs > buf.Length - 1 { return Pipe; }
      var ready := written - offs;
      var n := if size > ready then ready else size;
      SliceTrue(C(), offs, n);
      var data := CopyOut(offs, n);
      r := Data(data);
    }

    /** The copy is made in one piece, or in two around the end of the buffer. */
    method CopyOut(offs: nat, n: nat) returns (data: seq<nat>)
      requires n < buf.Length
      ensures data == Slice(buf[..], offs, n)
    {
      var start := Modulo(offs, buf.Length);
      var end := Modulo(offs + n, buf.Length);
      Wrapped(buf[..], offs, n);
      data := [];
      if start < end {
        data := buf[start..end];
      } else if end < start {
        data := buf[start..start + (n - end)] + buf[..end];
      }
    }

    /** The offset at which a reader starts: the beginning of the sample being written. */
    method OpenAt() returns (offs: nat)
      requires Valid() && sampleSize > 0
      ensures offs <= written && offs % sampleSize == 0 && written - offs < sampleSize < buf.Length
      ensures offs == written - written % sampleSize
    {
      Aligned(written, sampleSize);
      offs := written - written % sampleSize;
    }

    /** A blocking reader that must wait lowers the threshold to its own need. */
    method Await(needed: nat)
      requires Valid()
      modifies this`nextWakeup
      ensures Valid() && nextWakeup <= needed && nextWakeup == (if old(nextWakeup) > needed then needed else old(nextWakeup))
    {
      CtxCarries(C(), C().(nextWakeup := if nextWakeup > needed then needed else nextWakeup));
      if nextWakeup > needed { nextWakeup := needed; }
    }
  }

  /** The reader's own fields, and the history of the model's reader. */
  class ReaderSlot {
    var offs: nat
    var open: bool
    ghost var epoch: nat
    ghost var base: nat
    ghost var taken: seq<nat>
    ghost var got: seq<nat>

    ghost function R(): SampleRing.Reader
      reads this
    {
      SampleRing.Reader(offs, open, epoch, base, taken, got)
    }

    constructor ()
      ensures R() == SampleRing.Reader(0, false, 0, 0, [], [])
    {
      offs, open, epoch, base, taken, got := 0, false, 0, 0, [], [];
    }

    /** Under the lock: from the start of the sample being written. */
    method Open(b: Buffer)
      requires b.Valid() && b.sampleSize > 0
      modifies this
      ensures R() == Opened(old(R()), |b.stream| - |b.stream| % b.sampleSize)
    {
      var a := b.OpenAt();
      offs, open := a, true;
      epoch, base, taken, got := epoch + 1, a, [], [];
    }

    /** Under the lock; whether the waiting readers are woken. */
    method Close() returns (broadcast: bool)
      modifies this`offs, this`open
      ensures broadcast == old(open)
      ensures R() == if broadcast then old(R()).(open := false, offs := 0) else old(R())
    {
      broadcast := open;
      if open { offs, open := 0, false; }
    }

    /** Under the lock: the bytes from the reader's offset. */
    method Copy(b: Buffer, size: nat) returns (r: Reply)
      requires b.Valid()
      ensures r == Answer(b.C(), R(), size)
      ensures r.Data? ==> CallOk(b.C(), R(), Copied(epoch, offs, r.bytes))
    {
      r := b.Read(open, offs, size);
    }

    /** Without the lock: the end of a read that loaded the offset as `seen`. */
    method Store(ghost p: Phase, seen: nat, n: nat)
      requires p.Loaded? && p.seen == seen && |p.bytes| == n
      modifies this
      ensures R() == Stored(old(R()), p)
    {
      offs := seen + n;
      if p.epoch == epoch {
        taken, got := taken + Span(p.at, n), got + p.bytes;
      }
    }
  }

  /** Less than a lap of the ring is one run of places, or two when it wraps. */
  lemma Wrapped(buf: seq<nat>, a: nat, n: nat)
    requires 0 < |buf| && n < |buf|
    ensures var s, e := Place(a, |buf|), Place(a + n, |buf|);
            && (s == e ==> n == 0)
            && (s < e ==> s + n == e && Slice(buf, a, n) == buf[s..e])
            && (e < s ==> e <= n && s + (n - e) == |buf| && Slice(buf, a, n) == buf[s..] + buf[..e])
  {
    var s, e := Place(a, |buf|), Place(a + n, |buf|);
    Onward(a, n, |buf|);
    forall i | 0 <= i < n ensures Slice(buf, a, n)[i] == if s + i < |buf| then buf[s + i] else buf[s + i - |buf|] {
      Onward(a, i, |buf|);
    }
  }
}
