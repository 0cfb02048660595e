/** The framed wire protocol and its incremental decoder. */
module Framing {
  import opened Types
  import opened Codec
  import opened ByteStreams
  import Crc

  const FRAME_MAGIC: nat := 0x5246_4246
  const FRAME_VERSION: Byte := 1
  const MAX_PAYLOAD: nat := 0x10_0000
  const HEADER_SIZE: nat := 14

  datatype Frame = Frame(kind: Byte, payload: seq<Byte>)

  datatype Scan = NeedMore | Malformed | Found(frame: Frame, used: nat)

  predicate Sendable(f: Frame) {
    |f.payload| <= MAX_PAYLOAD
  }

  /** The check value over the type byte and the payload. */
  function Checksum(f: Frame): (n: nat)
    ensures n < U32_LIMIT
  {
    Crc.NumberBound(Crc.CrcFrom(Crc.SEED, [f.kind] + f.payload));
    Crc.Number(Crc.CrcFrom(Crc.SEED, [f.kind] + f.payload))
  }

  function Header(f: Frame, check: nat): (h: seq<Byte>)
    ensures |h| == HEADER_SIZE
  {
    LittleEndian(FRAME_MAGIC, 4) + [FRAME_VERSION] + [f.kind] + LittleEndian(|f.payload|, 4) + LittleEndian(check, 4)
  }

  function EncodeFrame(f: Frame): seq<Byte> {
    Header(f, Checksum(f)) + f.payload
  }

  /** Looks for one frame at the front of a buffer. */
  function ScanFrame(b: seq<Byte>): (r: Scan)
    ensures r.Found? ==> 0 < r.used <= |b|
  {
    if |b| < HEADER_SIZE then NeedMore
    else
      var magic, version, kind := FromLittleEndian(b[..4]), b[4], b[5];
      var size, check := FromLittleEndian(b[6..10]), FromLittleEndian(b[10..14]);
      if magic != FRAME_MAGIC then Malformed
      else if version != FRAME_VERSION then Malformed
      else if size > MAX_PAYLOAD then Malformed
      else if |b| < HEADER_SIZE + size then NeedMore
      else
        var f := Frame(kind, b[HEADER_SIZE..HEADER_SIZE + size]);
        if Checksum(f) != check then Malformed else Found(f, HEADER_SIZE + size)
  }

  method WriteHeader(w: ByteWriter, f: Frame, check: nat)
    modifies w
    ensures w.buf == old(w.buf) + Header(f, check)
  {
    hide LittleEndian, Crc.CrcFrom, Crc.Number;
    w.U32(FRAME_MAGIC);
    w.U8(FRAME_VERSION);
    w.U8(f.kind);
    w.U32(|f.payload|);
    w.U32(check);
  }

  method WriteBytes(w: ByteWriter, bytes: seq<Byte>)
    modifies w
    ensures w.buf == old(w.buf) + bytes
  {
    for i := 0 to |bytes|
      invariant w.buf == old(w.buf) + bytes[..i]
    {
      w.U8(bytes[i]);
    }
  }

  /** A frame with an oversized payload is refused. */
  method Send(f: Frame) returns (out: Option<seq<Byte>>)
    ensures out == if Sendable(f) then Some(EncodeFrame(f)) else None
  {
    hide Header, Crc.CrcFrom, Crc.Number;
    if |f.payload| > MAX_PAYLOAD {
      return None;
    }
    var w := new ByteWriter();
    var crc := Crc.Crc32([f.kind] + f.payload, Crc.SEED);
    WriteHeader(w, f, Crc.Number(crc));
    assert w.buf == Header(f, Checksum(f));
    WriteBytes(w, f.payload);
    out := Some(w.buf);
  }

  class FrameDecoder {
    var buf: seq<Byte>

    constructor ()
      ensures buf == []
    {
      buf := [];
    }

    /** Appends what arrived and takes at most one frame off the front. */
    method Push(data: seq<Byte>) returns (r: Scan)
      modifies this
      ensures r == ScanFrame(old(buf) + data)
      ensures buf == if r.Found? then (old(buf) + data)[r.used..] else old(buf) + data
    {
      hide FromLittleEndian;
      buf := buf + data;
      if |buf| < HEADER_SIZE {
        return NeedMore;
      }
      var hdr := new ByteReader(buf);
      var magic := hdr.Fixed(4);
      var version := hdr.Fixed(1);
      var kind := hdr.Fixed(1);
      var size := hdr.Fixed(4);
      var check := hdr.Fixed(4);
      HeaderFields(buf);
      if magic.value != FRAME_MAGIC {
        return Malformed;
      }
      if version.value != FRAME_VERSION {
        return Malformed;
      }
      if size.value > MAX_PAYLOAD {
        return Malformed;
      }
      if |buf| < HEADER_SIZE + size.value {
        return NeedMore;
      }
      var payload := buf[HEADER_SIZE..HEADER_SIZE + size.value];
      var crc := Crc.Crc32([kind.value] + payload, Crc.SEED);
      if Crc.Number(crc) != check.value {
        return Malformed;
      }
      r := Found(Frame(kind.value, payload), HEADER_SIZE + size.value);
      buf := buf[HEADER_SIZE + size.value..];
    }
  }

  /** Where the header reader finds its five fields. */
  lemma HeaderFields(b: seq<Byte>)
    requires |b| >= HEADER_SIZE
    ensures b[0..][..4] == b[..4] && b[4..][..1] == [b[4]] && b[5..][..1] == [b[5]] && b[6..][..4] == b[6..10] && b[10..][..4] == b[10..14]
    ensures FromLittleEndian([b[4]]) == b[4] && FromLittleEndian([b[5]]) == b[5]
  {
    assert forall x: Byte :: FromLittleEndian([x]) == x + 256 * FromLittleEndian([x][1..]);
  }

  // ---- one frame ----

  lemma HeaderParts(f: Frame, check: nat, suffix: seq<Byte>)
    requires check < U32_LIMIT && |f.payload| < U32_LIMIT
    ensures var b := Header(f, check) + suffix;
            && FromLittleEndian(b[..4]) == FRAME_MAGIC && b[4] == FRAME_VERSION && b[5] == f.kind
            && FromLittleEndian(b[6..10]) == |f.payload| && FromLittleEndian(b[10..14]) == check
  {
    hide LittleEndian, FromLittleEndian;
    PowValues();
    NumberRoundTrip(FRAME_MAGIC, 4);
    NumberRoundTrip(|f.payload|, 4);
    NumberRoundTrip(check, 4);
    var b := Header(f, check) + suffix;
    assert b[..4] == LittleEndian(FRAME_MAGIC, 4);
    assert b[6..10] == LittleEndian(|f.payload|, 4);
    assert b[10..14] == LittleEndian(check, 4);
  }

  /** Any header over any payload of its length is accepted exactly when its checksum matches. */
  lemma ScanHeader(f: Frame, check: nat, suffix: seq<Byte>)
    requires Sendable(f) && check < U32_LIMIT
    ensures ScanFrame(Header(f, check) + f.payload + suffix) ==
            if check == Checksum(f) then Found(f, HEADER_SIZE + |f.payload|) else Malformed
  {
    hide FromLittleEndian, Checksum, Header;
    var b := Header(f, check) + f.payload + suffix;
    assert b == Header(f, check) + (f.payload + suffix);
    HeaderParts(f, check, f.payload + suffix);
    assert b[HEADER_SIZE..HEADER_SIZE + |f.payload|] == f.payload;
  }

  lemma ScanEncoded(f: Frame, suffix: seq<Byte>)
    requires Sendable(f)
    ensures ScanFrame(EncodeFrame(f) + suffix) == Found(f, |EncodeFrame(f)|)
  {
    ScanHeader(f, Checksum(f), suffix);
  }

  /** A strict prefix of an encoded frame is never rejected: the decoder waits. */
  lemma ScanPrefix(f: Frame, n: nat)
    requires Sendable(f) && n < |EncodeFrame(f)|
    ensures ScanFrame(EncodeFrame(f)[..n]) == NeedMore
  {
    hide FromLittleEndian, Checksum, Header;
    var b := EncodeFrame(f)[..n];
    if n >= HEADER_SIZE {
      var part := f.payload[..n - HEADER_SIZE];
      assert b == Header(f, Checksum(f)) + part;
      HeaderParts(f, Checksum(f), part);
    }
  }

  /** A verdict other than waiting stands whatever arrives afterwards. */
  lemma ScanMonotone(b: seq<Byte>, more: seq<Byte>)
    ensures ScanFrame(b) == NeedMore || ScanFrame(b + more) == ScanFrame(b)
  {
    hide FromLittleEndian, Checksum;
    var c := b + more;
    if |b| >= HEADER_SIZE {
      assert c[..4] == b[..4] && c[6..10] == b[6..10] && c[10..14] == b[10..14];
      var size := FromLittleEndian(b[6..10]);
      if |b| >= HEADER_SIZE + size {
        assert c[HEADER_SIZE..HEADER_SIZE + size] == b[HEADER_SIZE..HEADER_SIZE + size];
      }
    }
  }

  // ---- streams ----

  /** What a receiver has: the frames taken off, the bytes left, whether the stream is broken. */
  datatype Received = Received(frames: seq<Frame>, rest: seq<Byte>, broken: bool)

  function Drain(b: seq<Byte>): Received
    decreases |b|
  {
    match ScanFrame(b)
    case NeedMore => Received([], b, false)
    case Malformed => Received([], b, true)
    case Found(f, n) =>
      var d := Drain(b[n..]);
      Received([f] + d.frames, d.rest, d.broken)
  }

  /** After a chunk arrives, frames are taken off with empty pushes until none is complete. */
  function Arrive(r: Received, chunk: seq<Byte>): Received {
    var d := Drain(r.rest + chunk);
    Received(r.frames + d.frames, d.rest, d.broken)
  }

  function ArriveAll(chunks: seq<seq<Byte>>): Received {
    if chunks == [] then Received([], [], false) else Arrive(ArriveAll(chunks[..|chunks| - 1]), chunks[|chunks| - 1])
  }

  function Joined(chunks: seq<seq<Byte>>): seq<Byte> {
    if chunks == [] then [] else Joined(chunks[..|chunks| - 1]) + chunks[|chunks| - 1]
  }

  /** A receiver: one chunk, then empty pushes while frames come. */
  method Deliver(d: FrameDecoder, chunk: seq<Byte>) returns (frames: seq<Frame>, broken: bool)
    modifies d
    ensures Received(frames, d.buf, broken) == Drain(old(d.buf) + chunk)
  {
    hide ScanFrame;
    var r := d.Push(chunk);
    frames := [];
    ghost var whole := old(d.buf) + chunk;
    while r.Found?
      invariant r.Found? ==> Drain(whole) == Prepend(frames + [r.frame], Drain(d.buf))
      invariant !r.Found? ==> ScanFrame(d.buf) == r && Drain(whole) == Prepend(frames, Drain(d.buf))
      decreases if r.Found? then |d.buf| + 1 else 0
    {
      frames := frames + [r.frame];
      ghost var before := d.buf;
      r := d.Push([]);
      assert before + [] == before;
      PrependTwice(frames, before);
    }
    broken := r.Malformed?;
    assert frames + [] == frames;
  }

  ghost function Prepend(frames: seq<Frame>, r: Received): Received {
    Received(frames + r.frames, r.rest, r.broken)
  }

  lemma PrependTwice(frames: seq<Frame>, b: seq<Byte>)
    ensures var r := ScanFrame(b);
            r.Found? ==> Prepend(frames, Drain(b)) == Prepend(frames + [r.frame], Drain(b[r.used..]))
  {
    hide ScanFrame;
    var r := ScanFrame(b);
    if r.Found? {
      var d := Drain(b[r.used..]);
      assert frames + ([r.frame] + d.frames) == frames + [r.frame] + d.frames;
    }
  }

  /** Draining early and carrying on is draining late. */
  lemma {:induction false} DrainSplits(a: seq<Byte>, b: seq<Byte>)
    ensures var d := Drain(a); Drain(a + b) == Prepend(d.frames, Drain(d.rest + b))
    ensures Drain(a).broken ==> Drain(a + b) == Received(Drain(a).frames, Drain(a).rest + b, true)
    decreases |a|
  {
    hide ScanFrame;
    ScanMonotone(a, b);
    var r := ScanFrame(a);
    var e := Drain(a + b);
    if r.Found? {
      DrainSplits(a[r.used..], b);
      assert (a + b)[r.used..] == a[r.used..] + b;
      var d := Drain(a[r.used..]);
      var g := Drain(d.rest + b);
      assert [r.frame] + (d.frames + g.frames) == [r.frame] + d.frames + g.frames;
    } else {
      assert [] + e.frames == e.frames;
    }
  }

  /** The frames received, the bytes left over and the verdict depend only on the bytes, never on
      how they were cut into chunks. */
  lemma {:induction false} ChunkingDoesNotMatter(chunks: seq<seq<Byte>>)
    ensures ArriveAll(chunks) == Drain(Joined(chunks))
    decreases |chunks|
  {
    hide ScanFrame;
    if chunks == [] {
      ShortBuffer([]);
    } else {
      ChunkingDoesNotMatter(chunks[..|chunks| - 1]);
      DrainSplits(Joined(chunks[..|chunks| - 1]), chunks[|chunks| - 1]);
    }
  }

  lemma ShortBuffer(b: seq<Byte>)
    requires |b| < HEADER_SIZE
    ensures ScanFrame(b) == NeedMore
  {
  }

  /** Once a stream is broken no chunk mends it and no frame follows. */
  lemma BrokenForGood(r: Received, chunk: seq<Byte>)
    requires r.broken && ScanFrame(r.rest) == Malformed
    ensures Arrive(r, chunk) == Received(r.frames, r.rest + chunk, true) && ScanFrame(r.rest + chunk) == Malformed
  {
    hide ScanFrame;
    ScanMonotone(r.rest, chunk);
    assert r.frames + [] == r.frames;
  }

  lemma {:induction false} BrokenMeansMalformed(b: seq<Byte>)
    ensures Drain(b).broken <==> ScanFrame(Drain(b).rest) == Malformed
    ensures !Drain(b).broken ==> ScanFrame(Drain(b).rest) == NeedMore
    decreases |b|
  {
    hide ScanFrame;
    var r := ScanFrame(b);
    if r.Found? { BrokenMeansMalformed(b[r.used..]); }
  }

  /** Whatever arrives after a stream has broken, in whatever chunks, it stays broken and the
      frames delivered stay the ones delivered before. */
  lemma {:induction false} BrokenStaysBroken(chunks: seq<seq<Byte>>, more: seq<seq<Byte>>)
    requires ArriveAll(chunks).broken
    ensures var r := ArriveAll(chunks); ArriveAll(chunks + more) == Received(r.frames, r.rest + Joined(more), true)
    decreases |more|
  {
    hide ScanFrame, Arrive;
    var r := ArriveAll(chunks);
    if more == [] {
      assert chunks + more == chunks && r.rest + [] == r.rest;
    } else {
      var before, last := more[..|more| - 1], more[|more| - 1];
      BrokenStaysBroken(chunks, before);
      assert (chunks + more)[..|chunks + more| - 1] == chunks + before;
      var x := ArriveAll(chunks + before);
      ChunkingDoesNotMatter(chunks + before);
      BrokenMeansMalformed(Joined(chunks + before));
      BrokenForGood(x, last);
      assert r.rest + Joined(before) + last == r.rest + (Joined(before) + last);
    }
  }

  function EncodeStream(frames: seq<Frame>): seq<Byte> {
    if frames == [] then [] else EncodeFrame(frames[0]) + EncodeStream(frames[1..])
  }

  ghost predicate AllSendable(frames: seq<Frame>) {
    forall f :: f in frames ==> Sendable(f)
  }

  lemma FramesSplit(frames: seq<Frame>, later: seq<Frame>)
    requires frames != []
    ensures [frames[0]] + (frames[1..] + later) == frames + later
  {
  }

  /** Every frame of a stream arrives, in order, and only what is not a whole frame stays behind. */
  lemma {:induction false} StreamArrives(frames: seq<Frame>, tail: seq<Byte>)
    requires AllSendable(frames)
    ensures Drain(EncodeStream(frames) + tail) == Prepend(frames, Drain(tail))
    decreases |frames|
  {
    hide ScanFrame, EncodeFrame, Sendable;
    if frames == [] {
      assert [] + tail == tail;
    } else {
      var f, more := frames[0], EncodeStream(frames[1..]);
      ScanEncoded(f, more + tail);
      StreamArrives(frames[1..], tail);
      HeadTail(EncodeFrame(f), more, tail);
      FramesSplit(frames, Drain(tail).frames);
    }
  }

  /** However a stream is chunked, its frames are delivered exactly, with nothing left. */
  lemma StreamIsDelivered(frames: seq<Frame>, chunks: seq<seq<Byte>>)
    requires AllSendable(frames) && Joined(chunks) == EncodeStream(frames)
    ensures ArriveAll(chunks) == Received(frames, [], false)
  {
    hide ScanFrame, Arrive;
    ChunkingDoesNotMatter(chunks);
    assert EncodeStream(frames) + [] == EncodeStream(frames);
    StreamArrives(frames, []);
    ShortBuffer([]);
  }

  /** While a stream is still arriving, the frames wholly inside what came are delivered and a
      strict prefix of the next one is buffered. */
  lemma PartialStream(frames: seq<Frame>, next: Frame, n: nat, chunks: seq<seq<Byte>>)
    requires AllSendable(frames) && Sendable(next) && n < |EncodeFrame(next)|
    requires Joined(chunks) == EncodeStream(frames) + EncodeFrame(next)[..n]
    ensures ArriveAll(chunks) == Received(frames, EncodeFrame(next)[..n], false)
  {
    hide ScanFrame, Arrive, EncodeFrame, Sendable;
    ChunkingDoesNotMatter(chunks);
    StreamArrives(frames, EncodeFrame(next)[..n]);
    ScanPrefix(next, n);
    assert frames + [] == frames;
  }

  /** What came of a stream so far is always whole frames and a strict prefix of the next. */
  lemma {:induction false} EveryCutIsPartial(frames: seq<Frame>, n: nat) returns (k: nat, m: nat)
    requires n < |EncodeStream(frames)|
    ensures k < |frames| && m < |EncodeFrame(frames[k])|
    ensures EncodeStream(frames)[..n] == EncodeStream(frames[..k]) + EncodeFrame(frames[k])[..m]
    decreases |frames|
  {
    hide EncodeFrame;
    var head := EncodeFrame(frames[0]);
    if n < |head| {
      k, m := 0, n;
      assert EncodeStream(frames)[..n] == head[..n];
    } else {
      var j, i := EveryCutIsPartial(frames[1..], n - |head|);
      k, m := j + 1, i;
      assert frames[1..][..j] == frames[..k][1..];
      assert EncodeStream(frames)[..n] == head + EncodeStream(frames[1..])[..n - |head|];
    }
  }

  // ---- corruption ----

  lemma ChecksumDiffers(f: Frame, g: Frame, at: nat)
    requires Crc.WithinBurst([f.kind] + f.payload, [g.kind] + g.payload, at) && f != g
    ensures Checksum(f) != Checksum(g)
  {
    hide Crc.CrcFrom, Crc.Number, Crc.SEED;
    var a, b := [f.kind] + f.payload, [g.kind] + g.payload;
    assert a[0] == f.kind && b[0] == g.kind && a[1..] == f.payload && b[1..] == g.payload;
    Crc.BurstDetected(Crc.SEED, a, b, at);
    if Checksum(f) == Checksum(g) {
      Crc.NumberInjective(Crc.CrcFrom(Crc.SEED, a), Crc.CrcFrom(Crc.SEED, b));
    }
  }

  /** A frame whose type and payload were altered only within four consecutive bytes is always
      rejected, whatever follows it. */
  lemma BurstIsRejected(f: Frame, g: Frame, at: nat, suffix: seq<Byte>)
    requires Sendable(f) && f != g && Crc.WithinBurst([f.kind] + f.payload, [g.kind] + g.payload, at)
    ensures ScanFrame(Header(g, Checksum(f)) + g.payload + suffix) == Malformed
  {
    hide Checksum, Header, ScanFrame;
    ChecksumDiffers(f, g, at);
    ScanHeader(g, Checksum(f), suffix);
  }

  /** So is one whose check value alone was altered. */
  lemma BadCheckIsRejected(f: Frame, check: nat, suffix: seq<Byte>)
    requires Sendable(f) && check < U32_LIMIT && check != Checksum(f)
    ensures ScanFrame(Header(f, check) + f.payload + suffix) == Malformed
  {
    hide Checksum, Header, ScanFrame;
    ScanHeader(f, check, suffix);
  }
}
