/** Length-prefixed, checksummed frames and the incremental stream decoder. */
module Wire {
  import opened Bytes
  import opened Crc32c

  const HEADER_BYTES := 20
  const MIN_MAX_FRAME_BYTES := 1024

  type FrameKind = k: int | 1 <= k <= 13 witness 1

  datatype Frame = Frame(kind: FrameKind, flags: u16, sequence: u64, body: seq<byte>)

  datatype Fault = InvalidArgument | FrameTooLarge | WireMalformed | FrameChecksumMismatch

  datatype Result<+T> = Ok(value: T) | Fail(fault: Fault)

  function ParseFrameKind(v: u16): Option<FrameKind> {
    if 1 <= v <= 13 then Some(v) else None
  }

  /** The frame layout: length, checksum of the body, kind, flags, sequence, body. */
  function FrameBytes(f: Frame): (b: seq<byte>)
    requires |f.body| < 0x1_0000_0000
    ensures |b| == HEADER_BYTES + |f.body|
  {
    LE(|f.body|, 4) + LE(Crc(f.body), 4) + LE(f.kind, 2) + LE(f.flags, 2) + LE(f.sequence, 8) + f.body
  }

  /** Reads a complete buffer as exactly one frame. */
  function DecodeFrame(data: seq<byte>, maxFrameBytes: u32): Result<Frame> {
    if |data| < HEADER_BYTES then Fail(WireMalformed)
    else
      var declared := FromLE(data[..4]);
      if declared > maxFrameBytes then Fail(FrameTooLarge)
      else if |data| != HEADER_BYTES + declared then Fail(WireMalformed)
      else if Crc(data[20..]) != FromLE(data[4..8]) then Fail(FrameChecksumMismatch)
      else
        Narrow(data[8..10]); Narrow(data[10..12]); Narrow(data[12..20]);
        match ParseFrameKind(FromLE(data[8..10]))
        case None => Fail(WireMalformed)
        case Some(kind) => Ok(Frame(kind, FromLE(data[10..12]), FromLE(data[12..20]), data[20..]))
  }

  // ---- one frame ----------------------------------------------------------------

  method EncodeFrame(frame: Frame, maxFrameBytes: u32) returns (r: Result<seq<byte>>)
    ensures r == if maxFrameBytes < MIN_MAX_FRAME_BYTES then Fail(InvalidArgument)
                 else if |frame.body| > maxFrameBytes then Fail(FrameTooLarge)
                 else Ok(FrameBytes(frame))
  {
    if maxFrameBytes < MIN_MAX_FRAME_BYTES { return Fail(InvalidArgument); }
    if |frame.body| > maxFrameBytes { return Fail(FrameTooLarge); }
    var w := new ByteWriter();
    w.U32(|frame.body|);
    var crc := Compute([frame.body]);
    assert Flat([frame.body]) == frame.body + Flat([]) == frame.body;
    w.U32(crc);
    w.U16(frame.kind);
    w.U16(frame.flags);
    w.U64(frame.sequence);
    w.Raw(frame.body);
    assert w.data == FrameBytes(frame);
    r := Ok(w.data);
  }

  lemma HeaderFields(f: Frame)
    requires |f.body| < 0x1_0000_0000
    ensures var b := FrameBytes(f);
            && FromLE(b[..4]) == |f.body| && FromLE(b[4..8]) == Crc(f.body) && FromLE(b[8..10]) == f.kind
            && FromLE(b[10..12]) == f.flags && FromLE(b[12..20]) == f.sequence && b[20..] == f.body
  {
    hide Crc, LE, FromLE;
    Widths();
    FromLEInvertsLE(|f.body|, 4);
    FromLEInvertsLE(Crc(f.body), 4);
    FromLEInvertsLE(f.kind, 2);
    FromLEInvertsLE(f.flags, 2);
    FromLEInvertsLE(f.sequence, 8);
    var b := FrameBytes(f);
    assert b[..4] == LE(|f.body|, 4) && b[4..8] == LE(Crc(f.body), 4);
    assert b[8..10] == LE(f.kind, 2) && b[10..12] == LE(f.flags, 2) && b[12..20] == LE(f.sequence, 8);
  }

  lemma DecodeInvertsEncode(f: Frame, maxFrameBytes: u32)
    requires |f.body| <= maxFrameBytes
    ensures DecodeFrame(FrameBytes(f), maxFrameBytes) == Ok(f)
  {
    HeaderFields(f);
  }

  /** A buffer that decodes is the encoding of what it decodes to, and of nothing else. */
  lemma EncodeInvertsDecode(data: seq<byte>, maxFrameBytes: u32)
    requires DecodeFrame(data, maxFrameBytes).Ok?
    ensures var f := DecodeFrame(data, maxFrameBytes).value;
            |f.body| <= maxFrameBytes && FrameBytes(f) == data
  {
    LEInvertsFromLE(data[..4]);
    LEInvertsFromLE(data[4..8]);
    LEInvertsFromLE(data[8..10]);
    LEInvertsFromLE(data[10..12]);
    LEInvertsFromLE(data[12..20]);
    assert data == data[..4] + data[4..8] + data[8..10] + data[10..12] + data[12..20] + data[20..];
  }

  /** Damage to any four consecutive body bytes is reported as a checksum mismatch. */
  lemma DamagedBodyRejected(f: Frame, at: nat, damage: seq<byte>, maxFrameBytes: u32)
    requires |f.body| <= maxFrameBytes
    requires |damage| <= 4 && at + |damage| <= |f.body| && damage != f.body[at..at + |damage|]
    ensures var b := FrameBytes(f);
            var from := HEADER_BYTES + at;
            DecodeFrame(b[..from] + damage + b[from + |damage|..], maxFrameBytes) == Fail(FrameChecksumMismatch)
  {
    var b := FrameBytes(f);
    var from := HEADER_BYTES + at;
    var d := b[..from] + damage + b[from + |damage|..];
    HeaderFields(f);
    assert d[..4] == b[..4] && d[4..8] == b[4..8];
    var before, after := f.body[..at], f.body[at + |damage|..];
    assert d[20..] == before + damage + after;
    assert f.body == before + f.body[at..at + |damage|] + after;
    BurstDetected(before, damage, f.body[at..at + |damage|], after);
  }

  // ---- the stream ---------------------------------------------------------------

  datatype Next = NeedMore | Emit(frame: Frame, rest: seq<byte>) | Bad(fault: Fault)

  /** What the stream does with its buffered bytes. */
  function NextFrame(buffer: seq<byte>, maxFrameBytes: u32): (n: Next)
    ensures n.Emit? ==> |n.rest| < |buffer|
  {
    if |buffer| < HEADER_BYTES then NeedMore
    else
      var declared := FromLE(buffer[..4]);
      if declared > maxFrameBytes then Bad(FrameTooLarge)
      else if |buffer| < HEADER_BYTES + declared then NeedMore
      else match DecodeFrame(buffer[..HEADER_BYTES + declared], maxFrameBytes)
        case Fail(fault) => Bad(fault)
        case Ok(frame) => Emit(frame, buffer[HEADER_BYTES + declared..])
  }

  class FrameStream {
    var buffer: seq<byte>
    var offset: nat
    const maxFrameBytes: u32

    ghost predicate Valid() reads this { offset <= |buffer| }

    ghost function Buffered(): seq<byte> reads this requires Valid() { buffer[offset..] }

    constructor (maxFrameBytes: u32)
      ensures Valid() && Buffered() == [] && this.maxFrameBytes == maxFrameBytes
    {
      buffer, offset := [], 0;
      this.maxFrameBytes := maxFrameBytes;
    }

    method Feed(bytes: seq<byte>)
      requires Valid()
      modifies this
      ensures Valid() && Buffered() == old(Buffered()) + bytes
    {
      if |bytes| == 0 { return; }
      buffer := buffer + bytes;
    }

    method NextUp() returns (n: Result<Option<Frame>>)
      requires Valid()
      modifies this
      ensures Valid()
      ensures match NextFrame(old(Buffered()), maxFrameBytes)
              case NeedMore => n == Ok(None) && Buffered() == old(Buffered())
              case Emit(frame, rest) => n == Ok(Some(frame)) && Buffered() == rest
              case Bad(fault) => n == Fail(fault) && Buffered() == old(Buffered())
    {
      if offset != 0 {
        buffer := buffer[offset..];
        offset := 0;
      }
      assert Buffered() == buffer == old(Buffered());
      if |buffer| < HEADER_BYTES { return Ok(None); }
      var declared := FromLE(buffer[..4]);
      if declared > maxFrameBytes { return Fail(FrameTooLarge); }
      var total := HEADER_BYTES + declared;
      if |buffer| < total { return Ok(None); }
      var frame := DecodeFrame(buffer[..total], maxFrameBytes);
      if frame.Fail? { return Fail(frame.fault); }
      buffer := buffer[total..];
      return Ok(Some(frame.value));
    }

    /** Feeds one chunk and takes every frame that is complete. */
    method Pump(chunk: seq<byte>) returns (d: Drained)
      requires Valid()
      modifies this
      ensures Valid() && d == Drain(old(Buffered()) + chunk, maxFrameBytes) && Buffered() == d.rest
    {
      hide NextFrame, Drain;
      Feed(chunk);
      var frames := [];
      ghost var start := Buffered();
      assert frames + Drain(start, maxFrameBytes).frames == Drain(start, maxFrameBytes).frames;
      while true
        invariant Valid()
        invariant var d := Drain(Buffered(), maxFrameBytes);
                  Drain(start, maxFrameBytes) == Drained(frames + d.frames, d.rest, d.fault)
        decreases |Buffered()|
      {
        DrainStep(Buffered(), maxFrameBytes);
        var n := NextUp();
        match n {
          case Fail(fault) => return Drained(frames, buffer[offset..], Some(fault));
          case Ok(None) => return Drained(frames, buffer[offset..], None);
          case Ok(Some(frame)) =>
            assert frames + ([frame] + Drain(Buffered(), maxFrameBytes).frames)
                == (frames + [frame]) + Drain(Buffered(), maxFrameBytes).frames;
            frames := frames + [frame];
        }
      }
    }
  }

  datatype Drained = Drained(frames: seq<Frame>, rest: seq<byte>, fault: Option<Fault>)

  /** Takes frames until the bytes run short or are refused. */
  function Drain(buffer: seq<byte>, maxFrameBytes: u32): Drained
    decreases |buffer|
  {
    match NextFrame(buffer, maxFrameBytes)
    case NeedMore => Drained([], buffer, None)
    case Bad(fault) => Drained([], buffer, Some(fault))
    case Emit(frame, rest) =>
      var d := Drain(rest, maxFrameBytes);
      Drained([frame] + d.frames, d.rest, d.fault)
  }

  lemma DrainStep(b: seq<byte>, maxFrameBytes: u32)
    ensures var n := NextFrame(b, maxFrameBytes);
            Drain(b, maxFrameBytes) ==
            if n.NeedMore? then Drained([], b, None)
            else if n.Bad? then Drained([], b, Some(n.fault))
            else var d := Drain(n.rest, maxFrameBytes); Drained([n.frame] + d.frames, d.rest, d.fault)
  {
  }

  /** Chunks arrive one by one; a refused stream reads no further. */
  function Receive(buffer: seq<byte>, chunks: seq<seq<byte>>, maxFrameBytes: u32): Drained
    decreases |chunks|
  {
    if chunks == [] then Drained([], buffer, None)
    else
      var d := Drain(buffer + chunks[0], maxFrameBytes);
      if d.fault.Some? then d
      else
        var later := Receive(d.rest, chunks[1..], maxFrameBytes);
        Drained(d.frames + later.frames, later.rest, later.fault)
  }

  lemma NextStable(b: seq<byte>, c: seq<byte>, maxFrameBytes: u32)
    ensures match NextFrame(b, maxFrameBytes)
            case NeedMore => true
            case Bad(fault) => NextFrame(b + c, maxFrameBytes) == Bad(fault)
            case Emit(frame, rest) => NextFrame(b + c, maxFrameBytes) == Emit(frame, rest + c)
  {
    if |b| >= HEADER_BYTES {
      assert (b + c)[..4] == b[..4];
      var total := HEADER_BYTES + FromLE(b[..4]);
      if |b| >= total {
        assert (b + c)[..total] == b[..total] && (b + c)[total..] == b[total..] + c;
      }
    }
  }

  lemma {:induction false} DrainStable(b: seq<byte>, c: seq<byte>, maxFrameBytes: u32)
    ensures var d := Drain(b, maxFrameBytes);
            var more := Drain(d.rest + c, maxFrameBytes);
            Drain(b + c, maxFrameBytes) ==
            if d.fault.Some? then Drained(d.frames, d.rest + c, d.fault)
            else Drained(d.frames + more.frames, more.rest, more.fault)
    decreases |b|
  {
    hide NextFrame;
    NextStable(b, c, maxFrameBytes);
    match NextFrame(b, maxFrameBytes) {
      case NeedMore => assert [] + Drain(b + c, maxFrameBytes).frames == Drain(b + c, maxFrameBytes).frames;
      case Bad(_) =>
      case Emit(frame, rest) =>
        DrainStable(rest, c, maxFrameBytes);
        var d := Drain(rest, maxFrameBytes);
        var more := Drain(d.rest + c, maxFrameBytes);
        assert [frame] + (d.frames + more.frames) == ([frame] + d.frames) + more.frames;
    }
  }

  /**
   However a byte stream is cut into chunks, valid or not, the same frames come out in the same
   order and the stream is refused for the same reason or not at all.
   */
  lemma {:induction false} ChunkingIrrelevant(buffer: seq<byte>, chunks: seq<seq<byte>>, maxFrameBytes: u32)
    requires Drain(buffer, maxFrameBytes) == Drained([], buffer, None)
    ensures var whole := Drain(buffer + Flat(chunks), maxFrameBytes);
            var cut := Receive(buffer, chunks, maxFrameBytes);
            cut.frames == whole.frames && cut.fault == whole.fault && (whole.fault.None? ==> cut.rest == whole.rest)
    decreases |chunks|
  {
    hide Drain;
    if chunks == [] {
      assert buffer + Flat(chunks) == buffer;
    } else {
      var d := Drain(buffer + chunks[0], maxFrameBytes);
      assert buffer + Flat(chunks) == (buffer + chunks[0]) + Flat(chunks[1..]);
      DrainStable(buffer + chunks[0], Flat(chunks[1..]), maxFrameBytes);
      if d.fault.None? {
        DrainSettles(buffer + chunks[0], maxFrameBytes);
        ChunkingIrrelevant(d.rest, chunks[1..], maxFrameBytes);
      }
    }
  }

  lemma {:induction false} DrainSettles(b: seq<byte>, maxFrameBytes: u32)
    requires Drain(b, maxFrameBytes).fault.None?
    ensures var rest := Drain(b, maxFrameBytes).rest; Drain(rest, maxFrameBytes) == Drained([], rest, None)
    decreases |b|
  {
    match NextFrame(b, maxFrameBytes) {
      case Emit(_, rest) => DrainSettles(rest, maxFrameBytes);
      case _ =>
    }
  }

  function Encodings(frames: seq<Frame>): seq<seq<byte>>
    requires forall f <- frames :: |f.body| < 0x1_0000_0000
  {
    if frames == [] then [] else [FrameBytes(frames[0])] + Encodings(frames[1..])
  }

  lemma EncodingEmitted(f: Frame, tail: seq<byte>, maxFrameBytes: u32)
    requires |f.body| <= maxFrameBytes
    ensures NextFrame(FrameBytes(f) + tail, maxFrameBytes) == Emit(f, tail)
  {
    hide FrameBytes, DecodeFrame;
    var b := FrameBytes(f);
    DecodeInvertsEncode(f, maxFrameBytes);
    HeaderFields(f);
    assert (b + tail)[..4] == b[..4];
    assert (b + tail)[..HEADER_BYTES + |f.body|] == b && (b + tail)[HEADER_BYTES + |f.body|..] == tail;
  }

  lemma {:induction false} DrainEncodings(frames: seq<Frame>, maxFrameBytes: u32)
    requires forall f <- frames :: |f.body| <= maxFrameBytes
    ensures Drain(Flat(Encodings(frames)), maxFrameBytes) == Drained(frames, [], None)
    decreases |frames|
  {
    if frames != [] {
      var tail := Flat(Encodings(frames[1..]));
      assert Encodings(frames)[1..] == Encodings(frames[1..]);
      EncodingEmitted(frames[0], tail, maxFrameBytes);
      DrainEncodings(frames[1..], maxFrameBytes);
      hide NextFrame, FrameBytes;
      DrainStep(FrameBytes(frames[0]) + tail, maxFrameBytes);
      assert [frames[0]] + frames[1..] == frames;
    }
  }

  /** Any chunking of the encodings of a list of frames delivers exactly that list. */
  lemma StreamDelivers(frames: seq<Frame>, chunks: seq<seq<byte>>, maxFrameBytes: u32)
    requires forall f <- frames :: |f.body| <= maxFrameBytes
    requires Flat(chunks) == Flat(Encodings(frames))
    ensures Receive([], chunks, maxFrameBytes) == Drained(frames, [], None)
  {
    DrainEncodings(frames, maxFrameBytes);
    assert [] + Flat(chunks) == Flat(chunks);
    ChunkingIrrelevant([], chunks, maxFrameBytes);
  }
}
