/** The growing byte buffers of the program: the encoder that patches the length in afterwards,
    and the reader that keeps what does not yet make a whole frame. */
module WireBuffer {
  import opened Prelude
  import opened Frames
  import opened Codec
  import opened Framing
  import Resume

  class ByteBuf {
    var data: bytes

    constructor ()
      ensures data == []
    {
      data := [];
    }

    method PutU8(b: byte)
      modifies this
      ensures data == old(data) + [b]
    {
      data := data + [b];
    }

    method PutSlice(s: bytes)
      modifies this
      ensures data == old(data) + s
    {
      data := data + s;
    }

    method PutU16(n: nat)
      modifies this
      ensures data == old(data) + U16(n)
    {
      PutU8((n / 0x100 % 0x100) as byte);
      PutU8((n % 0x100) as byte);
    }

    method PutU32(n: nat)
      modifies this
      ensures data == old(data) + U32(n)
    {
      PutU16(n / 0x1_0000);
      PutU16(n);
    }

    method PutU64(n: nat)
      modifies this
      ensures data == old(data) + U64(n)
    {
      PutU32(n / 0x1_0000_0000);
      PutU32(n);
    }

    /** Overwrite bytes that are already there. */
    method Patch(at: nat, s: bytes)
      requires at + |s| <= |data|
      modifies this
      ensures data == old(data)[..at] + s + old(data)[at + |s|..]
    {
      data := data[..at] + s + data[at + |s|..];
    }

    method PutAddr(a: TargetAddr)
      modifies this
      ensures data == old(data) + EncodeAddr(a)
    {
      match a {
        case V4(o, p) =>
          JoinThree(data, [1], o, U16(p));
          PutU8(1);
          PutSlice(o);
          PutU16(p);
        case V6(o, p) =>
          JoinThree(data, [4], o, U16(p));
          PutU8(4);
          PutSlice(o);
          PutU16(p);
        case Domain(d, p) =>
          JoinThree(data + [3], [(|d| % 0x100) as byte], d, U16(p));
          PutU8(3);
          PutU8((|d| % 0x100) as byte);
          PutSlice(d);
          PutU16(p);
      }
    }

    method PutHello(version: byte, session: bytes, flag: bool)
      modifies this
      ensures data == old(data) + ([version] + session + [FlagByte(flag)])
    {
      JoinThree(data, [version], session, [FlagByte(flag)]);
      PutU8(version);
      PutSlice(session);
      PutU8(FlagByte(flag));
    }

    method PutMessage(c: ResetCode, m: bytes)
      modifies this
      ensures var n := Min(|m|, 0xFFFF); data == old(data) + ([CodeByte(c)] + U16(n) + m[..n])
    {
      var n := Min(|m|, 0xFFFF);
      JoinThree(data, [CodeByte(c)], U16(n), m[..n]);
      PutU8(CodeByte(c));
      PutU16(n);
      PutSlice(m[..n]);
    }

    method PutBody(f: Frame)
      modifies this
      ensures data == old(data) + EncodeBody(f)
    {
      match f {
        case Hello(v, s, r) => PutHello(v, s, r);
        case HelloAck(v, s, r) => PutHello(v, s, r);
        case Open(_, a) => PutAddr(a);
        case OpenErr(_, c, m) => PutMessage(c, m);
        case Data(_, o, d) =>
          ConcatAssoc(data, U64(o), d);
          PutU64(o);
          PutSlice(d);
        case Ack(_, o) => PutU64(o);
        case Reset(_, c) => PutU8(CodeByte(c));
        case Resume(_, o) => PutU64(o);
        case ResumeOk(_, o) => PutU64(o);
        case ResumeErr(_, c) => PutU8(CodeByte(c));
        case Ping(n) => PutU64(n);
        case Pong(n) => PutU64(n);
        case OpenOk(_) =>
        case Fin(_) =>
      }
    }

    /** Header with a zero length, then the body, then the length patched back in. */
    method PutFrame(f: Frame)
      modifies this
      ensures data == old(data) + Encode(f)
    {
      ghost var before := data;
      PutU8(TypeByte(f));
      PutU32(IdField(f));
      var lenPos := |data|;
      PutU32(0);
      var bodyStart := |data|;
      PutBody(f);
      var bodyLen := |data| - bodyStart;
      var head := data[..lenPos];
      assert head == before + [TypeByte(f)] + U32(IdField(f)) && data == head + U32(0) + EncodeBody(f);
      Patched(head, U32(0), EncodeBody(f), U32(bodyLen));
      Patch(lenPos, U32(bodyLen));
      JoinFrame(before, f);
    }

    method PutFrames(fs: seq<Frame>)
      modifies this
      ensures data == old(data) + EncodeAll(fs)
    {
      var i := 0;
      assert fs[0..] == fs;
      while i < |fs|
        invariant 0 <= i <= |fs|
        invariant data + Joined(Encode, fs[i..]) == old(data) + EncodeAll(fs)
      {
        assert fs[i..][1..] == fs[i + 1..];
        ConcatAssoc(data, Encode(fs[i]), Joined(Encode, fs[i + 1..]));
        PutFrame(fs[i]);
        i := i + 1;
      }
      assert data + [] == data;
    }
  }

  /** What the writer task hands to its output in one go: every frame it finds queued. The reader at the
      other end gets exactly those frames back. */
  method WriteBatch(queue: seq<Frame>) returns (wire: bytes)
    ensures wire == EncodeAll(queue)
    ensures (forall i :: 0 <= i < |queue| ==> InType(queue[i]) && Fits(queue[i])) ==>
              DecodeAll(wire) == Parsed(queue, [], None)
  {
    var buf := new ByteBuf();
    buf.PutFrames(queue);
    wire := buf.data;
    assert [] + EncodeAll(queue) == EncodeAll(queue);
    if forall i :: 0 <= i < |queue| ==> InType(queue[i]) && Fits(queue[i]) {
      BatchReadsBack(queue);
    }
  }

  lemma BatchReadsBack(queue: seq<Frame>)
    requires forall i :: 0 <= i < |queue| ==> InType(queue[i]) && Fits(queue[i])
    ensures DecodeAll(EncodeAll(queue)) == Parsed(queue, [], None)
  {
    ListRoundTrip(queue, []);
    assert EncodeAll(queue) + [] == EncodeAll(queue) && queue + [] == queue;
  }

  lemma JoinThree(before: bytes, a: bytes, b: bytes, c: bytes)
    ensures ((before + a) + b) + c == before + (a + b + c)
  {
  }

  /** The four parts of a frame, written after what was there before. */
  lemma JoinFrame(before: bytes, f: Frame)
    ensures before + [TypeByte(f)] + U32(IdField(f)) + U32(|EncodeBody(f)|) + EncodeBody(f) == before + Encode(f)
  {
    var a, b, c, d := [TypeByte(f)], U32(IdField(f)), U32(|EncodeBody(f)|), EncodeBody(f);
    JoinFour(before, a, b, c, d);
  }

  lemma JoinFour(before: bytes, a: bytes, b: bytes, c: bytes, d: bytes)
    ensures before + a + b + c + d == before + (a + b + c + d)
  {
  }

  lemma Patched(head: bytes, hole: bytes, body: bytes, patch: bytes)
    requires |hole| == |patch|
    ensures var s := head + hole + body;
            s[..|head|] + patch + s[|head| + |patch|..] == head + patch + body
  {
    var s := head + hole + body;
    assert s[..|head|] == head && s[|head| + |patch|..] == body;
  }

  /** frames have been taken out, and parsing what is buffered yields the rest of whole. */
  ghost predicate ToGo(frames: seq<Frame>, buffered: bytes, whole: Parsed<Frame, ProtoError>)
  {
    var p := ParseAll(Decode, buffered);
    whole == p.(frames := frames + p.frames)
  }

  lemma NothingTaken(s: bytes)
    ensures ToGo([], s, DecodeAll(s))
  {
    assert [] + DecodeAll(s).frames == DecodeAll(s).frames;
  }

  lemma OneTaken(frames: seq<Frame>, buffered: bytes, whole: Parsed<Frame, ProtoError>)
    requires ToGo(frames, buffered, whole) && Decode(buffered).Got?
    ensures ToGo(frames + [Decode(buffered).frame], Decode(buffered).rest, whole)
  {
    var d := Decode(buffered);
    ParseOne(Decode, buffered);
    var more := ParseAll(Decode, d.rest).frames;
    assert frames + ([d.frame] + more) == (frames + [d.frame]) + more;
  }

  lemma NoneLeft(frames: seq<Frame>, buffered: bytes, whole: Parsed<Frame, ProtoError>)
    requires ToGo(frames, buffered, whole) && !Decode(buffered).Got?
    ensures whole == Parsed(frames, buffered, if Decode(buffered).Bad? then Some(Decode(buffered).error) else None)
  {
    assert frames + [] == frames;
  }

  class FrameReader {
    var buffered: bytes

    constructor ()
      ensures buffered == []
    {
      buffered := [];
    }

    /** One read: append the bytes, then take every complete frame out. */
    method Feed(chunk: bytes) returns (frames: seq<Frame>, error: Option<ProtoError>)
      modifies this
      ensures DecodeAll(old(buffered) + chunk) == Parsed(frames, buffered, error)
      ensures error.None? ==> |buffered| < HEADER_LEN + MAX_FRAME_PAYLOAD
    {
      buffered := buffered + chunk;
      ghost var whole := DecodeAll(buffered);
      NothingTaken(buffered);
      frames, error := [], None;
      while true
        invariant ToGo(frames, buffered, whole)
        decreases |buffered|
      {
        match Decode(buffered) {
          case More =>
            MoreIsShort(buffered);
            NoneLeft(frames, buffered, whole);
            break;
          case Bad(e) =>
            NoneLeft(frames, buffered, whole);
            error := Some(e);
            break;
          case Got(f, rest) =>
            OneTaken(frames, buffered, whole);
            frames := frames + [f];
            buffered := rest;
        }
      }
    }
  }

  /** frames have been returned, and decoding what is buffered with what is still to come yields the
      rest of whole. */
  ghost predicate OnTrack(frames: seq<Frame>, buffered: bytes, later: bytes, whole: Parsed<Frame, ProtoError>)
  {
    var p := DecodeAll(buffered + later);
    whole.frames == frames + p.frames && whole.error == p.error
  }

  lemma StartsOnTrack(all: bytes)
    ensures OnTrack([], [], all, DecodeAll(all))
  {
    assert [] + all == all;
    assert [] + DecodeAll(all).frames == DecodeAll(all).frames;
  }

  /** Reading one more chunk keeps the track, or ends it with the error of the whole. */
  lemma NextChunk(frames: seq<Frame>, buffered: bytes, chunk: bytes, later: bytes, whole: Parsed<Frame, ProtoError>)
    requires OnTrack(frames, buffered, chunk + later, whole)
    ensures var p := DecodeAll(buffered + chunk);
            if p.error.Some? then whole.frames == frames + p.frames && whole.error == p.error
            else Decode(p.residue).More? && OnTrack(frames + p.frames, p.residue, later, whole)
  {
    ConcatAssoc(buffered, chunk, later);
    DecodeResumes(buffered + chunk, later);
    ResumedAfter(Decode, frames, DecodeAll(buffered + chunk), later);
  }

  lemma DecodeResumes(s: bytes, more: bytes)
    ensures DecodeAll(s + more) == Resumed(Decode, DecodeAll(s), more)
    ensures DecodeAll(s).error.None? ==> Decode(DecodeAll(s).residue).More?
  {
    DecodeIsStable();
    ParseSplit(Decode, s, more);
    ParseStops(Decode, s);
  }

  lemma EndsOnTrack(frames: seq<Frame>, buffered: bytes, whole: Parsed<Frame, ProtoError>)
    requires OnTrack(frames, buffered, [], whole) && Decode(buffered).More?
    ensures whole.frames == frames && whole.error.None?
  {
    assert buffered + [] == buffered;
  }

  /** However the input is cut into chunks, the frames and the first error are those of the whole. */
  method ReadChunks(chunks: seq<bytes>) returns (frames: seq<Frame>, error: Option<ProtoError>)
    ensures var p := DecodeAll(Resume.Flat(chunks)); frames == p.frames && error == p.error
  {
    var reader := new FrameReader();
    ghost var whole := DecodeAll(Resume.Flat(chunks));
    frames, error := [], None;
    var i := 0;
    StartsOnTrack(Resume.Flat(chunks));
    assert chunks[0..] == chunks;
    while i < |chunks|
      invariant 0 <= i <= |chunks|
      invariant error.None?
      invariant Decode(reader.buffered).More?
      invariant OnTrack(frames, reader.buffered, Resume.Flat(chunks[i..]), whole)
    {
      assert chunks[i..][1..] == chunks[i + 1..];
      NextChunk(frames, reader.buffered, chunks[i], Resume.Flat(chunks[i + 1..]), whole);
      var more, e := reader.Feed(chunks[i]);
      frames := frames + more;
      i := i + 1;
      if e.Some? {
        return frames, e;
      }
    }
    EndsOnTrack(frames, reader.buffered, whole);
  }
}
