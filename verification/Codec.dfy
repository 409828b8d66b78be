/** The wire format as functions on byte strings: encoding, decoding, and why they are inverse. */
module Codec {
  import opened Prelude
  import opened Frames
  import opened Framing

  // ---- Big-endian integers ----

  function U16(n: nat): (s: bytes)
    ensures |s| == 2
  {
    [(n / 0x100 % 0x100) as byte, (n % 0x100) as byte]
  }

  function U32(n: nat): (s: bytes)
    ensures |s| == 4
  {
    U16(n / 0x1_0000) + U16(n)
  }

  function U64(n: nat): (s: bytes)
    ensures |s| == 8
  {
    U32(n / 0x1_0000_0000) + U32(n)
  }

  function Get16(s: bytes): (n: nat)
    requires |s| >= 2
    ensures n < 0x1_0000
  {
    s[0] as nat * 0x100 + s[1] as nat
  }

  function Get32(s: bytes): (n: nat)
    requires |s| >= 4
    ensures n < 0x1_0000_0000
  {
    Get16(s) * 0x1_0000 + Get16(s[2..])
  }

  function Get64(s: bytes): (n: nat)
    requires |s| >= 8
    ensures n < U64_SPACE
  {
    Get32(s) * 0x1_0000_0000 + Get32(s[4..])
  }

  lemma Get16U16(n: nat, rest: bytes)
    ensures Get16(U16(n) + rest) == n % 0x1_0000
  {
  }

  /** A number made of two halves. */
  lemma TwoHalves(n: nat)
    ensures n / 0x1_0000 % 0x1_0000 * 0x1_0000 + n % 0x1_0000 == n % 0x1_0000_0000
  {
  }

  lemma Get32U32(n: nat, rest: bytes)
    ensures Get32(U32(n) + rest) == n % 0x1_0000_0000
  {
    assert (U32(n) + rest)[2..] == U16(n) + rest;
    assert U32(n) + rest == U16(n / 0x1_0000) + (U16(n) + rest);
    Get16U16(n / 0x1_0000, U16(n) + rest);
    Get16U16(n, rest);
    TwoHalves(n);
  }

  lemma Get64U64(n: nat, rest: bytes)
    ensures Get64(U64(n) + rest) == n % U64_SPACE
  {
    var hi, lo := U32(n / 0x1_0000_0000), U32(n);
    Concat4(hi, lo, rest);
    Get32U32(n / 0x1_0000_0000, lo + rest);
    Get32U32(n, rest);
    HalvesOf64(n);
  }

  lemma Concat4(hi: bytes, lo: bytes, rest: bytes)
    requires |hi| == 4
    ensures hi + lo + rest == hi + (lo + rest) && (hi + lo + rest)[4..] == lo + rest
  {
  }

  lemma HalvesOf64(n: nat)
    ensures (n / 0x1_0000_0000 % 0x1_0000_0000) * 0x1_0000_0000 + n % 0x1_0000_0000 == n % U64_SPACE
  {
    var q, r := n / U64_SPACE, n % U64_SPACE;
    assert n / 0x1_0000_0000 == q * 0x1_0000_0000 + r / 0x1_0000_0000;
  }

  // ---- UTF-8 well-formedness (section 4 of RFC 3629) ----

  predicate Between(b: byte, lo: byte, hi: byte) { lo <= b <= hi }

  predicate Utf8(s: bytes)
  {
    if s == [] then true
    else if s[0] < 0x80 then Utf8(s[1..])
    else if Between(s[0], 0xC2, 0xDF) then
      |s| >= 2 && Between(s[1], 0x80, 0xBF) && Utf8(s[2..])
    else if Between(s[0], 0xE0, 0xEF) then
      && |s| >= 3 && Between(s[2], 0x80, 0xBF)
      && Between(s[1], if s[0] == 0xE0 then 0xA0 else 0x80, if s[0] == 0xED then 0x9F else 0xBF)
      && Utf8(s[3..])
    else if Between(s[0], 0xF0, 0xF4) then
      && |s| >= 4 && Between(s[2], 0x80, 0xBF) && Between(s[3], 0x80, 0xBF)
      && Between(s[1], if s[0] == 0xF0 then 0x90 else 0x80, if s[0] == 0xF4 then 0x8F else 0xBF)
      && Utf8(s[4..])
    else false
  }

  // ---- Addresses ----

  function EncodeAddr(a: TargetAddr): bytes
  {
    match a
    case V4(o, p) => [1] + o + U16(p)
    case V6(o, p) => [4] + o + U16(p)
    case Domain(d, p) => [3, (|d| % 0x100) as byte] + d + U16(p)
  }

  function DecodeAddr(s: bytes): (r: Result<TargetAddr, ProtoError>)
  {
    if |s| < 1 then Err(Truncated)
    else if s[0] == 1 then
      if |s| < 7 then Err(Truncated) else Ok(V4(s[1..5], Get16(s[5..])))
    else if s[0] == 4 then
      if |s| < 19 then Err(Truncated) else Ok(V6(s[1..17], Get16(s[17..])))
    else if s[0] == 3 then
      if |s| < 2 then Err(Truncated)
      else
        var len := s[1] as nat;
        if |s| < 2 + len + 2 then Err(Truncated)
        else if !Utf8(s[2..2 + len]) || len == 0 then Err(BadDomain)
        else Ok(Domain(s[2..2 + len], Get16(s[2 + len..])))
    else Err(BadAddrKind(s[0]))
  }

  function EncodedAddrLen(a: TargetAddr): nat
  {
    match a
    case V4(_, _) => 1 + 4 + 2
    case V6(_, _) => 1 + 16 + 2
    case Domain(d, _) => 1 + 1 + |d| + 2
  }

  /** What the program's types guarantee of an address. */
  predicate AddrInType(a: TargetAddr)
  {
    && a.port < 0x1_0000
    && match a
       case V4(o, _) => |o| == 4
       case V6(o, _) => |o| == 16
       case Domain(d, _) => Utf8(d)
  }

  /** The addresses that survive the wire: names of 1 to 255 bytes. */
  predicate AddrFits(a: TargetAddr)
  {
    a.Domain? ==> 1 <= |a.name| < 0x100
  }

  lemma AddrRoundTripExactly(a: TargetAddr)
    requires AddrInType(a)
    ensures |EncodeAddr(a)| == EncodedAddrLen(a)
    ensures DecodeAddr(EncodeAddr(a)) == Ok(a) <==> AddrFits(a)
  {
    var s := EncodeAddr(a);
    Get16U16(a.port, []);
    assert U16(a.port) + [] == U16(a.port);
    match a {
      case V4(o, p) => assert s[1..5] == o && s[5..] == U16(p);
      case V6(o, p) => assert s[1..17] == o && s[17..] == U16(p);
      case Domain(d, p) =>
        if |d| < 0x100 {
          assert s[2..2 + |d|] == d && s[2 + |d|..] == U16(p);
        }
    }
  }

  // ---- Frames ----

  function TypeByte(f: Frame): byte
  {
    match f
    case Hello(_, _, _) => 0x01
    case HelloAck(_, _, _) => 0x02
    case Open(_, _) => 0x10
    case OpenOk(_) => 0x11
    case OpenErr(_, _, _) => 0x12
    case Data(_, _, _) => 0x20
    case Ack(_, _) => 0x21
    case Fin(_) => 0x22
    case Reset(_, _) => 0x23
    case Resume(_, _) => 0x30
    case ResumeOk(_, _) => 0x31
    case ResumeErr(_, _) => 0x32
    case Ping(_) => 0x40
    case Pong(_) => 0x41
  }

  function IdField(f: Frame): StreamId { if f.StreamOf().Some? then f.StreamOf().value else 0 }

  function FlagByte(b: bool): byte { if b then 1 else 0 }

  function EncodeBody(f: Frame): bytes
  {
    match f
    case Hello(v, s, r) => [v] + s + [FlagByte(r)]
    case HelloAck(v, s, r) => [v] + s + [FlagByte(r)]
    case Open(_, a) => EncodeAddr(a)
    case OpenOk(_) => []
    case OpenErr(_, c, m) => [CodeByte(c)] + U16(Min(|m|, 0xFFFF)) + m[..Min(|m|, 0xFFFF)]
    case Data(_, o, d) => U64(o) + d
    case Ack(_, o) => U64(o)
    case Fin(_) => []
    case Reset(_, c) => [CodeByte(c)]
    case Resume(_, o) => U64(o)
    case ResumeOk(_, o) => U64(o)
    case ResumeErr(_, c) => [CodeByte(c)]
    case Ping(n) => U64(n)
    case Pong(n) => U64(n)
  }

  function Encode(f: Frame): (s: bytes)
    ensures |s| == HEADER_LEN + |EncodeBody(f)|
  {
    [TypeByte(f)] + U32(IdField(f)) + U32(|EncodeBody(f)|) + EncodeBody(f)
  }

  function DecodeBody(ty: byte, id: StreamId, b: bytes): (r: Result<Frame, ProtoError>)
  {
    if ty == 0x01 || ty == 0x02 then
      if |b| < 18 then Err(Truncated)
      else if ty == 0x01 then Ok(Hello(b[0], b[1..17], b[17] != 0))
      else Ok(HelloAck(b[0], b[1..17], b[17] != 0))
    else if ty == 0x10 then
      match DecodeAddr(b)
      case Ok(a) => Ok(Open(id, a))
      case Err(e) => Err(e)
    else if ty == 0x11 then Ok(OpenOk(id))
    else if ty == 0x12 then
      if |b| < 3 || |b| - 3 < Get16(b[1..]) then Err(Truncated)
      else Ok(OpenErr(id, CodeFrom(b[0]), b[3..3 + Get16(b[1..])]))
    else if ty == 0x20 then
      if |b| < 8 then Err(Truncated) else Ok(Data(id, Get64(b), b[8..]))
    else if ty == 0x21 then
      if |b| < 8 then Err(Truncated) else Ok(Ack(id, Get64(b)))
    else if ty == 0x22 then Ok(Fin(id))
    else if ty == 0x23 then
      if |b| < 1 then Err(Truncated) else Ok(Reset(id, CodeFrom(b[0])))
    else if ty == 0x30 then
      if |b| < 8 then Err(Truncated) else Ok(Resume(id, Get64(b)))
    else if ty == 0x31 then
      if |b| < 8 then Err(Truncated) else Ok(ResumeOk(id, Get64(b)))
    else if ty == 0x32 then
      if |b| < 1 then Err(Truncated) else Ok(ResumeErr(id, CodeFrom(b[0])))
    else if ty == 0x40 || ty == 0x41 then
      if |b| < 8 then Err(Truncated)
      else if ty == 0x40 then Ok(Ping(Get64(b)))
      else Ok(Pong(Get64(b)))
    else Err(BadFrameType(ty))
  }

  function Decode(s: bytes): (r: Decoded<Frame, ProtoError>)
    ensures r.Got? ==> |r.rest| < |s|
  {
    if |s| < HEADER_LEN then More
    else
      var len := Get32(s[5..]);
      if len > MAX_FRAME_PAYLOAD then Bad(FrameTooLarge(len))
      else if |s| < HEADER_LEN + len then More
      else
        match DecodeBody(s[0], Get32(s[1..]), s[HEADER_LEN..HEADER_LEN + len])
        case Ok(f) => Got(f, s[HEADER_LEN + len..])
        case Err(e) => Bad(e)
  }

  /** What the program's types guarantee of a frame. */
  predicate InType(f: Frame)
  {
    match f
    case Hello(_, s, _) => |s| == 16
    case HelloAck(_, s, _) => |s| == 16
    case Open(_, a) => AddrInType(a)
    case Data(_, o, _) => o < U64_SPACE
    case Ack(_, o) => o < U64_SPACE
    case Resume(_, o) => o < U64_SPACE
    case ResumeOk(_, o) => o < U64_SPACE
    case Ping(n) => n < U64_SPACE
    case Pong(n) => n < U64_SPACE
    case _ => true
  }

  /** The frames that survive the wire. */
  predicate Fits(f: Frame)
  {
    match f
    case Open(_, a) => AddrFits(a)
    case OpenErr(_, _, m) => |m| <= 0xFFFF
    case Data(_, _, d) => |d| <= MAX_FRAME_PAYLOAD - 8
    case _ => true
  }

  /** A message behind its code and its length, read back. */
  lemma OpenErrBody(id: StreamId, c: ResetCode, m: bytes)
    requires |m| <= 0xFFFF
    ensures DecodeBody(0x12, id, [CodeByte(c)] + U16(|m|) + m) == Ok(OpenErr(id, c, m))
  {
    var b := [CodeByte(c)] + U16(|m|) + m;
    Get16U16(|m|, m);
    assert b[1..] == U16(|m|) + m;
    assert b[3..3 + |m|] == m;
    assert CodeFrom(b[0]) == c;
  }

  lemma OpenErrBodyExactly(id: StreamId, c: ResetCode, m: bytes)
    ensures DecodeBody(0x12, id, EncodeBody(OpenErr(id, c, m))) == Ok(OpenErr(id, c, m[..Min(|m|, 0xFFFF)]))
    ensures m[..Min(|m|, 0xFFFF)] == m <==> |m| <= 0xFFFF
  {
    assert |m[..Min(|m|, 0xFFFF)]| == Min(|m|, 0xFFFF);
    OpenErrBody(id, c, m[..Min(|m|, 0xFFFF)]);
  }

  lemma U64BodyReadsBack(o: nat, d: bytes)
    requires o < U64_SPACE
    ensures Get64(U64(o) + d) == o && (U64(o) + d)[8..] == d && Get64(U64(o)) == o
  {
    Get64U64(o, d);
    U64ReadsBack(o);
  }

  lemma U64ReadsBack(o: nat)
    requires o < U64_SPACE
    ensures Get64(U64(o)) == o
  {
    Get64U64(o, []);
    NothingAdded(U64(o));
  }

  /** Which bodies survive: all but addresses and messages that do not fit their length field. */
  predicate BodyFits(f: Frame)
  {
    (f.Open? ==> AddrFits(f.addr)) && (f.OpenErr? ==> |f.msg| <= 0xFFFF)
  }

  lemma BodyRoundTripExactly(f: Frame)
    requires InType(f)
    ensures DecodeBody(TypeByte(f), IdField(f), EncodeBody(f)) == Ok(f) <==> BodyFits(f)
  {
    var b := EncodeBody(f);
    match f {
      case Hello(v, s, r) => assert b[1..17] == s;
      case HelloAck(v, s, r) => assert b[1..17] == s;
      case Open(_, a) => AddrRoundTripExactly(a);
      case OpenErr(id, c, m) => OpenErrBodyExactly(id, c, m);
      case OpenOk(_) =>
      case Fin(_) =>
      case Reset(_, _) =>
      case ResumeErr(_, _) =>
      case _ => NumberReadsBack(f);
    }
  }

  lemma NumberReadsBack(f: Frame)
    requires InType(f) && (f.Data? || f.Ack? || f.Resume? || f.ResumeOk? || f.Ping? || f.Pong?)
    ensures DecodeBody(TypeByte(f), IdField(f), EncodeBody(f)) == Ok(f)
  {
    match f {
      case Data(_, o, d) => U64BodyReadsBack(o, d);
      case Ack(_, o) => U64BodyReadsBack(o, []);
      case Resume(_, o) => U64BodyReadsBack(o, []);
      case ResumeOk(_, o) => U64BodyReadsBack(o, []);
      case Ping(n) => U64BodyReadsBack(n, []);
      case Pong(n) => U64BodyReadsBack(n, []);
    }
  }

  /** The bytes between two points of an encoded frame, as the decoder will read them. */
  predicate Framed(s: bytes, ty: byte, id: StreamId, body: bytes, rest: bytes)
  {
    && |s| >= HEADER_LEN && s[HEADER_LEN..] == body + rest
    && s[0] == ty && Get32(s[1..]) == id && Get32(s[5..]) == |body| % ID_SPACE
  }

  lemma HeaderReadsBack(ty: byte, id: StreamId, body: bytes, rest: bytes)
    ensures Framed([ty] + U32(id) + U32(|body|) + body + rest, ty, id, body, rest)
  {
    HeaderSlices(ty, U32(id), U32(|body|), body, rest);
    Get32U32(id, U32(|body|) + (body + rest));
    Get32U32(|body|, body + rest);
  }

  lemma HeaderSlices(ty: byte, id: bytes, len: bytes, body: bytes, rest: bytes)
    requires |id| == |len| == 4
    ensures var s := [ty] + id + len + body + rest;
            s[0] == ty && s[1..] == id + (len + (body + rest)) && s[5..] == len + (body + rest) && s[9..] == body + rest
  {
  }

  lemma DecodeByParts(s: bytes, ty: byte, id: StreamId, body: bytes, rest: bytes, f: Frame)
    requires Framed(s, ty, id, body, rest)
    ensures Decode(s) == Got(f, rest) <==> |body| <= MAX_FRAME_PAYLOAD && DecodeBody(ty, id, body) == Ok(f)
  {
    var len := |body| % ID_SPACE;
    assert s[HEADER_LEN + len..] == s[HEADER_LEN..][len..];
    if len == |body| {
      assert s[HEADER_LEN..HEADER_LEN + len] == s[HEADER_LEN..][..len] == body;
      assert s[HEADER_LEN..][len..] == rest;
    } else {
      assert len < |body| && |s[HEADER_LEN + len..]| > |rest|;
    }
  }

  /** Decoding an encoded frame gives it back, and leaves what follows untouched, exactly for the
      frames whose names, messages and data fit their length fields. */
  lemma RoundTripExactly(f: Frame, rest: bytes)
    requires InType(f)
    ensures Decode(Encode(f) + rest) == Got(f, rest) <==> Fits(f)
  {
    BodyRoundTripExactly(f);
    HeaderReadsBack(TypeByte(f), IdField(f), EncodeBody(f), rest);
    DecodeByParts(Encode(f) + rest, TypeByte(f), IdField(f), EncodeBody(f), rest, f);
    FitsByParts(f);
  }

  lemma FitsByParts(f: Frame)
    requires InType(f)
    ensures Fits(f) <==> BodyFits(f) && |EncodeBody(f)| <= MAX_FRAME_PAYLOAD
  {
    if f.Open? { AddrRoundTripExactly(f.addr); }
  }

  /** A verdict reached on a prefix stands whatever follows. */
  lemma DecodeMonotone(s: bytes, more: bytes)
    requires !Decode(s).More?
    ensures Decode(s).Bad? ==> Decode(s + more) == Decode(s)
    ensures Decode(s).Got? ==> Decode(s + more) == Got(Decode(s).frame, Decode(s).rest + more)
  {
    var t := s + more;
    assert t[0] == s[0];
    assert t[1..][..4] == s[1..][..4] && Get32(t[1..]) == Get32(s[1..]);
    assert t[5..][..4] == s[5..][..4] && Get32(t[5..]) == Get32(s[5..]);
    var len := Get32(s[5..]);
    if len <= MAX_FRAME_PAYLOAD {
      assert t[HEADER_LEN..HEADER_LEN + len] == s[HEADER_LEN..HEADER_LEN + len];
      assert t[HEADER_LEN + len..] == s[HEADER_LEN + len..] + more;
    }
  }

  function EncodeAll(fs: seq<Frame>): bytes { Joined(Encode, fs) }

  function DecodeAll(s: bytes): Parsed<Frame, ProtoError> { ParseAll(Decode, s) }

  lemma DecodeIsStable()
    ensures Stable(Decode)
  {
    forall s, more
      ensures Extends(Decode, s, more)
    {
      if !Decode(s).More? { DecodeMonotone(s, more); }
    }
  }

  /** Any list of well-formed frames is recovered in order from its concatenated encoding. */
  lemma ListRoundTrip(fs: seq<Frame>, rest: bytes)
    requires forall i :: 0 <= i < |fs| ==> InType(fs[i]) && Fits(fs[i])
    ensures var p := DecodeAll(rest);
            DecodeAll(EncodeAll(fs) + rest) == p.(frames := fs + p.frames)
  {
    forall f, more | f in fs
      ensures ReadsBack(Decode, Encode, f, more)
    {
      RoundTripExactly(f, more);
    }
    ParseJoined(Decode, Encode, fs, rest);
  }

  lemma EncodingIsInjective(fs: seq<Frame>, gs: seq<Frame>)
    requires forall i :: 0 <= i < |fs| ==> InType(fs[i]) && Fits(fs[i])
    requires forall i :: 0 <= i < |gs| ==> InType(gs[i]) && Fits(gs[i])
    requires EncodeAll(fs) == EncodeAll(gs)
    ensures fs == gs
  {
    ListRoundTrip(fs, []);
    ListRoundTrip(gs, []);
    var p := DecodeAll([]);
    assert fs + p.frames == gs + p.frames;
    assert p.frames == [];
    assert fs == fs + p.frames && gs == gs + p.frames;
  }

  lemma MoreIsShort(s: bytes)
    requires Decode(s).More?
    ensures |s| < HEADER_LEN + MAX_FRAME_PAYLOAD
  {
  }
}
