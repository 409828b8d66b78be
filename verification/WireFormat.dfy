/** The wire format byte by byte, in numbers in network byte order: where everything stands, exactly what is
    refused, and what an accepted frame says. */
module WireFormat {
  import opened Prelude
  import opened Frames
  import opened Framing
  import opened Codec

  // ---- The layout, byte by byte ----

  /** A number in network byte order. */
  function Big(s: bytes): nat { if s == [] then 0 else Big(s[..|s| - 1]) * 0x100 + s[|s| - 1] as nat }

  lemma Big16(n: nat)
    ensures Big(U16(n)) == n % 0x1_0000
  {
    var s := U16(n);
    assert s[..1] == [s[0]] && s[..1][..0] == [];
    assert Big(s[..1]) == s[0] as nat;
  }

  lemma {:induction false} BigAppend(a: bytes, b: bytes)
    ensures Big(a + b) == Big(a) * Power(|b|) + Big(b)
  {
    if b == [] {
      assert a + b == a;
    } else {
      assert (a + b)[..|a + b| - 1] == a + b[..|b| - 1];
      BigAppend(a, b[..|b| - 1]);
    }
  }

  function Power(n: nat): nat { if n == 0 then 1 else Power(n - 1) * 0x100 }

  lemma Big32(n: nat)
    ensures Big(U32(n)) == n % 0x1_0000_0000
  {
    BigAppend(U16(n / 0x1_0000), U16(n));
    Big16(n / 0x1_0000);
    Big16(n);
    assert Power(2) == 0x1_0000;
    TwoHalves(n);
  }

  lemma Big64(n: nat)
    requires n < U64_SPACE
    ensures Big(U64(n)) == n
  {
    BigAppend(U32(n / 0x1_0000_0000), U32(n));
    Big32(n / 0x1_0000_0000);
    Big32(n);
    FourBytes();
    WideHalves(n);
  }

  lemma FourBytes()
    ensures Power(4) == 0x1_0000_0000
  {
    assert Power(2) == 0x1_0000;
  }

  lemma WideHalves(n: nat)
    requires n < U64_SPACE
    ensures n / 0x1_0000_0000 % 0x1_0000_0000 * 0x1_0000_0000 + n % 0x1_0000_0000 == n
  {
  }

  lemma Big32Is(s: bytes)
    requires |s| >= 4
    ensures Get32(s) == Big(s[..4])
  {
    assert s[..4] == s[..2] + s[2..4];
    BigAppend(s[..2], s[2..4]);
    Big16Is(s[..2]);
    Big16Is(s[2..4]);
    assert Power(2) == 0x1_0000;
  }

  lemma Big16Is(s: bytes)
    requires |s| == 2
    ensures Big(s) == Get16(s)
  {
    assert s[..1] == [s[0]] && s[..1][..0] == [];
    assert Big(s[..1]) == s[0] as nat;
  }

  /** The first byte names the type. */
  predicate TypeNamed(ty: byte, f: Frame)
  {
    match ty as int
    case 0x01 => f.Hello?
    case 0x02 => f.HelloAck?
    case 0x10 => f.Open?
    case 0x11 => f.OpenOk?
    case 0x12 => f.OpenErr?
    case 0x20 => f.Data?
    case 0x21 => f.Ack?
    case 0x22 => f.Fin?
    case 0x23 => f.Reset?
    case 0x30 => f.Resume?
    case 0x31 => f.ResumeOk?
    case 0x32 => f.ResumeErr?
    case 0x40 => f.Ping?
    case 0x41 => f.Pong?
    case _ => false
  }

  /** The number a body starts with, for the frames that carry one. */
  function Leading(f: Frame): Option<nat>
  {
    match f
    case Data(_, offset, _) => Some(offset)
    case Ack(_, offset) => Some(offset)
    case Resume(_, offset) => Some(offset)
    case ResumeOk(_, offset) => Some(offset)
    case Ping(nonce) => Some(nonce)
    case Pong(nonce) => Some(nonce)
    case _ => None
  }

  /** Type, identifier (0 for frames of no stream), length of what follows, and then the body, all numbers
      in network byte order. */
  lemma WireLayout(f: Frame)
    requires InType(f) && Fits(f)
    ensures var s := Encode(f);
            && 9 <= |s| && TypeNamed(s[0], f)
            && Big(s[1..5]) == (if f.StreamOf().Some? then f.id else 0)
            && Big(s[5..9]) == |s| - 9
            && (Leading(f).Some? ==> 17 <= |s| && Big(s[9..17]) == Leading(f).value)
            && (f.Data? ==> s[17..] == f.data)
            && (Leading(f).Some? && !f.Data? ==> |s| == 17)
            && (f.Fin? || f.OpenOk? ==> |s| == 9)
            && (f.Hello? || f.HelloAck? ==>
                  && |s| == 27 && s[9] == f.version && s[10..26] == f.session
                  && (s[26] != 0 <==> if f.Hello? then f.resume else f.resumed))
            && (f.Reset? || f.ResumeErr? ==> |s| == 10 && s[9] == CodeByte(f.code))
            && (f.OpenErr? ==> s[9] == CodeByte(f.code) && Big(s[10..12]) == |f.msg| && s[12..] == f.msg)
  {
    HeaderLayout(f);
    BodyLayout(f);
  }

  lemma HeaderLayout(f: Frame)
    requires InType(f) && Fits(f)
    ensures var s := Encode(f);
            9 <= |s| && s[9..] == EncodeBody(f) && Big(s[1..5]) == IdField(f) && Big(s[5..9]) == |s| - 9
  {
    FitsByParts(f);
    HeaderNumbers(TypeByte(f), IdField(f), EncodeBody(f));
  }

  lemma HeaderNumbers(ty: byte, id: StreamId, body: bytes)
    requires |body| < ID_SPACE
    ensures var s := [ty] + U32(id) + U32(|body|) + body;
            s[9..] == body && Big(s[1..5]) == id && Big(s[5..9]) == |body|
  {
    Parts(ty, U32(id), U32(|body|), body);
    Big32(id);
    Big32(|body|);
  }

  lemma Parts(ty: byte, id: bytes, len: bytes, body: bytes)
    requires |id| == 4 && |len| == 4
    ensures var s := [ty] + id + len + body; s[1..5] == id && s[5..9] == len && s[9..] == body
  {
  }

  lemma BodyLayout(f: Frame)
    requires InType(f) && Fits(f) && |Encode(f)| >= 9 && Encode(f)[9..] == EncodeBody(f)
    ensures var s := Encode(f);
            && (Leading(f).Some? ==> 17 <= |s| && Big(s[9..17]) == Leading(f).value)
            && (f.Data? ==> s[17..] == f.data)
            && (f.Hello? || f.HelloAck? ==> s[10..26] == f.session)
            && (f.OpenErr? ==> s[9] == CodeByte(f.code) && Big(s[10..12]) == |f.msg| && s[12..] == f.msg)
  {
    var s, b := Encode(f), EncodeBody(f);
    if Leading(f).Some? {
      Big64(Leading(f).value);
      LeadingFirst(f, s);
    } else if f.Hello? || f.HelloAck? {
      assert s[10..26] == b[1..17] == f.session;
    } else if f.OpenErr? {
      Big16(|f.msg|);
      assert f.msg[..|f.msg|] == f.msg;
      assert s[10..12] == b[1..3] == U16(|f.msg|) && s[12..] == b[3..] == f.msg;
    }
  }

  lemma LeadingFirst(f: Frame, s: bytes)
    requires Leading(f).Some? && 9 <= |s| && s[9..] == EncodeBody(f)
    ensures 17 <= |s| && s[9..17] == U64(Leading(f).value) && (f.Data? ==> s[17..] == f.data)
  {
    var u := U64(Leading(f).value);
    assert |s| == 9 + |EncodeBody(f)| && s[9..17] == EncodeBody(f)[..8] == u;
    if f.Data? { assert s[17..] == (u + f.data)[8..] == f.data; }
  }

  lemma CodesOnTheWire(c: ResetCode)
    ensures CodeByte(c) as int == match c
            case Normal => 0
            case ConnectFailed => 1
            case UnknownStream => 2
            case ResumeImpossible => 3
            case Internal => 4
            case Forbidden => 5
  {
  }

  // ---- Exactly what is refused ----

  predicate AddrAccepted(b: bytes)
  {
    && 1 <= |b|
    && match b[0] as int
       case 1 => 7 <= |b|
       case 4 => 19 <= |b|
       case 3 => 2 <= |b| && 4 + b[1] as nat <= |b| && 0 < b[1] && Utf8(b[2..2 + b[1] as nat])
       case _ => false
  }

  /** A body of a known type that is long enough; bytes beyond that are ignored, but for Data. */
  predicate BodyAccepted(ty: byte, b: bytes)
  {
    match ty as int
    case 0x01 => 18 <= |b|
    case 0x02 => 18 <= |b|
    case 0x10 => AddrAccepted(b)
    case 0x11 => true
    case 0x12 => 3 <= |b| && 3 + Big(b[1..3]) <= |b|
    case 0x20 => 8 <= |b|
    case 0x21 => 8 <= |b|
    case 0x22 => true
    case 0x23 => 1 <= |b|
    case 0x30 => 8 <= |b|
    case 0x31 => 8 <= |b|
    case 0x32 => 1 <= |b|
    case 0x40 => 8 <= |b|
    case 0x41 => 8 <= |b|
    case _ => false
  }

  lemma BodyRefusedExactly(ty: byte, id: StreamId, b: bytes)
    ensures DecodeBody(ty, id, b).Ok? <==> BodyAccepted(ty, b)
    ensures DecodeBody(ty, id, b).Ok? ==> TypeNamed(ty, DecodeBody(ty, id, b).value)
  {
    if ty == 0x12 && 3 <= |b| {
      assert b[1..][..2] == b[1..3];
      Big16Is(b[1..3]);
      assert Get16(b[1..]) == Get16(b[1..3]);
    }
  }

  /** More is asked for exactly when the header, or a body within the limit, is incomplete; a header that
      announces more than the limit is refused at once, whatever follows; a complete body is refused exactly
      when its type is unknown or it is too short for it. */
  lemma RefusedExactly(s: bytes)
    ensures |s| < 9 ==> Decode(s).More?
    ensures 9 <= |s| ==>
              var len := Big(s[5..9]);
              && (len > 256 * 1024 ==> Decode(s) == Bad(FrameTooLarge(len)))
              && (len <= 256 * 1024 ==>
                    && (Decode(s).More? <==> |s| < 9 + len)
                    && (|s| >= 9 + len ==> (Decode(s).Got? <==> BodyAccepted(s[0], s[9..9 + len])))
                    && (Decode(s).Got? ==> Decode(s).rest == s[9 + len..] && TypeNamed(s[0], Decode(s).frame)))
  {
    if 9 <= |s| {
      Big32Is(s[5..]);
      assert s[5..][..4] == s[5..9];
      var len := Big(s[5..9]);
      if len <= 256 * 1024 && |s| >= 9 + len { BodyRefusedExactly(s[0], Get32(s[1..]), s[9..9 + len]); }
    }
  }

  // ---- What an accepted frame says ----

  predicate AddrMeans(b: bytes, a: TargetAddr)
    requires AddrAccepted(b)
  {
    match b[0] as int
    case 1 => a == V4(b[1..5], Big(b[5..7]))
    case 4 => a == V6(b[1..17], Big(b[17..19]))
    case _ => var n := 2 + b[1] as nat; a == Domain(b[2..n], Big(b[n..n + 2]))
  }

  /** Unknown codes count as internal errors. */
  predicate CodeMeans(b: byte, c: ResetCode)
  {
    match b as int
    case 0 => c == Normal
    case 1 => c == ConnectFailed
    case 2 => c == UnknownStream
    case 3 => c == ResumeImpossible
    case 5 => c == Forbidden
    case _ => c == Internal
  }

  lemma AddrReads(b: bytes)
    requires AddrAccepted(b)
    ensures DecodeAddr(b).Ok? && AddrMeans(b, DecodeAddr(b).value)
  {
    var n := if b[0] == 1 then 5 else if b[0] == 4 then 17 else 2 + b[1] as nat;
    Big16Is(b[n..n + 2]);
    assert Get16(b[n..]) == Get16(b[n..n + 2]);
  }

  lemma CodeReads(b: byte)
    ensures CodeMeans(b, CodeFrom(b))
  {
  }

  lemma Big64Is(s: bytes)
    requires |s| >= 8
    ensures Get64(s) == Big(s[..8])
  {
    assert s[..8] == s[..4] + s[4..8] && s[4..][..4] == s[4..8];
    BigAppend(s[..4], s[4..8]);
    Big32Is(s);
    Big32Is(s[4..]);
    FourBytes();
  }

  /** A frame of this type and identifier says what these bytes say. */
  predicate Says(ty: byte, id: nat, b: bytes, f: Frame)
    requires BodyAccepted(ty, b)
  {
    && TypeNamed(ty, f) && (f.StreamOf().Some? ==> f.id == id)
    && (Leading(f).Some? ==> 8 <= |b| && Leading(f).value == Big(b[..8]))
    && (f.Data? ==> f.data == b[8..])
    && (f.Hello? ==> f == Hello(b[0], b[1..17], b[17] != 0))
    && (f.HelloAck? ==> f == HelloAck(b[0], b[1..17], b[17] != 0))
    && (f.Reset? || f.ResumeErr? ==> CodeMeans(b[0], f.code))
    && (f.OpenErr? ==> CodeMeans(b[0], f.code) && f.msg == b[3..3 + Big(b[1..3])])
    && (f.Open? ==> AddrMeans(b, f.addr))
  }

  /** What each accepted body is read as. */
  lemma BodyMeans(ty: byte, id: StreamId, b: bytes)
    requires BodyAccepted(ty, b)
    ensures DecodeBody(ty, id, b).Ok? && Says(ty, id, b, DecodeBody(ty, id, b).value)
  {
    BodyRefusedExactly(ty, id, b);
    if ty == 0x12 {
      OpenErrMeans(id, b);
    } else if ty == 0x10 {
      AddrReads(b);
    } else if ty == 0x23 || ty == 0x32 {
      CodeReads(b[0]);
    } else if |b| >= 8 {
      Big64Is(b);
    }
  }

  lemma OpenErrMeans(id: StreamId, b: bytes)
    requires BodyAccepted(0x12, b)
    ensures var r := DecodeBody(0x12, id, b);
            && r.Ok? && r.value.OpenErr? && r.value.id == id && CodeMeans(b[0], r.value.code)
            && r.value.msg == b[3..3 + Big(b[1..3])]
  {
    CodeReads(b[0]);
    Big16Is(b[1..3]);
    assert Get16(b[1..]) == Get16(b[1..3]);
  }

  /** And so of a frame taken off a buffer: it says what its bytes say. */
  lemma FrameMeans(s: bytes)
    requires Decode(s).Got?
    ensures 9 <= |s| && 9 + Big(s[5..9]) <= |s| && BodyAccepted(s[0], s[9..9 + Big(s[5..9])])
    ensures Says(s[0], Big(s[1..5]), s[9..9 + Big(s[5..9])], Decode(s).frame)
  {
    RefusedExactly(s);
    Big32Is(s[1..]);
    Big32Is(s[5..]);
    assert s[1..][..4] == s[1..5] && s[5..][..4] == s[5..9];
    BodyMeans(s[0], Get32(s[1..]), s[9..9 + Big(s[5..9])]);
  }
}
