/** Target addresses and protocol frames, with the constants of the wire format. */
module Frames {
  import opened Prelude

  const PROTO_VERSION: byte := 1
  const HEADER_LEN: nat := 9
  const MAX_FRAME_PAYLOAD: nat := 256 * 1024

  datatype ProtoError =
    | Truncated
    | BadAddrKind(kind: byte)
    | BadDomain
    | BadFrameType(ty: byte)
    | FrameTooLarge(len: nat)

  datatype ResetCode = Normal | ConnectFailed | UnknownStream | ResumeImpossible | Internal | Forbidden

  function CodeByte(c: ResetCode): byte
  {
    match c
    case Normal => 0
    case ConnectFailed => 1
    case UnknownStream => 2
    case ResumeImpossible => 3
    case Internal => 4
    case Forbidden => 5
  }

  function CodeFrom(b: byte): ResetCode
  {
    if b == 0 then Normal
    else if b == 1 then ConnectFailed
    else if b == 2 then UnknownStream
    else if b == 3 then ResumeImpossible
    else if b == 5 then Forbidden
    else Internal
  }

  datatype TargetAddr =
    | V4(octets: bytes, port: nat)
    | V6(octets: bytes, port: nat)
    | Domain(name: bytes, port: nat)

  datatype Frame =
    | Hello(version: byte, session: bytes, resume: bool)
    | HelloAck(version: byte, session: bytes, resumed: bool)
    | Open(id: StreamId, addr: TargetAddr)
    | OpenOk(id: StreamId)
    | OpenErr(id: StreamId, code: ResetCode, msg: bytes)
    | Data(id: StreamId, offset: nat, data: bytes)
    | Ack(id: StreamId, offset: nat)
    | Fin(id: StreamId)
    | Reset(id: StreamId, code: ResetCode)
    | Resume(id: StreamId, recvOffset: nat)
    | ResumeOk(id: StreamId, recvOffset: nat)
    | ResumeErr(id: StreamId, code: ResetCode)
    | Ping(nonce: nat)
    | Pong(nonce: nat)
  {
    /** The stream this frame belongs to; the handshake and keep-alive frames have none. */
    function StreamOf(): Option<StreamId>
    {
      if Hello? || HelloAck? || Ping? || Pong? then None else Some(id)
    }
  }

  /** The frames of one stream among many, in order. */
  function OnStream(fs: seq<Frame>, id: StreamId): seq<Frame>
  {
    if fs == [] then []
    else (if fs[0].StreamOf() == Some(id) then [fs[0]] else []) + OnStream(fs[1..], id)
  }

  lemma {:induction false} OnStreamAppend(fs: seq<Frame>, gs: seq<Frame>, id: StreamId)
    ensures OnStream(fs + gs, id) == OnStream(fs, id) + OnStream(gs, id)
  {
    if fs == [] {
      assert fs + gs == gs;
    } else {
      assert (fs + gs)[1..] == fs[1..] + gs;
      OnStreamAppend(fs[1..], gs, id);
    }
  }

  /** fs are non-empty Data frames carrying exactly hist[from..to], in order and without overlap. */
  predicate Carries(fs: seq<Frame>, id: StreamId, from: nat, to: nat, hist: bytes)
  {
    if fs == [] then from == to
    else
      && fs[0].Data? && fs[0].id == id && fs[0].offset == from && fs[0].data != []
      && from + |fs[0].data| <= to <= |hist|
      && fs[0].data == hist[from..from + |fs[0].data|]
      && Carries(fs[1..], id, from + |fs[0].data|, to, hist)
  }

  lemma {:induction false} CarriesAppend(fs: seq<Frame>, gs: seq<Frame>, id: StreamId, from: nat, mid: nat, to: nat,
                                         hist: bytes)
    requires Carries(fs, id, from, mid, hist) && Carries(gs, id, mid, to, hist) && mid <= to <= |hist|
    ensures Carries(fs + gs, id, from, to, hist)
  {
    if fs == [] {
      assert fs + gs == gs;
    } else {
      assert (fs + gs)[1..] == fs[1..] + gs;
      CarriesAppend(fs[1..], gs, id, from + |fs[0].data|, mid, to, hist);
    }
  }

  lemma {:induction false} CarriesLonger(fs: seq<Frame>, id: StreamId, from: nat, to: nat, hist: bytes, longer: bytes)
    requires Carries(fs, id, from, to, hist) && hist <= longer
    ensures Carries(fs, id, from, to, longer)
  {
    if fs != [] {
      assert hist[from..from + |fs[0].data|] == longer[from..from + |fs[0].data|];
      CarriesLonger(fs[1..], id, from + |fs[0].data|, to, hist, longer);
    }
  }
}
