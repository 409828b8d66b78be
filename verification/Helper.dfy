/** The helper's session loop: one frame or stream event at a time over its directory of streams. */
module Helper {
  import opened Prelude
  import opened Frames
  import opened HelperStream
  import P = Promises

  datatype StreamEvent = EgressDone(id: StreamId) | Failed(id: StreamId, reset: Option<ResetCode>)

  class Directory {
    var session: Option<bytes>
    var streams: map<StreamId, HStream>
    var out: seq<Frame>
    const window: nat
    const maxStreams: nat

    ghost predicate Valid()
      reads this
    {
      0 < window && forall id :: id in streams ==> Good(streams[id])
    }

    constructor (window: nat, maxStreams: nat)
      requires 0 < window
      ensures Valid() && session == None && streams == map[] && out == []
      ensures this.window == window && this.maxStreams == maxStreams
    {
      session, streams, out := None, map[], [];
      this.window, this.maxStreams := window, maxStreams;
    }

    /** Resume only when the same session asks for it and streams are still held;
        anything else starts afresh. */
    method HandleHello(version: byte, requested: bytes, resume: bool) returns (keep: bool)
      requires Valid()
      modifies this
      ensures Valid() && keep == (version == PROTO_VERSION)
      ensures var resumed := keep && resume && old(session) == Some(requested) && old(streams) != map[];
              && out == old(out) + [HelloAck(PROTO_VERSION, requested, resumed)]
              && (resumed ==> streams == old(streams))
              && (keep && !resumed ==> streams == map[])
              && (keep ==> session == Some(requested))
              && (!keep ==> streams == old(streams) && session == old(session))
    {
      if version != PROTO_VERSION {
        out := out + [HelloAck(PROTO_VERSION, requested, false)];
        return false;
      }
      var resumed := resume && session == Some(requested) && streams != map[];
      if !resumed {
        streams := map[];
        session := Some(requested);
      }
      out := out + [HelloAck(PROTO_VERSION, requested, resumed)];
      return true;
    }

    /** A new stream, unless the identifier is taken, the directory is full or the target is refused. */
    method HandleOpen(id: StreamId, permitted: bool)
      requires Valid()
      modifies this`streams, this`out
      ensures Valid()
      ensures var refusal := Refusal(id, id in old(streams), |old(streams)| >= maxStreams, permitted);
              && streams == (if refusal == [] then old(streams)[id := NewHStream(window)] else old(streams))
              && out == old(out) + refusal
      ensures old(out) <= out
      ensures P.OpenAnswered(old(streams), streams, out[|old(out)|..], id, window, maxStreams, permitted)
    {
      P.SentIs(out, Refusal(id, id in streams, |streams| >= maxStreams, permitted));
      if id in streams {
        out := out + [OpenErr(id, Internal, DUPLICATE_ID)];
      } else if |streams| >= maxStreams {
        out := out + [OpenErr(id, Internal, TOO_MANY)];
      } else if !permitted {
        out := out + [OpenErr(id, Forbidden, NOT_ALLOWED)];
      } else {
        NewIsGood(window);
        assert out + [] == out;
        streams := streams[id := NewHStream(window)];
      }
    }

    /** One decoded frame; false means the session ends. A frame for a stream acts on that stream only. */
    method HandleFrame(f: Frame, permitted: bool, linked: bool) returns (keep: bool)
      requires Valid()
      modifies this
      ensures Valid()
      ensures keep <==> (f.Hello? ==> f.version == PROTO_VERSION)
      ensures f.StreamOf().Some? && !f.Open? && f.id in old(streams) ==>
                var o := OnFrame(old(streams)[f.id], f, linked);
                && streams == (if o.live then old(streams)[f.id := o.st] else old(streams) - {f.id})
                && out == old(out) + o.out && session == old(session)
                && P.HelperTaken(old(streams), streams, out[|old(out)|..], f, linked)
      ensures f.StreamOf().Some? && !f.Open? && f.id !in old(streams) ==>
                && streams == old(streams) && out == old(out) + OnUnknown(f) && session == old(session)
                && P.StrangerAnswered(out[|old(out)|..], f)
      ensures f.Hello? ==>
                var resumed := keep && f.resume && old(session) == Some(f.session) && old(streams) != map[];
                && out == old(out) + [HelloAck(PROTO_VERSION, f.session, resumed)]
                && streams == (if keep && !resumed then map[] else old(streams))
                && session == (if keep then Some(f.session) else old(session))
      ensures f.Open? ==>
                var refusal := Refusal(f.id, f.id in old(streams), |old(streams)| >= maxStreams, permitted);
                && streams == (if refusal == [] then old(streams)[f.id := NewHStream(window)] else old(streams))
                && out == old(out) + refusal && session == old(session)
                && P.OpenAnswered(old(streams), streams, out[|old(out)|..], f.id, window, maxStreams, permitted)
      ensures f.HelloAck? || f.Pong? || f.Ping? ==>
                && streams == old(streams) && session == old(session)
                && out == old(out) + (if f.Ping? then [Pong(f.nonce)] else [])
    {
      if f.Hello? {
        keep := HandleHello(f.version, f.session, f.resume);
      } else if f.Open? {
        HandleOpen(f.id, permitted);
        keep := true;
      } else if f.StreamOf().None? {
        out := out + (if f.Ping? then [Pong(f.nonce)] else []);
        keep := true;
      } else if f.id !in streams {
        P.SentIs(out, OnUnknown(f));
        out := out + OnUnknown(f);
        keep := true;
      } else {
        OnFrameIsGood(streams[f.id], f, linked);
        P.HelperPromised(streams, f, linked);
        P.SentIs(out, OnFrame(streams[f.id], f, linked).out);
        var o := OnFrame(streams[f.id], f, linked);
        streams := if o.live then streams[f.id := o.st] else streams - {f.id};
        out := out + o.out;
        keep := true;
      }
    }

    /** A report from a stream's task, or one left over from an earlier stream of the same identifier.
        A stream that counts as finished is reclaimed, and only such a one. */
    method HandleStreamEvent(e: StreamEvent)
      requires Valid()
      modifies this`streams, this`out
      ensures Valid()
      ensures e.EgressDone? && e.id in old(streams) ==>
                && (e.id !in streams <==> Finished(old(streams)[e.id].(egressDone := true)))
                && (e.id in streams ==> streams == old(streams)[e.id := old(streams)[e.id].(egressDone := true)])
                && streams - {e.id} == old(streams) - {e.id} && out == old(out)
      ensures e.EgressDone? && e.id !in old(streams) ==> streams == old(streams) && out == old(out)
      ensures e.EgressDone? ==> P.OverTaken(old(streams), streams, e.id)
      ensures e.Failed? ==>
                && streams == old(streams) - {e.id}
                && out == old(out) + (if e.reset.Some? then [Reset(e.id, e.reset.value)] else [])
    {
      match e {
        case EgressDone(id) =>
          ghost var others := streams - {id};
          if id in streams {
            streams := streams[id := streams[id].(egressDone := true)];
            assert streams - {id} == others;
          }
          MaybeCleanupFinished(id);
          if id !in streams { assert streams == streams - {id} == others; }
        case Failed(id, reset) =>
          streams := streams - {id};
          if reset.Some? {
            out := out + [Reset(id, reset.value)];
          }
      }
    }

    method MaybeCleanupFinished(id: StreamId)
      requires Valid()
      modifies this`streams
      ensures Valid()
      ensures streams
              == if id in old(streams) && P.BothEnded(old(streams)[id]) then old(streams) - {id} else old(streams)
    {
      if id in streams && Finished(streams[id]) {
        streams := streams - {id};
      }
    }
  }
}
