/** The client driver as an object: it owns the mux and the local endpoints, and turns commands and
    inbound frames into outbound frames. */
module SessionDriver {
  import opened Prelude
  import opened Window
  import opened Frames
  import opened Mux
  import opened Driver
  import P = Promises

  /** One Resume per stream, in whatever order the table yields them, and nothing else. */
  ghost predicate ResumesAll(fs: seq<Frame>, streams: map<StreamId, StreamState>)
  {
    && (forall i :: 0 <= i < |fs| ==> fs[i].Resume?)
    && forall id: StreamId :: ResumesOne(fs, streams, id)
  }

  /** The same for the one stream i. */
  predicate ResumesOne(fs: seq<Frame>, streams: map<StreamId, StreamState>, i: StreamId)
  {
    OnStream(fs, i) == if i in streams then [Resume(i, |streams[i].rx.got|)] else []
  }

  lemma OneMoreResumeFor(fs: seq<Frame>, streams: map<StreamId, StreamState>, todo: set<StreamId>, id: StreamId,
                         i: StreamId)
    requires id in todo && todo <= streams.Keys && ResumesOne(fs, streams - todo, i)
    ensures ResumesOne(fs + [Resume(id, |streams[id].rx.got|)], streams - (todo - {id}), i)
  {
    var f := Resume(id, |streams[id].rx.got|);
    OnStreamAppend(fs, [f], i);
    assert OnStream([f], i) == if i == id then [f] else [] by { assert [f][1..] == []; }
  }

  lemma OneMoreResume(fs: seq<Frame>, streams: map<StreamId, StreamState>, todo: set<StreamId>, id: StreamId)
    requires id in todo && todo <= streams.Keys && ResumesAll(fs, streams - todo)
    ensures ResumesAll(fs + [Resume(id, |streams[id].rx.got|)], streams - (todo - {id}))
  {
    forall i: StreamId ensures ResumesOne(fs + [Resume(id, |streams[id].rx.got|)], streams - (todo - {id}), i) {
      assert ResumesOne(fs, streams - todo, i);
      OneMoreResumeFor(fs, streams, todo, id, i);
    }
  }

  class Session {
    const mux: MuxState
    const sessionId: bytes
    var endpoints: map<StreamId, Endpoint>
    var outbound: seq<Frame>
    var handshakeDone: bool
    var resuming: bool
    var pendingOpens: seq<TargetAddr>
    ghost var atHello: set<StreamId>

    ghost predicate Valid()
      reads this, mux
    {
      mux.Valid() && Consistent(Abs()) && (resuming <==> atHello != {})
    }

    ghost function Abs(): Table
      reads this, mux
    {
      Table(mux.streams, endpoints, outbound)
    }

    constructor (window: nat, sessionId: bytes)
      requires 0 < window
      ensures Valid() && fresh(mux) && Abs() == Table(map[], map[], []) && mux.window == window && mux.nextId == 1
      ensures this.sessionId == sessionId && !handshakeDone && !resuming && pendingOpens == []
    {
      mux := new MuxState(window);
      this.sessionId := sessionId;
      endpoints, outbound, handshakeDone, resuming, pendingOpens := map[], [], false, false, [];
      atHello := {};
    }

    /** A new channel: greet the helper, asking to resume exactly when streams are alive. */
    method Start()
      requires Valid()
      modifies this
      ensures Valid()
      ensures Abs() == old(Abs()).(outbound := [Hello(PROTO_VERSION, sessionId, mux.streams != map[])])
      ensures !handshakeDone && atHello == mux.streams.Keys && resuming == (mux.streams != map[])
    {
      resuming := mux.streams != map[];
      atHello := mux.streams.Keys;
      handshakeDone := false;
      outbound := [Hello(PROTO_VERSION, sessionId, resuming)];
    }

    method PerformEffect(e: Effect, localOk: bool)
      requires mux.Valid()
      modifies this`endpoints, this`outbound, mux`streams
      ensures mux.Valid() && Abs() == Perform(old(Abs()), e, localOk)
    {
      match e {
        case Reply(frames) => outbound := outbound + frames;
        case Deliver(id, data) =>
          if id in endpoints {
            if localOk {
              endpoints := endpoints[id := endpoints[id].(handed := endpoints[id].handed + data)];
            } else {
              endpoints := endpoints - {id};
              outbound := outbound + [Reset(id, Normal)];
              mux.streams := mux.streams - {id};
            }
          }
        case RemoteFin(id) =>
          if id in endpoints {
            endpoints := endpoints[id := endpoints[id].(eof := true)];
          }
        case Terminate(id, _) =>
          endpoints := endpoints - {id};
          mux.streams := mux.streams - {id};
        case Resumed(id, _) =>
          var frames := mux.DrainStreamOutput(id, DRAIN_BATCH);
          outbound := outbound + frames;
      }
    }

    /** Drop every stream, one after another, and tell its endpoint. */
    method TerminateAll()
      requires Valid()
      modifies this`endpoints, mux`streams
      ensures Valid() && mux.streams == map[] && endpoints == map[]
    {
      var ids := mux.streams.Keys;
      while ids != {}
        invariant mux.Valid() && Consistent(Abs())
        invariant ids == mux.streams.Keys
        decreases |ids|
      {
        var id :| id in ids;
        mux.streams := mux.streams - {id};
        endpoints := endpoints - {id};
        ids := ids - {id};
      }
      assert endpoints.Keys == {};
    }

    method BuildResumeFrames() returns (frames: seq<Frame>)
      requires mux.Valid()
      ensures ResumesAll(frames, mux.streams)
    {
      frames := [];
      var ids := mux.streams.Keys;
      while ids != {}
        invariant ids <= mux.streams.Keys
        invariant ResumesAll(frames, mux.streams - ids)
        decreases |ids|
      {
        var id :| id in ids;
        OneMoreResume(frames, mux.streams, ids, id);
        frames := frames + [Resume(id, |mux.streams[id].rx.got|)];
        ids := ids - {id};
      }
      assert mux.streams - {} == mux.streams;
    }

    /** The handshake answer decides the fate of the streams that were alive at Hello. */
    method HandleHelloAck(version: byte, resumed: bool) returns (keep: bool)
      requires Valid()
      modifies this, mux`streams
      ensures Valid() && pendingOpens == old(pendingOpens) && atHello == old(atHello) && resuming == old(resuming)
      ensures keep == (version == PROTO_VERSION)
      ensures !keep ==> mux.streams == map[] && outbound == old(outbound)
      ensures keep ==> handshakeDone
      ensures keep && !resumed ==> mux.streams.Keys !! atHello && outbound == old(outbound)
      ensures keep && !resumed && resuming ==> mux.streams == map[] && endpoints == map[]
      ensures keep && !resumed && !resuming ==> Abs() == old(Abs())
      ensures keep && resumed ==>
                && mux.streams == old(mux.streams) && endpoints == old(endpoints)
                && old(outbound) <= outbound
                && (resuming ==> ResumesAll(outbound[|old(outbound)|..], mux.streams))
                && (!resuming ==> outbound == old(outbound))
    {
      if version != PROTO_VERSION {
        TerminateAll();
        return false;
      }
      handshakeDone := true;
      if resuming && !resumed {
        TerminateAll();
      } else if resuming {
        var frames := BuildResumeFrames();
        outbound := outbound + frames;
        assert outbound[|old(outbound)|..] == frames;
      }
      return true;
    }

    /** Apply a frame and carry out its effects in order. */
    method ApplyAndPerform(f: Frame, localOk: bool)
      requires Valid()
      modifies this`endpoints, this`outbound, mux`streams
      ensures Valid()
      ensures f.StreamOf().Some? && f.id in old(mux.streams) ==>
                Abs() == Settle(old(Abs()), f.id, FrameOutcome(old(mux.streams)[f.id], f, localOk))
      ensures f.StreamOf().Some? && f.id !in old(mux.streams) ==>
                Abs() == old(Abs()).(outbound := old(outbound) + (if f.Data? then [Reset(f.id, UnknownStream)] else []))
      ensures f.StreamOf().None? ==>
                Abs() == old(Abs()).(outbound := old(outbound) + (if f.Ping? then [Pong(f.nonce)] else []))
    {
      ghost var before := Abs();
      var effects := mux.ApplyFrame(f);
      PerformEffects(effects, localOk);
      if f.StreamOf().None? {
        PerformUpTo2(before, effects, localOk);
        assert outbound == before.outbound + (if f.Ping? then [Pong(f.nonce)] else []);
      } else if f.id in before.streams {
        EffectsSettle(before, f, localOk);
        FrameOutcomeValid(before.streams[f.id], f, localOk);
        SettleConsistent(before, f.id, FrameOutcome(before.streams[f.id], f, localOk));
      } else {
        NoStreamToTerminate(before, f, localOk);
      }
    }

    method PerformEffects(effects: seq<Effect>, localOk: bool)
      requires mux.Valid()
      modifies this`endpoints, this`outbound, mux`streams
      ensures mux.Valid() && Abs() == PerformAll(old(Abs()), effects, localOk)
    {
      var i := 0;
      while i < |effects|
        invariant 0 <= i <= |effects|
        invariant mux.Valid() && Abs() == PerformAll(old(Abs()), effects[..i], localOk)
      {
        assert effects[..i + 1][..i] == effects[..i];
        PerformEffect(effects[i], localOk);
        i := i + 1;
      }
      assert effects[..i] == effects;
    }

    /** One frame from the helper; false means the channel is given up. Nothing but the handshake
        answer is accepted before it, and afterwards a frame acts on its own stream only. */
    method HandleInbound(f: Frame, localOk: bool) returns (keep: bool)
      requires Valid()
      modifies this, mux`streams
      ensures Valid() && pendingOpens == old(pendingOpens) && atHello == old(atHello) && resuming == old(resuming)
      // the handshake answer
      ensures f.HelloAck? ==> keep == (f.version == PROTO_VERSION) && (keep ==> handshakeDone)
      ensures f.HelloAck? && !keep ==> mux.streams == map[] && outbound == old(outbound)
      ensures f.HelloAck? && !f.resumed ==> mux.streams.Keys !! atHello
      ensures f.HelloAck? && keep && resuming && !f.resumed ==>
                mux.streams == map[] && endpoints == map[] && outbound == old(outbound)
      ensures f.HelloAck? && keep && !resuming ==> Abs() == old(Abs())
      ensures f.HelloAck? && keep && resuming && f.resumed ==>
                && mux.streams == old(mux.streams) && endpoints == old(endpoints)
                && old(outbound) <= outbound && ResumesAll(outbound[|old(outbound)|..], mux.streams)
      // any other frame
      ensures !f.HelloAck? ==> keep == old(handshakeDone) == handshakeDone
      ensures !f.HelloAck? && !keep ==> Abs() == old(Abs())
      ensures !f.HelloAck? && keep && f.StreamOf().Some? && f.id in old(mux.streams) ==>
                Abs() == Settle(old(Abs()), f.id, FrameOutcome(old(mux.streams)[f.id], f, localOk))
      ensures !f.HelloAck? && keep && f.StreamOf().Some? && f.id in old(mux.streams) ==>
                P.FrameTaken(old(Abs()), Abs(), f, localOk)
      ensures !f.HelloAck? && keep && f.StreamOf().Some? && f.id !in old(mux.streams) ==>
                Abs() == old(Abs()).(outbound := old(outbound) + (if f.Data? then [Reset(f.id, UnknownStream)] else []))
      ensures !f.HelloAck? && keep && f.StreamOf().None? ==>
                Abs() == old(Abs()).(outbound := old(outbound) + (if f.Ping? then [Pong(f.nonce)] else []))
    {
      if f.HelloAck? {
        keep := HandleHelloAck(f.version, f.resumed);
      } else if !handshakeDone {
        keep := false;
      } else {
        if f.StreamOf().Some? && f.id in mux.streams { P.FramePromised(Abs(), f, localOk); }
        ApplyAndPerform(f, localOk);
        keep := true;
      }
    }

    method DrainToOutbound(id: StreamId)
      requires mux.Valid() && id in mux.streams
      modifies this`outbound, mux`streams
      ensures mux.Valid()
      ensures var o := DrainOutcome(id, old(mux.streams)[id], DRAIN_BATCH);
              Abs() == Table(old(mux.streams)[id := o.st], endpoints, old(outbound) + o.out)
    {
      var frames := mux.DrainStreamOutput(id, DRAIN_BATCH);
      outbound := outbound + frames;
    }

    /** The stream is gone: its endpoint is dropped and the helper is told. */
    method CloseStream(id: StreamId, code: ResetCode)
      requires mux.Valid()
      modifies this`endpoints, this`outbound, mux`streams
      ensures mux.Valid()
      ensures Abs() == Table(old(mux.streams) - {id}, old(endpoints) - {id}, old(outbound) + [Reset(id, code)])
    {
      mux.streams := mux.streams - {id};
      endpoints := endpoints - {id};
      outbound := outbound + [Reset(id, code)];
    }

    /** A stream's new state, and what it then has to send. */
    method StoreAndDrain(id: StreamId, st: StreamState)
      requires mux.Valid() && st.tx.Valid()
      modifies this`outbound, mux`streams
      ensures mux.Valid()
      ensures var o := DrainOutcome(id, st, DRAIN_BATCH);
              Abs() == Table(old(mux.streams)[id := st][id := o.st], endpoints, old(outbound) + o.out)
    {
      mux.streams := mux.streams[id := st];
      DrainToOutbound(id);
    }

    /** Bytes from the local side while a channel is up: all of them are buffered, or the stream is reset. */
    method SendLocal(id: StreamId, data: bytes)
      requires Valid() && id in mux.streams
      modifies this`endpoints, this`outbound, mux`streams
      ensures Valid()
      ensures Abs() == Settle(old(Abs()), id, OnlineOutcome(old(mux.streams)[id], LocalData(id, data)))
    {
      var st := mux.streams[id];
      var n := Min(st.tx.Writable(), |data|);
      if n < |data| {
        OverflowSettles(Abs(), id, data);
        mux.streams := mux.streams[id := st.(tx := st.tx.Push(data))];
        CloseStream(id, Internal);
      } else {
        PushSettles(Abs(), id, data);
        StoreAndDrain(id, st.(tx := st.tx.Push(data)));
      }
    }

    /** A command while a channel is up: buffer, drain, or close. */
    method HandleCommand(c: Command)
      requires Valid()
      modifies this`endpoints, this`outbound, mux`streams
      ensures Valid()
      ensures c.id in old(mux.streams) ==>
                Abs() == Settle(old(Abs()), c.id, OnlineOutcome(old(mux.streams)[c.id], c))
      ensures c.id in old(mux.streams) ==> P.CommandDone(old(Abs()), Abs(), c)
      ensures c.id !in old(mux.streams) ==> Abs() == old(Abs())
    {
      if c.id !in mux.streams {
        return;
      }
      P.CommandPromised(Abs(), c);
      match c {
        case LocalData(id, data) => SendLocal(id, data);
        case LocalEof(id) =>
          ghost var before := Abs();
          var st := mux.streams[id].(localFin := true);
          SettleConsistent(before, id, OnlineOutcome(mux.streams[id], c));
          StoreAndDrain(id, st);
          DrainSettles(before, id, st);
        case LocalClose(id) => CloseStream(id, Normal);
      }
    }

    /** A command while no channel is up: the bytes are kept, the send cursor does not move. */
    method BufferOffline(c: Command)
      requires Valid()
      modifies this`endpoints, mux`streams
      ensures Valid()
      ensures c.id in old(mux.streams) ==>
                Abs() == Settle(old(Abs()), c.id, OfflineOutcome(old(mux.streams)[c.id], c))
      ensures c.id in old(mux.streams) ==> P.CommandBuffered(old(Abs()), Abs(), c)
      ensures c.id !in old(mux.streams) ==> Abs() == old(Abs())
    {
      var id := c.id;
      if id in mux.streams { P.BufferPromised(Abs(), c); }
      OfflineSettles(Abs(), c);
      match c {
        case LocalData(_, data) =>
          if id in mux.streams {
            var st := mux.streams[id];
            mux.streams := mux.streams[id := st.(tx := st.tx.Push(data))];
            if Min(st.tx.Writable(), |data|) < |data| {
              endpoints := endpoints - {id};
              mux.streams := mux.streams - {id};
            }
          }
        case LocalEof(_) =>
          if id in mux.streams {
            mux.streams := mux.streams[id := mux.streams[id].(localFin := true)];
          }
        case LocalClose(_) =>
          mux.streams := mux.streams - {id};
          endpoints := endpoints - {id};
      }
    }

    /** A fresh stream with its endpoint, announced by Open before anything else is sent on it. Its
        identifier is the first free one from the counter on, and the counter goes past it. */
    method OpenStream(addr: TargetAddr) returns (id: StreamId)
      requires Valid() && |mux.streams| < ID_SPACE - 1
      modifies this`endpoints, this`outbound, mux
      ensures Valid() && id != 0 && id !in old(mux.streams)
      ensures AllTaken(old(mux.streams).Keys, old(mux.nextId), id) && mux.nextId == NextId(id)
      ensures Abs() == Settle(old(Abs()), id, Outcome(NewStream(mux.window), true, [Open(id, addr)]))
      ensures mux.streams == old(mux.streams)[id := NewStream(mux.window)]
      ensures mux.streams[id]
              == StreamState(Window([], 0, 0, mux.window, false), Inbox([], None), false, false, false, None)
      ensures outbound == old(outbound) + [Open(id, addr)]
    {
      ghost var before := Abs();
      id := mux.AllocStream();
      SettleConsistent(before, id, Outcome(NewStream(mux.window), true, [Open(id, addr)]));
      endpoints := endpoints[id := Endpoint([], false)];
      outbound := outbound + [Open(id, addr)];
    }

    /** The requests that arrived while no channel was up, in order of arrival. */
    method FlushPendingOpens() returns (ids: seq<StreamId>)
      requires Valid() && |mux.streams| + |pendingOpens| < ID_SPACE
      modifies this, mux
      ensures Valid() && pendingOpens == [] && atHello == old(atHello) && handshakeDone == old(handshakeDone)
      ensures |ids| == |old(pendingOpens)| && |mux.streams| == old(|mux.streams|) + |ids|
      ensures Extended(old(mux.streams), mux.streams, ids)
      ensures Spare(old(mux.streams), old(mux.nextId), |ids|) ==> InSequence(ids, old(mux.nextId), mux.nextId)
      ensures outbound == old(outbound) + OpenFrames(ids, old(pendingOpens))
    {
      var todo := pendingOpens;
      pendingOpens := [];
      ids := OpenAll(todo);
    }

    method OpenAll(addrs: seq<TargetAddr>) returns (ids: seq<StreamId>)
      requires Valid() && |mux.streams| + |addrs| < ID_SPACE
      modifies this`endpoints, this`outbound, mux
      ensures Valid()
      ensures |ids| == |addrs| && |mux.streams| == old(|mux.streams|) + |ids|
      ensures Extended(old(mux.streams), mux.streams, ids)
      ensures Spare(old(mux.streams), old(mux.nextId), |addrs|) ==> InSequence(ids, old(mux.nextId), mux.nextId)
      ensures outbound == old(outbound) + OpenFrames(ids, addrs)
    {
      ids := [];
      NoneOpened(mux.streams, outbound);
      while |ids| < |addrs|
        invariant |ids| <= |addrs| && Valid()
        invariant Opened(old(mux.streams), old(outbound), mux.streams, outbound, ids, addrs[..|ids|])
        invariant Numbered(old(mux.streams), old(mux.nextId), mux.streams, mux.nextId, ids, |addrs|)
        decreases |addrs| - |ids|
      {
        ghost var before, sent := mux.streams, outbound;
        ghost var next := mux.nextId;
        var id := OpenStream(addrs[|ids|]);
        NumberedMore(old(mux.streams), old(mux.nextId), before, next, ids, |addrs|, id, NewStream(mux.window));
        OpenedMore(old(mux.streams), old(outbound), before, sent, ids, addrs, id, NewStream(mux.window));
        ids := ids + [id];
      }
      assert addrs[..|ids|] == addrs;
    }
  }

  /** The counter is above every identifier in use, with room for some more below the end of the space. */
  ghost predicate Spare(streams: map<StreamId, StreamState>, next: StreamId, more: nat)
  {
    0 < next && next + more < ID_SPACE && forall i :: i in streams ==> i < next
  }

  /** ids are consecutive, from the counter's old value up to its new one. */
  predicate InSequence(ids: seq<StreamId>, from: StreamId, next: StreamId)
  {
    next == from + |ids| && forall k :: 0 <= k < |ids| ==> ids[k] == from + k
  }

  /** With room for all that are to be opened, they are numbered in sequence. */
  ghost predicate Numbered(before: map<StreamId, StreamState>, from: StreamId, streams: map<StreamId, StreamState>,
                           next: StreamId, ids: seq<StreamId>, total: nat)
  {
    |ids| <= total && (Spare(before, from, total) ==>
      Spare(streams, next, total - |ids|) && InSequence(ids, from, next))
  }

  /** The counter itself is the first free identifier. */
  lemma FirstSpare(streams: map<StreamId, StreamState>, next: StreamId, more: nat, id: StreamId, st: StreamState)
    requires Spare(streams, next, more) && 0 < more && AllTaken(streams.Keys, next, id)
    ensures id == next && Spare(streams[id := st], NextId(id), more - 1)
  {
    assert Distance(next, id) <= Distance(next, next);
  }

  lemma NumberedMore(before: map<StreamId, StreamState>, from: StreamId, streams: map<StreamId, StreamState>,
                     next: StreamId, ids: seq<StreamId>, total: nat, id: StreamId, st: StreamState)
    requires Numbered(before, from, streams, next, ids, total) && |ids| < total && AllTaken(streams.Keys, next, id)
    ensures Numbered(before, from, streams[id := st], NextId(id), ids + [id], total)
  {
    if Spare(before, from, total) { FirstSpare(streams, next, total - |ids|, id, st); }
  }

  /** From one table and queue to another, one stream more and one Open for each listed identifier. */
  ghost predicate Opened(before: map<StreamId, StreamState>, queue: seq<Frame>, after: map<StreamId, StreamState>,
                         outbound: seq<Frame>, ids: seq<StreamId>, addrs: seq<TargetAddr>)
  {
    && Extended(before, after, ids) && |after| == |before| + |ids|
    && Announced(queue, outbound, ids, addrs)
  }

  lemma OpenedMore(before: map<StreamId, StreamState>, queue: seq<Frame>, mid: map<StreamId, StreamState>,
                   sent: seq<Frame>, ids: seq<StreamId>, addrs: seq<TargetAddr>, id: StreamId, st: StreamState)
    requires |ids| < |addrs| && Opened(before, queue, mid, sent, ids, addrs[..|ids|]) && id !in mid
    ensures Opened(before, queue, mid[id := st], sent + [Open(id, addrs[|ids|])], ids + [id], addrs[..|ids| + 1])
  {
    OneMoreStream(mid, id, st);
    ExtendedSnoc(before, mid, ids, id, st);
    AnnouncedSnoc(queue, sent, ids, addrs[..|ids|], id, addrs[|ids|]);
    assert addrs[..|ids| + 1] == addrs[..|ids|] + [addrs[|ids|]];
  }

  /** outbound is what was there before and one Open per listed stream, in order. */
  predicate Announced(before: seq<Frame>, outbound: seq<Frame>, ids: seq<StreamId>, addrs: seq<TargetAddr>)
  {
    |ids| == |addrs| && outbound == before + OpenFrames(ids, addrs)
  }

  lemma NoneOpened(streams: map<StreamId, StreamState>, outbound: seq<Frame>)
    ensures Opened(streams, outbound, streams, outbound, [], [])
  {
    assert outbound + [] == outbound;
  }

  lemma AnnouncedSnoc(before: seq<Frame>, sent: seq<Frame>, ids: seq<StreamId>, addrs: seq<TargetAddr>,
                      id: StreamId, addr: TargetAddr)
    requires Announced(before, sent, ids, addrs)
    ensures Announced(before, sent + [Open(id, addr)], ids + [id], addrs + [addr])
  {
    OpenFramesSnoc(ids, addrs, id, addr);
    FramesAssoc(before, OpenFrames(ids, addrs), [Open(id, addr)]);
  }

  lemma FramesAssoc(a: seq<Frame>, b: seq<Frame>, c: seq<Frame>)
    ensures (a + b) + c == a + (b + c)
  {
  }

  /** Every old stream is untouched, and every listed one is new. */
  ghost predicate Extended(before: map<StreamId, StreamState>, after: map<StreamId, StreamState>, ids: seq<StreamId>)
  {
    && (forall id :: id in before ==> id in after && after[id] == before[id])
    && (forall id :: id in ids ==> id in after && id !in before)
  }

  lemma ExtendedSnoc(before: map<StreamId, StreamState>, mid: map<StreamId, StreamState>,
                     ids: seq<StreamId>, id: StreamId, st: StreamState)
    requires Extended(before, mid, ids) && id !in mid
    ensures Extended(before, mid[id := st], ids + [id])
  {
  }

  lemma OneMoreStream(streams: map<StreamId, StreamState>, id: StreamId, st: StreamState)
    requires id !in streams
    ensures |streams[id := st]| == |streams| + 1
  {
    assert streams[id := st].Keys == streams.Keys + {id};
    assert |streams.Keys| == |streams|;
    assert |streams[id := st].Keys| == |streams[id := st]|;
  }

  function OpenFrames(ids: seq<StreamId>, addrs: seq<TargetAddr>): seq<Frame>
    requires |ids| == |addrs|
  {
    seq(|ids|, i requires 0 <= i < |ids| => Open(ids[i], addrs[i]))
  }

  lemma OpenFramesSnoc(ids: seq<StreamId>, addrs: seq<TargetAddr>, id: StreamId, addr: TargetAddr)
    requires |ids| == |addrs|
    ensures OpenFrames(ids + [id], addrs + [addr]) == OpenFrames(ids, addrs) + [Open(id, addr)]
  {
  }

  /** Draining a stream whose inbox is untouched leaves every endpoint as it was. */
  lemma DrainSettles(t: Table, id: StreamId, st: StreamState)
    requires Consistent(t) && id in t.streams && st.tx.Valid()
    requires st.rx == t.streams[id].rx && st.remoteFin == t.streams[id].remoteFin
    ensures var o := DrainOutcome(id, st, DRAIN_BATCH);
            && t.streams[id := st][id := o.st] == t.streams[id := o.st]
            && Settle(t, id, o) == Table(t.streams[id := o.st], t.endpoints, t.outbound + o.out)
  {
    assert t.endpoints[id := t.endpoints[id]] == t.endpoints;
  }

  /** Closing the stream after a push that did not fit amounts to settling it. */
  lemma OverflowSettles(t: Table, id: StreamId, data: bytes)
    requires Consistent(t) && id in t.streams && t.streams[id].tx.Writable() < |data|
    ensures var st := t.streams[id];
            && Consistent(Settle(t, id, OnlineOutcome(st, LocalData(id, data))))
            && Settle(t, id, OnlineOutcome(st, LocalData(id, data)))
               == Table(t.streams[id := st.(tx := st.tx.Push(data))] - {id}, t.endpoints - {id},
                        t.outbound + [Reset(id, Internal)])
  {
    var st := t.streams[id];
    SettleConsistent(t, id, OnlineOutcome(st, LocalData(id, data)));
    assert t.streams[id := st.(tx := st.tx.Push(data))] - {id} == t.streams - {id};
  }

  /** Draining the stream after a push that fitted amounts to settling it. */
  lemma PushSettles(t: Table, id: StreamId, data: bytes)
    requires Consistent(t) && id in t.streams && |data| <= t.streams[id].tx.Writable()
    ensures var st := t.streams[id];
            var pushed := st.(tx := st.tx.Push(data));
            var d := DrainOutcome(id, pushed, DRAIN_BATCH);
            && pushed.tx.Valid() && Consistent(Settle(t, id, OnlineOutcome(st, LocalData(id, data))))
            && Settle(t, id, OnlineOutcome(st, LocalData(id, data)))
               == Table(t.streams[id := pushed][id := d.st], t.endpoints, t.outbound + d.out)
  {
    var st := t.streams[id];
    OnlineOutcomeValid(st, LocalData(id, data));
    SettleConsistent(t, id, OnlineOutcome(st, LocalData(id, data)));
    DrainSettles(t, id, st.(tx := st.tx.Push(data)));
  }

  /** The table a command leaves when no channel is up. */
  lemma OfflineSettles(t: Table, c: Command)
    requires Consistent(t)
    ensures c.id in t.streams ==>
              var st := t.streams[c.id];
              && Consistent(Settle(t, c.id, OfflineOutcome(st, c)))
              && Settle(t, c.id, OfflineOutcome(st, c)) ==
                 match c
                 case LocalData(id, data) =>
                   var pushed := t.streams[id := st.(tx := st.tx.Push(data))];
                   if st.tx.Writable() < |data| then Table(pushed - {id}, t.endpoints - {id}, t.outbound)
                   else Table(pushed, t.endpoints, t.outbound)
                 case LocalEof(id) => Table(t.streams[id := st.(localFin := true)], t.endpoints, t.outbound)
                 case LocalClose(id) => Table(t.streams - {id}, t.endpoints - {id}, t.outbound)
    ensures c.id !in t.streams ==> Table(t.streams - {c.id}, t.endpoints - {c.id}, t.outbound) == t
  {
    if c.id in t.streams {
      var st := t.streams[c.id];
      SettleConsistent(t, c.id, OfflineOutcome(st, c));
      assert t.outbound + [] == t.outbound;
      assert t.endpoints[c.id := t.endpoints[c.id]] == t.endpoints;
      if c.LocalData? { assert t.streams[c.id := st.(tx := st.tx.Push(c.data))] - {c.id} == t.streams - {c.id}; }
    }
  }

  lemma FrameOutcomeValid(st: StreamState, f: Frame, localOk: bool)
    requires st.tx.Valid() && st.reset.None? && f.StreamOf().Some?
    ensures var o := FrameOutcome(st, f, localOk); o.live ==> o.st.tx.Valid() && o.st.reset.None?
  {
  }

  lemma OnlineOutcomeValid(st: StreamState, c: Command)
    requires st.tx.Valid() && st.reset.None?
    ensures var o := OnlineOutcome(st, c); o.live ==> o.st.tx.Valid() && o.st.reset.None?
  {
  }

  lemma NoStreamToTerminate(t: Table, f: Frame, localOk: bool)
    requires Consistent(t) && f.StreamOf().Some? && f.id !in t.streams
    ensures var es := OnUnknown(f);
            PerformAll(t, es, localOk)
            == t.(outbound := t.outbound + (if f.Data? then [Reset(f.id, UnknownStream)] else []))
  {
    PerformUpTo2(t, OnUnknown(f), localOk);
    assert t.streams - {f.id} == t.streams && t.endpoints - {f.id} == t.endpoints;
    assert t.outbound + [] == t.outbound;
  }
}
