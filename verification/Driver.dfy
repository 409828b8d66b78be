/** The client driver: one round of commands and frames over the stream table and the local endpoints. */
module Driver {
  import opened Prelude
  import opened Frames
  import opened Mux

  const DRAIN_BATCH: nat := 64

  /** How much one resume answer or one command sends: at most a batch of frames. */
  const BATCH_BYTES: nat := DRAIN_BATCH * DATA_CHUNK

  /** handed: the bytes passed to the local endpoint. eof: it was told the remote side has finished. */
  datatype Endpoint = Endpoint(handed: bytes, eof: bool)

  datatype Command =
    | LocalData(id: StreamId, data: bytes)
    | LocalEof(id: StreamId)
    | LocalClose(id: StreamId)

  /** What becomes of one stream: its state, whether it survives, and the frames sent on the way. */
  datatype Outcome = Outcome(st: StreamState, live: bool, out: seq<Frame>)

  function DrainOutcome(id: StreamId, st: StreamState, k: nat): (o: Outcome)
    requires st.tx.Valid()
  {
    var (st', fs) := Drain(id, st, k);
    Outcome(st', true, fs)
  }

  /** The whole effect of one inbound frame on its stream; localOk says whether the local endpoint
      is still there to take delivered bytes. */
  function FrameOutcome(st: StreamState, f: Frame, localOk: bool): (o: Outcome)
    requires st.tx.Valid() && f.StreamOf().Some?
  {
    var st' := OnFrame(st, f).0;
    match f
    case Data(id, offset, data) => (
      match st.rx.Accept(offset, data)
      case Ok((rx, Some(_))) =>
        if localOk then Outcome(st', true, [Ack(id, |rx.got|)])
        else Outcome(st', false, [Reset(id, Normal), Ack(id, |rx.got|)])
      case Ok((rx, None)) => Outcome(st', true, [Ack(id, |rx.got|)])
      case Err(_) => Outcome(st', false, [Reset(id, Internal)]))
    case ResumeOk(id, recvOffset) =>
      if st.tx.Rewind(recvOffset).Ok? then DrainOutcome(id, st', DRAIN_BATCH)
      else Outcome(st', false, [Reset(id, ResumeImpossible)])
    case _ => Outcome(st', st'.reset == st.reset, [])
  }

  function OnlineOutcome(st: StreamState, c: Command): (o: Outcome)
    requires st.tx.Valid()
  {
    match c
    case LocalData(id, data) =>
      var st' := st.(tx := st.tx.Push(data));
      if st.tx.Writable() < |data| then Outcome(st'.(reset := Some(Internal)), false, [Reset(id, Internal)])
      else DrainOutcome(id, st', DRAIN_BATCH)
    case LocalEof(id) => DrainOutcome(id, st.(localFin := true), DRAIN_BATCH)
    case LocalClose(id) => Outcome(st, false, [Reset(id, Normal)])
  }

  function OfflineOutcome(st: StreamState, c: Command): (o: Outcome)
    requires st.tx.Valid()
  {
    match c
    case LocalData(id, data) =>
      var st' := st.(tx := st.tx.Push(data));
      if st.tx.Writable() < |data| then Outcome(st'.(reset := Some(Internal)), false, [])
      else Outcome(st', true, [])
    case LocalEof(id) => Outcome(st.(localFin := true), true, [])
    case LocalClose(id) => Outcome(st, false, [])
  }

  /** Bytes from the local side are buffered whole, with a channel or without one, or the stream is gone. */
  lemma BufferedWholeOrGone(st: StreamState, id: StreamId, data: bytes)
    requires st.tx.Valid()
    ensures var on, off := OnlineOutcome(st, LocalData(id, data)), OfflineOutcome(st, LocalData(id, data));
            && (on.live <==> |data| <= st.tx.Writable()) && (off.live <==> on.live)
            && (on.live ==> on.st.tx.hist == st.tx.hist + data == off.st.tx.hist)
            && (!on.live ==> on.out == [Reset(id, Internal)] && off.out == [])
  {
    if |data| <= st.tx.Writable() { assert data[..|data|] == data; }
  }

  // ---- The table as a value ----

  datatype Table = Table(
    streams: map<StreamId, StreamState>,
    endpoints: map<StreamId, Endpoint>,
    outbound: seq<Frame>)

  /** Endpoints and streams come and go together; nothing reset survives; each endpoint has been
      handed exactly the bytes its stream has received. */
  predicate Consistent(t: Table)
  {
    && t.endpoints.Keys == t.streams.Keys
    && forall id :: id in t.streams ==>
         && t.streams[id].tx.Valid()
         && t.streams[id].reset.None?
         && t.endpoints[id] == Endpoint(t.streams[id].rx.got, t.streams[id].remoteFin)
  }

  function Settle(t: Table, id: StreamId, o: Outcome): (t': Table)
  {
    if o.live then
      Table(t.streams[id := o.st], t.endpoints[id := Endpoint(o.st.rx.got, o.st.remoteFin)], t.outbound + o.out)
    else
      Table(t.streams - {id}, t.endpoints - {id}, t.outbound + o.out)
  }

  predicate Windowed(t: Table) { forall id :: id in t.streams ==> t.streams[id].tx.Valid() }

  function Perform(t: Table, e: Effect, localOk: bool): (t': Table)
    requires Windowed(t)
    ensures Windowed(t')
  {
    match e
    case Reply(frames) => t.(outbound := t.outbound + frames)
    case Deliver(id, data) =>
      if id !in t.endpoints then t
      else if localOk then
        t.(endpoints := t.endpoints[id := t.endpoints[id].(handed := t.endpoints[id].handed + data)])
      else
        Table(t.streams - {id}, t.endpoints - {id}, t.outbound + [Reset(id, Normal)])
    case RemoteFin(id) =>
      if id !in t.endpoints then t
      else t.(endpoints := t.endpoints[id := t.endpoints[id].(eof := true)])
    case Terminate(id, _) => t.(streams := t.streams - {id}, endpoints := t.endpoints - {id})
    case Resumed(id, _) =>
      if id !in t.streams then t
      else
        var (st, fs) := Drain(id, t.streams[id], DRAIN_BATCH);
        t.(streams := t.streams[id := st], outbound := t.outbound + fs)
  }

  function PerformAll(t: Table, es: seq<Effect>, localOk: bool): (t': Table)
    requires Windowed(t)
    ensures Windowed(t')
    decreases |es|
  {
    if es == [] then t else Perform(PerformAll(t, es[..|es| - 1], localOk), es[|es| - 1], localOk)
  }

  lemma PerformUpTo2(t: Table, es: seq<Effect>, localOk: bool)
    requires Windowed(t) && |es| <= 2
    ensures |es| == 0 ==> PerformAll(t, es, localOk) == t
    ensures |es| == 1 ==> PerformAll(t, es, localOk) == Perform(t, es[0], localOk)
    ensures |es| == 2 ==> PerformAll(t, es, localOk) == Perform(Perform(t, es[0], localOk), es[1], localOk)
  {
    if |es| == 1 {
      assert es[..0] == [];
    } else if |es| == 2 {
      assert es[..1] == [es[0]];
      assert PerformAll(t, [es[0]], localOk) == Perform(PerformAll(t, [es[0]][..0], localOk), es[0], localOk);
    }
  }

  /** The table once OnFrame has run and its effects have been carried out. */
  function Applied(t: Table, f: Frame, localOk: bool): Table
    requires Consistent(t) && f.StreamOf().Some? && f.id in t.streams
  {
    var (st, es) := OnFrame(t.streams[f.id], f);
    PerformAll(t.(streams := t.streams[f.id := st]), es, localOk)
  }

  lemma DataSettles(t: Table, f: Frame, localOk: bool)
    requires Consistent(t) && f.Data? && f.id in t.streams
    ensures Applied(t, f, localOk) == Settle(t, f.id, FrameOutcome(t.streams[f.id], f, localOk))
  {
    var id, st0 := f.id, t.streams[f.id];
    var (st, es) := OnFrame(st0, f);
    var t1 := t.(streams := t.streams[id := st]);
    PerformUpTo2(t1, es, localOk);
    match st0.rx.Accept(f.offset, f.data)
    case Ok((rx, Some(news))) =>
      assert t.endpoints[id].handed + news == rx.got;
      if !localOk {
        assert t1.streams - {id} == t.streams - {id};
        assert t.outbound + [Reset(id, Normal)] + [Ack(id, |rx.got|)]
               == t.outbound + [Reset(id, Normal), Ack(id, |rx.got|)];
      }
    case Ok((rx, None)) =>
      assert t.endpoints[id := t.endpoints[id]] == t.endpoints;
    case Err(_) =>
      assert t1.streams - {id} == t.streams - {id};
  }

  lemma ResumeSettles(t: Table, f: Frame, localOk: bool)
    requires Consistent(t) && f.ResumeOk? && f.id in t.streams
    ensures Applied(t, f, localOk) == Settle(t, f.id, FrameOutcome(t.streams[f.id], f, localOk))
  {
    var id, st0 := f.id, t.streams[f.id];
    var (st, es) := OnFrame(st0, f);
    var t1 := t.(streams := t.streams[id := st]);
    PerformUpTo2(t1, es, localOk);
    assert t1.streams - {id} == t.streams - {id};
    if st0.tx.Rewind(f.recvOffset).Ok? {
      var d := Drain(id, st, DRAIN_BATCH).0;
      assert t1.streams[id := d] == t.streams[id := d];
      assert t.endpoints[id := Endpoint(d.rx.got, d.remoteFin)] == t.endpoints;
    }
  }

  lemma QuietSettles(t: Table, f: Frame, localOk: bool)
    requires Consistent(t) && f.StreamOf().Some? && !f.Data? && !f.ResumeOk? && f.id in t.streams
    ensures Applied(t, f, localOk) == Settle(t, f.id, FrameOutcome(t.streams[f.id], f, localOk))
  {
    var id := f.id;
    var (st, es) := OnFrame(t.streams[id], f);
    var t1 := t.(streams := t.streams[id := st]);
    PerformUpTo2(t1, es, localOk);
    assert t1.streams - {id} == t.streams - {id};
    assert t.endpoints[id := t.endpoints[id]] == t.endpoints;
    assert t.outbound + [] == t.outbound;
  }

  /** Carrying out the effects of a frame one by one settles its stream, and only its stream. */
  lemma EffectsSettle(t: Table, f: Frame, localOk: bool)
    requires Consistent(t) && f.StreamOf().Some? && f.id in t.streams
    ensures Applied(t, f, localOk) == Settle(t, f.id, FrameOutcome(t.streams[f.id], f, localOk))
  {
    if f.Data? {
      DataSettles(t, f, localOk);
    } else if f.ResumeOk? {
      ResumeSettles(t, f, localOk);
    } else {
      QuietSettles(t, f, localOk);
    }
  }

  lemma SettleConsistent(t: Table, id: StreamId, o: Outcome)
    requires Consistent(t)
    requires o.live ==> o.st.tx.Valid() && o.st.reset.None?
    ensures Consistent(Settle(t, id, o))
  {
  }
}
