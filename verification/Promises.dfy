/** What the client owes for every frame and every command, and the helper for every frame and report, in
    offsets and bytes: which stream changes and how, what is sent, and when a stream is given up. */
module Promises {
  import opened Prelude
  import opened Window
  import opened Frames
  import opened Mux
  import opened Driver
  import opened Offline
  import H = HelperStream
  import D = Downlink
  import U = Uplink

  // ---- The client ----

  /** Stream id is given up, and sent goes out; no other stream is touched. */
  predicate GivenUp(t: Table, t': Table, id: StreamId, sent: seq<Frame>)
  {
    t' == Table(t.streams - {id}, t.endpoints - {id}, t.outbound + sent)
  }

  /** Stream id goes on as st, its endpoint has been handed what st has received, and sent goes out. */
  predicate GoesOn(t: Table, t': Table, id: StreamId, st: StreamState, sent: seq<Frame>)
  {
    && t'.streams == t.streams[id := st] && t'.outbound == t.outbound + sent
    && t'.endpoints == t.endpoints[id := Endpoint(st.rx.got, st.remoteFin)]
  }

  /** sent carries hist[from..to] in frames of at most a chunk, and then a Fin if it is due. */
  predicate Carried(sent: seq<Frame>, id: StreamId, from: nat, to: nat, hist: bytes, fin: bool)
  {
    var n := if fin then |sent| - 1 else |sent|;
    && 0 <= n && (fin ==> sent[n] == Fin(id))
    && Carries(sent[..n], id, from, to, hist)
    && forall i :: 0 <= i < n ==> sent[i].Data? && |sent[i].data| <= DATA_CHUNK
  }

  /** Stream id goes on as st, after sending up to a batch from its cursor, and Fin when it is due. */
  ghost predicate Drains(t: Table, t': Table, id: StreamId, st: StreamState)
  {
    var to := Min(st.tx.cursor + BATCH_BYTES, |st.tx.hist|);
    var fin := st.localFin && to == |st.tx.hist| && !st.tx.fin;
    && |t.outbound| <= |t'.outbound|
    && GoesOn(t, t', id, st.(tx := st.tx.(cursor := to, fin := st.tx.fin || fin)), t'.outbound[|t.outbound|..])
    && Carried(t'.outbound[|t.outbound|..], id, st.tx.cursor, to, st.tx.hist, fin)
  }

  /** A frame for a stream of the client. localOk: the local endpoint still takes bytes. */
  ghost predicate FrameTaken(t: Table, t': Table, f: Frame, localOk: bool)
    requires f.StreamOf().Some? && f.id in t.streams
  {
    var st := t.streams[f.id];
    var got, tx := st.rx.got, st.tx;
    match f
    case Data(id, offset, data) =>
      var n := Max(|got|, offset + |data|);
      var now := if n > |got| && offset <= |got| then got + data[|got| - offset..] else got;
      if offset > |got| then GivenUp(t, t', id, [Reset(id, Internal)])
      else if n > |got| && !localOk then GivenUp(t, t', id, [Reset(id, Normal), Ack(id, n)])
      else GoesOn(t, t', id, st.(rx := st.rx.(got := now)), [Ack(id, n)])
    case Ack(id, offset) =>
      if offset > |tx.hist| then GivenUp(t, t', id, [])
      else GoesOn(t, t', id, st.(tx := tx.(acked := Max(tx.acked, offset), cursor := Max(tx.cursor, offset))), [])
    case ResumeOk(id, offset) =>
      if tx.acked <= offset <= |tx.hist| then Drains(t, t', id, st.(tx := tx.(acked := offset, cursor := offset)))
      else GivenUp(t, t', id, [Reset(id, ResumeImpossible)])
    case Fin(id) => GoesOn(t, t', id, st.(remoteFin := true, rx := st.rx.(finAt := Some(|got|))), [])
    case OpenOk(id) => GoesOn(t, t', id, st.(isOpen := true), [])
    case OpenErr(id, _, _) => GivenUp(t, t', id, [])
    case Reset(id, _) => GivenUp(t, t', id, [])
    case ResumeErr(id, _) => GivenUp(t, t', id, [])
    case Open(_, _) => t' == t
    case Resume(_, _) => t' == t
  }

  /** A local command for a stream of the client, with a channel up. */
  ghost predicate CommandDone(t: Table, t': Table, c: Command)
    requires c.id in t.streams
  {
    var st := t.streams[c.id];
    match c
    case LocalData(id, data) =>
      if |st.tx.hist| + |data| - st.tx.acked <= st.tx.capacity then
        Drains(t, t', id, st.(tx := st.tx.(hist := st.tx.hist + data)))
      else GivenUp(t, t', id, [Reset(id, Internal)])
    case LocalEof(id) => Drains(t, t', id, st.(localFin := true))
    case LocalClose(id) => GivenUp(t, t', id, [Reset(id, Normal)])
  }

  /** The same without a channel: kept or given up alike, and nothing is sent or counted as sent. */
  predicate CommandBuffered(t: Table, t': Table, c: Command)
    requires c.id in t.streams
  {
    var st := t.streams[c.id];
    match c
    case LocalData(id, data) =>
      if |st.tx.hist| + |data| - st.tx.acked <= st.tx.capacity then
        GoesOn(t, t', id, st.(tx := st.tx.(hist := st.tx.hist + data)), [])
      else GivenUp(t, t', id, [])
    case LocalEof(id) => GoesOn(t, t', id, st.(localFin := true), [])
    case LocalClose(id) => GivenUp(t, t', id, [])
  }

  lemma SentIs(before: seq<Frame>, sent: seq<Frame>)
    ensures (before + sent)[|before|..] == sent
  {
  }

  lemma DrainCarried(id: StreamId, st: StreamState)
    requires st.tx.Valid()
    ensures var (st', fs) := Drain(id, st, DRAIN_BATCH);
            var to := Min(st.tx.cursor + BATCH_BYTES, |st.tx.hist|);
            var fin := st.localFin && to == |st.tx.hist| && !st.tx.fin;
            && st' == st.(tx := st.tx.(cursor := to, fin := st.tx.fin || fin))
            && Carried(fs, id, st.tx.cursor, to, st.tx.hist, fin)
  {
    var datas := DataFrames(id, st.tx, DRAIN_BATCH);
    DrainCarries(id, st.tx, DRAIN_BATCH);
    ChunksAtMost(id, st.tx, DRAIN_BATCH);
    assert (datas + [Fin(id)])[..|datas|] == datas && datas[..|datas|] == datas;
  }

  lemma ChunksAtMost(id: StreamId, w: Window, k: nat)
    requires w.Valid()
    ensures forall i :: 0 <= i < |DataFrames(id, w, k)| ==>
              DataFrames(id, w, k)[i].Data? && |DataFrames(id, w, k)[i].data| <= DATA_CHUNK
  {
    forall i | 0 <= i < |DataFrames(id, w, k)|
      ensures DataFrames(id, w, k)[i].Data? && |DataFrames(id, w, k)[i].data| <= DATA_CHUNK
    {
      FrameCountCovers(w.Pending(), i);
    }
  }

  lemma SettleDrains(t: Table, id: StreamId, st: StreamState)
    requires st.tx.Valid()
    ensures Drains(t, Settle(t, id, DrainOutcome(id, st, DRAIN_BATCH)), id, st)
  {
    DrainCarried(id, st);
    SentIs(t.outbound, DrainOutcome(id, st, DRAIN_BATCH).out);
  }

  /** Where a frame's outcome settles a stream is what was promised. */
  lemma FramePromised(t: Table, f: Frame, localOk: bool)
    requires Consistent(t) && f.StreamOf().Some? && f.id in t.streams
    ensures FrameTaken(t, Settle(t, f.id, FrameOutcome(t.streams[f.id], f, localOk)), f, localOk)
  {
    if f.ResumeOk? {
      ResumePromised(t, f, localOk);
    } else if f.Data? {
      DataPromised(t, f, localOk);
    } else if f.Open? || f.Resume? {
      NothingSettles(t, f.id);
    }
  }

  lemma DataPromised(t: Table, f: Frame, localOk: bool)
    requires Consistent(t) && f.Data? && f.id in t.streams
    ensures FrameTaken(t, Settle(t, f.id, FrameOutcome(t.streams[f.id], f, localOk)), f, localOk)
  {
  }

  lemma ResumePromised(t: Table, f: Frame, localOk: bool)
    requires Consistent(t) && f.ResumeOk? && f.id in t.streams
    ensures FrameTaken(t, Settle(t, f.id, FrameOutcome(t.streams[f.id], f, localOk)), f, localOk)
  {
    var st := t.streams[f.id];
    if st.tx.Rewind(f.recvOffset).Ok? {
      SettleDrains(t, f.id, st.(tx := st.tx.(acked := f.recvOffset, cursor := f.recvOffset)));
    }
  }

  lemma NothingSettles(t: Table, id: StreamId)
    requires Consistent(t) && id in t.streams
    ensures Settle(t, id, Outcome(t.streams[id], true, [])) == t
  {
    assert t.streams[id := t.streams[id]] == t.streams && t.endpoints[id := t.endpoints[id]] == t.endpoints;
  }

  lemma CommandPromised(t: Table, c: Command)
    requires Consistent(t) && c.id in t.streams
    ensures CommandDone(t, Settle(t, c.id, OnlineOutcome(t.streams[c.id], c)), c)
  {
    var st := t.streams[c.id];
    match c {
      case LocalData(id, data) =>
        if |data| <= st.tx.Writable() {
          assert data[..|data|] == data;
          SettleDrains(t, id, st.(tx := st.tx.(hist := st.tx.hist + data)));
        }
      case LocalEof(id) => SettleDrains(t, id, st.(localFin := true));
      case LocalClose(_) =>
    }
  }

  lemma BufferPromised(t: Table, c: Command)
    requires Consistent(t) && c.id in t.streams
    ensures CommandBuffered(t, Settle(t, c.id, OfflineOutcome(t.streams[c.id], c)), c)
  {
    if c.LocalData? && |c.data| <= t.streams[c.id].tx.Writable() { assert c.data[..|c.data|] == c.data; }
  }

  // ---- The helper ----

  /** Both directions have ended and nothing is left unacknowledged. */
  predicate BothEnded(h: H.HStream) { h.ingressFin && h.egressDone && h.up.tx.acked == |h.up.tx.hist| }

  /** Stream id of the directory is dropped, or goes on as h. */
  predicate Drops(m: map<StreamId, H.HStream>, m': map<StreamId, H.HStream>, id: StreamId) { m' == m - {id} }

  predicate Keeps(m: map<StreamId, H.HStream>, m': map<StreamId, H.HStream>, id: StreamId, h: H.HStream)
  {
    m' == if BothEnded(h) then m - {id} else m[id := h]
  }

  /** The shared buffer is at tx, and the egress task has been woken. */
  function Moved(h: H.HStream, tx: Window): H.HStream { h.(up := h.up.(tx := tx, permit := true)) }

  /** A frame for a stream of the directory. linked: the stream's task still takes messages. */
  predicate HelperTaken(m: map<StreamId, H.HStream>, m': map<StreamId, H.HStream>, sent: seq<Frame>, f: Frame,
                        linked: bool)
    requires f.StreamOf().Some? && f.id in m
  {
    var h := m[f.id];
    var got, tx := h.recv.got, h.up.tx;
    match f
    case Data(id, offset, data) =>
      var n := Max(|got|, offset + |data|);
      if offset > |got| || !linked then Drops(m, m', id) && sent == [Reset(id, Internal)]
      else if n > |got| then
        var news := data[|got| - offset..];
        && sent == []
        && m' == m[id := h.(recv := h.recv.(got := got + news), queue := h.queue + [D.Write(news, n)])]
      else sent == [] && m' == m[id := h.(queue := h.queue + [D.Duplicate(n)])]
    case Ack(id, offset) =>
      if offset > |tx.hist| then Drops(m, m', id) && sent == [Reset(id, Internal)]
      else
        var tx' := tx.(acked := Max(tx.acked, offset), cursor := Max(tx.cursor, offset));
        sent == [] && Keeps(m, m', id, Moved(h, tx'))
    case Fin(id) =>
      if h.ingressFin then sent == [] && Keeps(m, m', id, h)
      else if !linked then Drops(m, m', id) && sent == [Reset(id, Internal)]
      else
        var recv := h.recv.(finAt := Some(|got|));
        sent == [] && Keeps(m, m', id, h.(ingressFin := true, recv := recv, queue := h.queue + [D.Shutdown]))
    case Reset(id, _) => sent == [] && Drops(m, m', id)
    case Resume(id, offset) =>
      if tx.acked <= offset <= |tx.hist| then
        && sent == [ResumeOk(id, |got|)]
        && m' == m[id := Moved(h, tx.(acked := offset, cursor := offset))]
      else sent == [ResumeErr(id, ResumeImpossible)] && Drops(m, m', id)
    case Open(id, _) => sent == [OpenErr(id, Internal, Ascii("duplicate stream id"))] && m' == m
    case _ => sent == [] && m' == m
  }

  /** What the helper answers for a stream it does not hold, other than to Open. */
  predicate StrangerAnswered(sent: seq<Frame>, f: Frame)
    requires f.StreamOf().Some?
  {
    match f
    case Data(id, _, _) => sent == [Reset(id, UnknownStream)]
    case Fin(id) => sent == [Reset(id, UnknownStream)]
    case Resume(id, _) => sent == [ResumeErr(id, UnknownStream)]
    case _ => sent == []
  }

  /** An Open adds its stream exactly when the identifier is free, there is room and the target is allowed;
      otherwise the first of these that fails is named. */
  predicate OpenAnswered(m: map<StreamId, H.HStream>, m': map<StreamId, H.HStream>, sent: seq<Frame>, id: StreamId,
                         window: nat, maxStreams: nat, permitted: bool)
  {
    if id in m then m' == m && sent == [OpenErr(id, Internal, Ascii("duplicate stream id"))]
    else if |m| >= maxStreams then m' == m && sent == [OpenErr(id, Internal, Ascii("too many streams"))]
    else if !permitted then m' == m && sent == [OpenErr(id, Forbidden, Ascii("target rejected by allow list"))]
    else m' == m[id := Fresh(window)] && sent == []
  }

  /** A stream that has received, read and sent nothing. */
  function Fresh(window: nat): H.HStream
  {
    var up := U.Uplink(Window([], 0, 0, window, false), U.Flushing, false, false, false, false, []);
    H.HStream(Inbox([], None), [], up, D.Downlink(0, 0, [], [], false), false, false)
  }

  /** A report that the egress side has ended, or failed. */
  predicate OverTaken(m: map<StreamId, H.HStream>, m': map<StreamId, H.HStream>, id: StreamId)
  {
    if id !in m then m' == m
    else if m[id].ingressFin && m[id].up.tx.acked == |m[id].up.tx.hist| then m' == m - {id}
    else m' == m[id := m[id].(egressDone := true)]
  }

  function DirectoryAfter(m: map<StreamId, H.HStream>, id: StreamId, o: H.Outcome): map<StreamId, H.HStream>
  {
    if o.live then m[id := o.st] else m - {id}
  }

  /** What the reaction of a stream makes of the directory is what was promised. */
  lemma HelperPromised(m: map<StreamId, H.HStream>, f: Frame, linked: bool)
    requires f.StreamOf().Some? && f.id in m && m[f.id].up.tx.Valid()
    ensures var o := H.OnFrame(m[f.id], f, linked); HelperTaken(m, DirectoryAfter(m, f.id, o), o.out, f, linked)
  {
    if f.Data? {
      HelperDataPromised(m, f, linked);
    } else if f.Ack? || f.Fin? || f.Reset? || f.Resume? {
      HelperNotePromised(m, f, linked);
    } else {
      assert m[f.id := m[f.id]] == m;
    }
  }

  lemma HelperDataPromised(m: map<StreamId, H.HStream>, f: Frame, linked: bool)
    requires f.Data? && f.id in m && m[f.id].up.tx.Valid()
    ensures var o := H.OnFrame(m[f.id], f, linked); HelperTaken(m, DirectoryAfter(m, f.id, o), o.out, f, linked)
  {
  }

  lemma HelperNotePromised(m: map<StreamId, H.HStream>, f: Frame, linked: bool)
    requires (f.Ack? || f.Fin? || f.Reset? || f.Resume?) && f.id in m && m[f.id].up.tx.Valid()
    ensures var o := H.OnFrame(m[f.id], f, linked); HelperTaken(m, DirectoryAfter(m, f.id, o), o.out, f, linked)
  {
  }

  lemma StrangerPromised(f: Frame)
    requires f.StreamOf().Some?
    ensures StrangerAnswered(H.OnUnknown(f), f)
  {
  }
}
