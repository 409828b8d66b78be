/** The client's multiplexer: per-stream reactions to frames, and the stream table that owns them. */
module Mux {
  import opened Prelude
  import opened Window
  import opened Frames

  datatype StreamState = StreamState(
    tx: Window,
    rx: Inbox,
    isOpen: bool,
    localFin: bool,
    remoteFin: bool,
    reset: Option<ResetCode>)

  function NewStream(window: nat): (st: StreamState)
    requires 0 < window
  {
    StreamState(NewWindow(window), NEW_INBOX, false, false, false, None)
  }

  datatype Effect =
    | Deliver(id: StreamId, data: bytes)
    | Reply(frames: seq<Frame>)
    | Terminate(id: StreamId, code: ResetCode)
    | RemoteFin(id: StreamId)
    | Resumed(id: StreamId, gap: nat)

  /** How one live stream reacts to a frame addressed to it. */
  function OnFrame(st: StreamState, f: Frame): (r: (StreamState, seq<Effect>))
    requires st.tx.Valid() && f.StreamOf().Some?
  {
    match f
    case OpenOk(id) => (st.(isOpen := true), [])
    case OpenErr(id, code, _) => (st.(reset := Some(code)), [Terminate(id, code)])
    case Data(id, offset, data) => (
      match st.rx.Accept(offset, data)
      case Ok((rx, Some(news))) =>
        (st.(rx := rx), [Deliver(id, news), Reply([Ack(id, |rx.got|)])])
      case Ok((rx, None)) =>
        (st, [Reply([Ack(id, |rx.got|)])])
      case Err(_) =>
        (st.(reset := Some(Internal)), [Reply([Reset(id, Internal)]), Terminate(id, Internal)]))
    case Ack(id, offset) => (
      match st.tx.Ack(offset)
      case Ok(tx) => (st.(tx := tx), [])
      case Err(_) => (st.(reset := Some(Internal)), [Terminate(id, Internal)]))
    case Fin(id) => (st.(remoteFin := true, rx := st.rx.MarkFin()), [RemoteFin(id)])
    case Reset(id, code) => (st.(reset := Some(code)), [Terminate(id, code)])
    case ResumeOk(id, recvOffset) => (
      match st.tx.Rewind(recvOffset)
      case Ok(tx) => (st.(tx := tx), [Resumed(id, tx.Pending())])
      case Err(_) =>
        (st.(reset := Some(ResumeImpossible)),
         [Reply([Reset(id, ResumeImpossible)]), Terminate(id, ResumeImpossible)]))
    case ResumeErr(id, code) => (st.(reset := Some(code)), [Terminate(id, code)])
    case Open(_, _) => (st, [])
    case Resume(_, _) => (st, [])
  }

  /** The reaction in offsets and bytes: what is acknowledged, delivered, refused and given up. */
  predicate Reacts(st: StreamState, f: Frame, st': StreamState, fx: seq<Effect>)
    requires f.StreamOf().Some?
  {
    var got, tx := st.rx.got, st.tx;
    match f
    case Data(id, offset, data) =>
      var n := Max(|got|, offset + |data|);
      if offset > |got| then
        fx == [Reply([Reset(id, Internal)]), Terminate(id, Internal)] && st' == st.(reset := Some(Internal))
      else if n == |got| then fx == [Reply([Ack(id, n)])] && st' == st
      else
        var news := data[|got| - offset..];
        && fx == [Deliver(id, news), Reply([Ack(id, n)])]
        && st' == st.(rx := st.rx.(got := got + news))
    case Ack(id, offset) =>
      if offset > |tx.hist| then fx == [Terminate(id, Internal)] && st' == st.(reset := Some(Internal))
      else
        && fx == []
        && st' == st.(tx := tx.(acked := Max(tx.acked, offset), cursor := Max(tx.cursor, offset)))
    case ResumeOk(id, offset) =>
      if tx.acked <= offset <= |tx.hist| then
        fx == [Resumed(id, |tx.hist| - offset)] && st' == st.(tx := tx.(acked := offset, cursor := offset))
      else
        && fx == [Reply([Reset(id, ResumeImpossible)]), Terminate(id, ResumeImpossible)]
        && st' == st.(reset := Some(ResumeImpossible))
    case Fin(id) => fx == [RemoteFin(id)] && st' == st.(remoteFin := true, rx := st.rx.(finAt := Some(|got|)))
    case OpenOk(_) => fx == [] && st' == st.(isOpen := true)
    case OpenErr(id, code, _) => fx == [Terminate(id, code)] && st' == st.(reset := Some(code))
    case Reset(id, code) => fx == [Terminate(id, code)] && st' == st.(reset := Some(code))
    case ResumeErr(id, code) => fx == [Terminate(id, code)] && st' == st.(reset := Some(code))
    case Open(_, _) => fx == [] && st' == st
    case Resume(_, _) => fx == [] && st' == st
  }

  lemma ReactsSo(st: StreamState, f: Frame)
    requires st.tx.Valid() && f.StreamOf().Some?
    ensures Reacts(st, f, OnFrame(st, f).0, OnFrame(st, f).1)
  {
  }

  /** How the client answers a frame for a stream it does not have. */
  function OnUnknown(f: Frame): (fx: seq<Effect>)
    requires f.StreamOf().Some?
  {
    match f
    case Data(id, _, _) => [Reply([Reset(id, UnknownStream)])]
    case OpenErr(id, code, _) => [Terminate(id, code)]
    case Reset(id, code) => [Terminate(id, code)]
    case ResumeErr(id, code) => [Terminate(id, code)]
    case _ => []
  }

  // ---- Draining ----

  /** How many frames it takes to carry pending bytes. */
  function FrameCount(pending: nat): nat { (pending + DATA_CHUNK - 1) / DATA_CHUNK }

  lemma FrameCountCovers(pending: nat, k: nat)
    ensures k < FrameCount(pending) <==> k * DATA_CHUNK < pending
  {
  }

  /** The k-th frame from the cursor: a whole chunk, or what is left. */
  function FrameAt(id: StreamId, w: Window, k: nat): (f: Frame)
    requires w.Valid() && k * DATA_CHUNK <= w.Pending()
  {
    var from := w.cursor + k * DATA_CHUNK;
    Data(id, from, w.hist[from..Min(from + DATA_CHUNK, |w.hist|)])
  }

  /** The Data frames that at most k takes produce. */
  function DataFrames(id: StreamId, w: Window, k: nat): (fs: seq<Frame>)
    requires w.Valid()
    ensures |fs| == Min(k, FrameCount(w.Pending()))
  {
    seq(Min(k, FrameCount(w.Pending())),
        i requires 0 <= i < FrameCount(w.Pending()) => FrameCountCovers(w.Pending(), i); FrameAt(id, w, i))
  }

  function Drained(w: Window, k: nat): (w': Window)
    requires w.Valid()
    ensures w'.Valid()
  {
    w.(cursor := Min(w.cursor + k * DATA_CHUNK, |w.hist|))
  }

  function Drain(id: StreamId, st: StreamState, k: nat): (r: (StreamState, seq<Frame>))
    requires st.tx.Valid()
    ensures r.0.tx.Valid()
  {
    var tx := Drained(st.tx, k);
    if st.localFin && !tx.HasPending() && !tx.fin then
      (st.(tx := tx.(fin := true)), DataFrames(id, st.tx, k) + [Fin(id)])
    else
      (st.(tx := tx), DataFrames(id, st.tx, k))
  }

  /** Taking one chunk more extends the closed form by exactly that chunk. */
  lemma DrainOneMore(id: StreamId, w: Window, k: nat)
    requires w.Valid()
    ensures var (w', s) := Drained(w, k).NextUnsent(DATA_CHUNK);
            && Drained(w, k + 1) == w'
            && DataFrames(id, w, k + 1)
               == DataFrames(id, w, k) + (if s.Some? then [Data(id, s.value.offset, s.value.data)] else [])
  {
    FrameCountCovers(w.Pending(), k);
    if k < FrameCount(w.Pending()) {
      assert Drained(w, k).NextUnsent(DATA_CHUNK).1.value.data == FrameAt(id, w, k).data;
    }
  }

  lemma DrainedFurther(id: StreamId, w: Window, k: nat, more: nat)
    requires w.Valid() && !Drained(w, k).HasPending()
    ensures Drained(w, k + more) == Drained(w, k) && DataFrames(id, w, k + more) == DataFrames(id, w, k)
  {
    FrameCountCovers(w.Pending(), k);
  }

  /** What a drain adds once the frames are taken. */
  lemma DrainEnds(id: StreamId, st: StreamState, k: nat)
    requires st.tx.Valid()
    ensures var taken, frames := st.(tx := Drained(st.tx, k)), DataFrames(id, st.tx, k);
            Drain(id, st, k)
            == if taken.localFin && !taken.tx.HasPending() && !taken.tx.fin
               then (taken.(tx := taken.tx.(fin := true)), frames + [Fin(id)])
               else (taken, frames)
  {
  }

  // ---- Allocation of stream identifiers ----

  function NextId(id: StreamId): StreamId { if id + 1 == ID_SPACE then 0 else id + 1 }

  /** Steps from one identifier up to another, around the end of the space. */
  function Distance(from: StreamId, to: StreamId): nat
  {
    if from <= to then to - from else to - from + ID_SPACE
  }

  /** Everything from one identifier up to, not including, another is 0 or in use. */
  ghost predicate AllTaken(ids: set<StreamId>, from: StreamId, to: StreamId)
  {
    forall i: StreamId :: i == 0 || i in ids || Distance(from, to) <= Distance(from, i)
  }

  lemma {:induction false} LowIdsFill(ids: set<StreamId>, n: nat)
    requires n < ID_SPACE
    requires forall i: StreamId :: 1 <= i <= n ==> i in ids
    ensures n <= |ids|
  {
    if n > 0 {
      var last: StreamId := n;
      LowIdsFill(ids - {last}, n - 1);
    }
  }

  lemma FreeIdExists(ids: set<StreamId>)
    requires |ids| < ID_SPACE - 1
    ensures exists i: StreamId :: i != 0 && i !in ids
  {
    if forall i: StreamId :: i != 0 ==> i in ids {
      LowIdsFill(ids, ID_SPACE - 1);
    }
  }

  class MuxState {
    var streams: map<StreamId, StreamState>
    var nextId: StreamId
    const window: nat

    ghost predicate Valid()
      reads this
    {
      0 < window && forall id :: id in streams ==> streams[id].tx.Valid()
    }

    constructor (window: nat)
      requires 0 < window
      ensures Valid() && streams == map[] && nextId == 1 && this.window == window
    {
      streams, nextId, this.window := map[], 1, window;
    }

    /** Takes the first identifier from nextId upwards that is not 0 and not in use. */
    method AllocStream() returns (id: StreamId)
      requires Valid() && |streams| < ID_SPACE - 1
      modifies this
      ensures Valid()
      ensures id != 0 && id !in old(streams)
      ensures streams == old(streams)[id := NewStream(window)] && nextId == NextId(id)
      ensures AllTaken(old(streams).Keys, old(nextId), id)
    {
      FreeIdExists(streams.Keys);
      ghost var free: StreamId :| free != 0 && free !in streams;
      while true
        invariant streams == old(streams) && Valid()
        invariant Distance(old(nextId), nextId) + Distance(nextId, free) == Distance(old(nextId), free)
        invariant AllTaken(streams.Keys, old(nextId), nextId)
        decreases Distance(nextId, free)
      {
        id := nextId;
        nextId := NextId(nextId);
        if id == 0 || id in streams {
          continue;
        }
        streams := streams[id := NewStream(window)];
        return;
      }
    }

    method ApplyFrame(f: Frame) returns (fx: seq<Effect>)
      requires Valid()
      modifies this`streams
      ensures Valid()
      ensures f.StreamOf().None? ==>
                streams == old(streams) && fx == (if f.Ping? then [Reply([Pong(f.nonce)])] else [])
      ensures f.StreamOf().Some? && f.id !in old(streams) ==>
                streams == old(streams) && fx == OnUnknown(f)
      ensures f.StreamOf().Some? && f.id in old(streams) ==>
                var (st, effects) := OnFrame(old(streams)[f.id], f);
                streams == old(streams)[f.id := st] && fx == effects
      ensures f.StreamOf().Some? && f.id in old(streams) ==>
                && f.id in streams && Reacts(old(streams)[f.id], f, streams[f.id], fx)
                && streams - {f.id} == old(streams) - {f.id}
      ensures f.Data? && f.id !in old(streams) ==> fx == [Reply([Reset(f.id, UnknownStream)])]
      ensures (f.Ack? || f.Fin? || f.ResumeOk? || f.OpenOk?) && f.id !in old(streams) ==> fx == []
    {
      if f.Ping? {
        fx := [Reply([Pong(f.nonce)])];
      } else if f.StreamOf().None? {
        fx := [];
      } else if f.id !in streams {
        fx := OnUnknown(f);
      } else {
        var (st, effects) := OnFrame(streams[f.id], f);
        ReactsSo(streams[f.id], f);
        streams := streams[f.id := st];
        fx := effects;
      }
    }

    /** At most maxFrames Data frames from the cursor, then Fin once everything has gone out. */
    method DrainStreamOutput(id: StreamId, maxFrames: nat) returns (frames: seq<Frame>)
      requires Valid()
      modifies this`streams
      ensures Valid()
      ensures id !in old(streams) ==> frames == [] && streams == old(streams)
      ensures id in old(streams) ==>
                var (st, fs) := Drain(id, old(streams)[id], maxFrames);
                frames == fs && streams == old(streams)[id := st]
    {
      frames := [];
      if id !in streams {
        return;
      }
      var st := streams[id];
      ghost var tx := st.tx;
      while |frames| < maxFrames
        invariant |frames| <= maxFrames
        invariant st == old(streams)[id].(tx := Drained(tx, |frames|))
        invariant frames == DataFrames(id, tx, |frames|)
        invariant streams == old(streams)
        decreases maxFrames - |frames|
      {
        DrainOneMore(id, tx, |frames|);
        var (w, s) := st.tx.NextUnsent(DATA_CHUNK);
        if s.None? {
          DrainedFurther(id, tx, |frames|, maxFrames - |frames|);
          break;
        }
        st := st.(tx := w);
        frames := frames + [Data(id, s.value.offset, s.value.data)];
      }
      DrainEnds(id, streams[id], maxFrames);
      if st.localFin && !st.tx.HasPending() && !st.tx.fin {
        st := st.(tx := st.tx.(fin := true));
        frames := frames + [Fin(id)];
      }
      streams := streams[id := st];
    }
  }
}
