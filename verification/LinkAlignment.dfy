/** Gap-freedom of a link between a resumption and the next disconnection, in both directions. */
module LinkAlignment {
  import opened Prelude
  import opened Frames
  import opened Lane
  import opened Alignment
  import opened Link
  import opened LinkSafety
  import opened LinkOrder
  import M = Mux
  import C = Driver
  import H = HelperStream
  import U = Uplink
  import T = LinkTheorems

  // ---- A bounded drain is a run of takes and sends ----

  function Sent(l: Lane, id: StreamId, k: nat): Lane
    requires l.tx.Valid()
  {
    l.(tx := M.Drained(l.tx, k), wire := l.wire + Items(M.DataFrames(id, l.tx, k)))
  }

  /** In step: aligned, and every Fin in flight closes a complete stream. */
  predicate InStep(l: Lane) { Safe(l) && l.held == [] && Aligned(l) && FinFaithful(l) }

  lemma TakeAndSend(l: Lane)
    requires InStep(l)
    ensures InStep(SentOne(l))
  {
    var a := Step(l, Take(DATA_CHUNK));
    SafeStep(l, Take(DATA_CHUNK));
    AlignedStep(l, Take(DATA_CHUNK));
    FinStep(l, Take(DATA_CHUNK));
    if a.held != [] {
      SafeStep(a, Send);
      AlignedStep(a, Send);
      FinStep(a, Send);
    } else {
      assert l.wire + [] == l.wire;
    }
  }

  /** The lane after taking one segment and sending it at once. */
  function SentOne(l: Lane): (r: Lane)
    requires l.tx.Valid()
    ensures r.tx.Valid()
  {
    var (w, s) := l.tx.NextUnsent(DATA_CHUNK);
    l.(tx := w, wire := l.wire + if s.Some? then [Chunk(s.value.offset, s.value.data)] else [])
  }

  lemma SentNone(l: Lane, id: StreamId)
    requires l.tx.Valid()
    ensures Sent(l, id, 0) == l
  {
    assert M.DataFrames(id, l.tx, 0) == [];
  }

  lemma SentOneMore(l: Lane, id: StreamId, k: nat)
    requires l.tx.Valid()
    ensures Sent(l, id, k + 1) == SentOne(Sent(l, id, k))
  {
    M.DrainOneMore(id, l.tx, k);
    var s := Sent(l, id, k).tx.NextUnsent(DATA_CHUNK).1;
    var frame := if s.Some? then [Data(id, s.value.offset, s.value.data)] else [];
    ItemsAppend(M.DataFrames(id, l.tx, k), frame);
    assert Items(frame) == if s.Some? then [Chunk(s.value.offset, s.value.data)] else [] by {
      if s.Some? { assert frame[1..] == []; }
    }
  }

  function SentMany(l: Lane, k: nat): (r: Lane)
    requires l.tx.Valid()
    ensures r.tx.Valid()
  {
    if k == 0 then l else SentOne(SentMany(l, k - 1))
  }

  lemma {:induction false} SentManyInStep(l: Lane, k: nat)
    requires InStep(l)
    ensures InStep(SentMany(l, k))
  {
    if k > 0 {
      SentManyInStep(l, k - 1);
      TakeAndSend(SentMany(l, k - 1));
    }
  }

  lemma {:induction false} SentManyIsSent(l: Lane, id: StreamId, k: nat)
    requires l.tx.Valid()
    ensures SentMany(l, k) == Sent(l, id, k)
  {
    if k == 0 {
      SentNone(l, id);
    } else {
      SentManyIsSent(l, id, k - 1);
      SentOneMore(l, id, k - 1);
    }
  }

  lemma DrainInStep(l: Lane, id: StreamId, k: nat)
    requires InStep(l)
    ensures InStep(Sent(l, id, k))
  {
    SentManyInStep(l, k);
    SentManyIsSent(l, id, k);
  }

  /** The closing Fin of a drain that leaves nothing pending. */
  lemma FinInStep(l: Lane, id: StreamId)
    requires InStep(l) && !l.tx.HasPending()
    ensures InStep(l.(tx := l.tx.(fin := true), wire := l.wire + Items([Fin(id)])))
  {
    assert Items([Fin(id)]) == [FinMark] by { assert [Fin(id)][1..] == []; }
    SafeStep(l, SendFin);
    AlignedStep(l, SendFin);
    FinFaithfulExactly(l);
  }

  /** The client's drain, closing Fin included. */
  lemma ClientDrainInStep(l: Lane, id: StreamId, st: M.StreamState, k: nat)
    requires InStep(l) && l.tx == st.tx
    ensures var (st', fs) := M.Drain(id, st, k); InStep(l.(tx := st'.tx, wire := l.wire + Items(fs)))
  {
    var (st', fs) := M.Drain(id, st, k);
    var datas := M.DataFrames(id, st.tx, k);
    DrainInStep(l, id, k);
    if fs != datas {
      FinInStep(Sent(l, id, k), id);
      ItemsAppend(datas, [Fin(id)]);
      assert l.wire + Items(fs) == (l.wire + Items(datas)) + Items([Fin(id)]);
    }
  }

  /** A rewind heard while in step, and the drain that answers it. */
  lemma RewindThenDrain(l: Lane, id: StreamId, st: M.StreamState, offset: nat, k: nat)
    requires InStep(l) && l.tx == st.tx && l.notes != [] && l.notes[0] == RewindNote(offset)
    ensures st.tx.Rewind(offset).Ok?
    ensures var (st', fs) := M.Drain(id, st.(tx := st.tx.Rewind(offset).value), k);
            InStep(l.(tx := st'.tx, notes := l.notes[1..], wire := l.wire + Items(fs)))
  {
    NoteInStep(l);
    HonestNotesAccepted(l);
    var heard := Step(l, RecvNote);
    ClientDrainInStep(heard, id, st.(tx := heard.tx), k);
  }

  lemma NoteInStep(l: Lane)
    requires InStep(l) && l.notes != []
    ensures InStep(Step(l, RecvNote))
  {
    SafeStep(l, RecvNote);
    AlignedStep(l, RecvNote);
    FinStep(l, RecvNote);
  }

  lemma DeliverInStep(l: Lane)
    requires InStep(l) && l.wire != []
    ensures Receive(l.got, l.wire[0]).Ok? && (l.wire[0].FinMark? ==> l.got == l.tx.hist)
    ensures InStep(Step(l, Deliver))
  {
    SafeStep(l, Deliver);
    AlignedStep(l, Deliver);
    FinStep(l, Deliver);
  }

  /** Every event keeps both lanes safe. */
  lemma NextSafe(l: Link, e: Event)
    requires Orderly(l) && CanHappen(l, e) && !Repeats(e)
    ensures 0 < Next(l, e).window && Safe(UpLane(Next(l, e))) && Safe(DownLane(Next(l, e)))
  {
    OrderlyKept(l, e);
  }

  // ---- Client to helper ----

  /** The client's window after a command, before anything is drained. */
  function Prepared(st: M.StreamState, cmd: C.Command): M.StreamState
    requires st.tx.Valid()
  {
    match cmd
    case LocalData(_, data) => st.(tx := st.tx.Push(data))
    case LocalEof(_) => st.(localFin := true)
    case LocalClose(_) => st
  }

  lemma PreparedInStep(l: Lane, st: M.StreamState, cmd: C.Command)
    requires InStep(l) && l.tx == st.tx && (cmd.LocalData? ==> !st.tx.fin)
    ensures InStep(l.(tx := Prepared(st, cmd).tx))
  {
    if cmd.LocalData? {
      SafeStep(l, Push(cmd.data));
      AlignedStep(l, Push(cmd.data));
      FinStep(l, Push(cmd.data));
    } else {
      assert l.(tx := l.tx) == l;
    }
  }

  /** A command on an in-step stream, with a channel or without one. */
  lemma CommandInStep(l: Link, cmd: C.Command)
    requires Orderly(l) && CanHappen(l, Command(cmd)) && InStep(UpLane(l)) && Next(l, Command(cmd)).c.CLive?
    ensures InStep(UpLane(Next(l, Command(cmd))))
  {
    var o := if l.online then C.OnlineOutcome(l.c.st, cmd) else C.OfflineOutcome(l.c.st, cmd);
    PreparedInStep(UpLane(l), l.c.st, cmd);
    SentUp(l.(c := CSettle(o)), o.out);
    SurvivorOutcome(l.c.st, cmd, l.online);
    if l.online {
      ClientDrainInStep(UpLane(l).(tx := Prepared(l.c.st, cmd).tx), l.id, Prepared(l.c.st, cmd), C.DRAIN_BATCH);
    }
  }

  lemma SurvivorOutcome(st: M.StreamState, cmd: C.Command, online: bool)
    requires st.tx.Valid()
    ensures var o := if online then C.OnlineOutcome(st, cmd) else C.OfflineOutcome(st, cmd);
            o.live ==> (if online then (o.st, o.out) == M.Drain(cmd.id, Prepared(st, cmd), C.DRAIN_BATCH)
                        else o.st == Prepared(st, cmd) && o.out == [])
  {
  }

  lemma NoItemsNow(fs: seq<Frame>)
    requires NoItems(fs)
    ensures Items(fs) == []
  {
    BatchMeans(fs, []);
  }

  /** The client's half of the lane after it has reacted to the first frame. */
  function Reacted(l: Link, o: C.Outcome): Lane
    requires 0 < l.window && l.down != []
  {
    UpLane(l).(tx := o.st.tx, notes := Notes(l.down[1..]), wire := UpLane(l).wire + Items(o.out))
  }

  lemma ClientAckInStep(l: Link, localOk: bool)
    requires ClientHasFrame(l) && InStep(UpLane(l)) && l.down[0].Ack?
    ensures InStep(Reacted(l, C.FrameOutcome(l.c.st, l.down[0], localOk)))
  {
    DownHead(l);
    NoteInStep(UpLane(l));
    HonestNotesAccepted(UpLane(l));
    assert UpLane(l).notes[1..] == Notes(l.down[1..]);
    assert UpLane(l).wire + [] == UpLane(l).wire;
    assert Reacted(l, C.FrameOutcome(l.c.st, l.down[0], localOk)) == Step(UpLane(l), RecvNote);
  }

  lemma ClientResumeInStep(l: Link, localOk: bool)
    requires ClientHasFrame(l) && InStep(UpLane(l)) && l.down[0].ResumeOk?
    ensures InStep(Reacted(l, C.FrameOutcome(l.c.st, l.down[0], localOk)))
  {
    DownHead(l);
    RewindThenDrain(UpLane(l), l.id, l.c.st, l.down[0].recvOffset, C.DRAIN_BATCH);
    assert UpLane(l).notes[1..] == Notes(l.down[1..]);
    ResumeOutcome(l.c.st, l.down[0], localOk);
  }

  lemma ClientQuietInStep(l: Link, localOk: bool)
    requires ClientHasFrame(l) && InStep(UpLane(l)) && !l.down[0].Ack? && !l.down[0].ResumeOk?
    ensures InStep(Reacted(l, C.FrameOutcome(l.c.st, l.down[0], localOk)))
  {
    QuietReacted(l, localOk);
    DownDropped(l);
    DownRest(l);
    InStepBut(UpLane(l), Reacted(l, C.FrameOutcome(l.c.st, l.down[0], localOk)));
  }

  lemma NothingMore<T>(s: seq<T>, t: seq<T>)
    requires t == []
    ensures s + t == s
  {
  }

  /** A frame that is no note leaves the window alone and is answered with acks and resets at most. */
  lemma QuietOut(st: M.StreamState, f: Frame, localOk: bool)
    requires st.tx.Valid() && f.StreamOf().Some? && !f.Ack? && !f.ResumeOk?
    ensures var o := C.FrameOutcome(st, f, localOk); o.st.tx == st.tx && NoItems(o.out)
  {
  }

  lemma QuietReacted(l: Link, localOk: bool)
    requires ClientHasFrame(l) && !l.down[0].Ack? && !l.down[0].ResumeOk?
    ensures var r := Reacted(l, C.FrameOutcome(l.c.st, l.down[0], localOk));
            r == UpLane(l).(notes := r.notes) && r == UpLane(l.(down := l.down[1..]))
  {
    var o := C.FrameOutcome(l.c.st, l.down[0], localOk);
    QuietOut(l.c.st, l.down[0], localOk);
    NoItemsNow(o.out);
    NothingMore(UpLane(l).wire, Items(o.out));
  }

  lemma SameButNotes(a: Lane, b: Lane)
    requires Aligned(a) && FinFaithful(a) && b == a.(notes := b.notes)
    ensures Aligned(b) && FinFaithful(b)
  {
  }

  /** The client's lane after the helper has taken the first frame. */
  function Taken(l: Link, o: H.Outcome): Lane
    requires 0 < l.window && l.up != []
  {
    UpLane(l).(got := o.st.recv.got, wire := Items(l.up[1..]))
  }

  lemma TakingIsDelivering(l: Link, linked: bool)
    requires HelperHasFrame(l) && (l.up[0].Data? || l.up[0].Fin?)
    ensures UpLane(l).wire != [] && UpLane(l).wire[0] == ItemOf(l.up[0])[0]
    ensures Step(UpLane(l), Deliver) == Taken(l, H.OnFrame(l.h.h, l.up[0], linked))
  {
    UpHead(l);
    assert UpLane(l).wire[1..] == Items(l.up[1..]);
    if l.up[0].Data? { DataAtHelper(l.h.h, l.up[0], linked); } else { QuietHelper(l.h.h, l.up[0], linked); }
  }

  lemma OthersLeaveTheLane(l: Link, linked: bool)
    requires HelperHasFrame(l) && !l.up[0].Data? && !l.up[0].Fin?
    ensures Taken(l, H.OnFrame(l.h.h, l.up[0], linked)) == UpLane(l)
  {
    UpHead(l);
    assert UpLane(l).wire == Items(l.up[1..]);
  }

  /** The helper takes the first frame: data on an aligned lane never shows a gap, and Fin arrives
      only when every byte the client wrote has been accepted. */
  lemma HelperRecvInStep(l: Link, linked: bool)
    requires HelperHasFrame(l) && InStep(UpLane(l)) && linked
    ensures l.up[0].Data? ==> l.h.h.recv.Accept(l.up[0].offset, l.up[0].data).Ok?
    ensures l.up[0].Fin? ==> l.h.h.recv.got == ClientTx(l).hist
    ensures InStep(Taken(l, H.OnFrame(l.h.h, l.up[0], linked)))
  {
    if l.up[0].Data? || l.up[0].Fin? {
      TakingIsDelivering(l, linked);
      DeliverInStep(UpLane(l));
    } else {
      OthersLeaveTheLane(l, linked);
    }
  }

  // ---- Helper to client ----

  /** In step, seen from the egress task: a Fin it is about to send closes a complete stream. */
  predicate Flowing(l: Lane, u: U.Uplink)
  {
    && Safe(l) && Aligned(l) && FinFaithful(l)
    && l.tx == u.tx && l.held == TakenBy(u)
    && (u.pc.SendingFin? ==> Reach(l.Queue(), |l.got|) == |l.tx.hist|)
  }

  /** What an action of the egress task puts on the wire. */
  function Emitted(u: U.Uplink, e: U.Event): seq<Item>
  {
    if e.Advance? && u.pc.Sending? then TakenBy(u)
    else if e.Advance? && u.pc.SendingFin? then [FinMark]
    else []
  }

  function After(l: Lane, u: U.Uplink, e: U.Event): Lane
    requires U.Inv(u) && U.CanHappen(u, e)
  {
    l.(tx := U.Next(u, e).tx, held := TakenBy(U.Next(u, e)), wire := l.wire + Emitted(u, e))
  }

  predicate OwnAction(e: U.Event) { e.Advance? || e.ReadBytes? || e.ReadEof? }

  /** Taking, sending and writing are steps of the lane. */
  lemma UplinkMoves(l: Lane, u: U.Uplink)
    requires U.Inv(u) && U.CanHappen(u, U.Advance) && Flowing(l, u)
    requires (u.pc.Flushing? && u.tx.HasPending()) || u.pc.Sending? || u.pc.GotBytes?
    ensures Flowing(After(l, u, U.Advance), U.Next(u, U.Advance))
  {
    var u' := U.Next(u, U.Advance);
    var st := if u.pc.Flushing? then Take(DATA_CHUNK) else if u.pc.Sending? then Send else Push(u.pc.data);
    SafeStep(l, st);
    AlignedStep(l, st);
    FinStep(l, st);
    assert l.wire + [] == l.wire;
    assert Step(l, st) == After(l, u, U.Advance);
  }

  /** Its Fin keeps the promise. */
  lemma UplinkCloses(l: Lane, u: U.Uplink)
    requires U.Inv(u) && u.pc.SendingFin? && Flowing(l, u)
    ensures Flowing(After(l, u, U.Advance), U.Next(u, U.Advance))
  {
    SafeStep(l, SendFin);
    AlignedStep(l, SendFin);
    FinFaithfulExactly(l);
    assert Step(l, SendFin) == After(l, u, U.Advance);
  }

  /** An aligned lane whose sender has nothing pending carries the whole history. */
  lemma NothingPendingReachesAll(l: Lane)
    requires Safe(l) && Aligned(l) && l.held == [] && !l.tx.HasPending()
    ensures Reach(l.Queue(), |l.got|) == |l.tx.hist|
  {
    assert l.Queue() == l.wire;
    ReachWithinHistory(l.Queue(), |l.got|, l.tx.hist);
  }

  /** Whatever the egress task does, its lane stays in step. */
  lemma UplinkFlows(l: Lane, u: U.Uplink, e: U.Event)
    requires U.Inv(u) && U.CanHappen(u, e) && OwnAction(e) && Flowing(l, u)
    ensures Flowing(After(l, u, e), U.Next(u, e))
  {
    if e.Advance? && ((u.pc.Flushing? && u.tx.HasPending()) || u.pc.Sending? || u.pc.GotBytes?) {
      UplinkMoves(l, u);
    } else if e.Advance? && u.pc.SendingFin? {
      UplinkCloses(l, u);
    } else {
      if e.Advance? && u.pc.Flushing? { NothingPendingReachesAll(l); }
      assert l.wire + [] == l.wire;
      assert After(l, u, e) == l.(tx := l.tx.(fin := U.Next(u, e).tx.fin));
    }
  }

  /** An ack or a rewind from the main loop does not disturb what is in flight. */
  lemma NoteFlows(l: Lane, u: U.Uplink)
    requires Flowing(l, u) && l.notes != []
    ensures ApplyNote(l.tx, l.notes[0]).Ok?
    ensures Flowing(Step(l, RecvNote), H.Woken(u, ApplyNote(l.tx, l.notes[0]).value))
  {
    HonestNotesAccepted(l);
    SafeStep(l, RecvNote);
    AlignedStep(l, RecvNote);
    FinStep(l, RecvNote);
  }

  lemma DeliverFlows(l: Lane, u: U.Uplink)
    requires Flowing(l, u) && l.wire != []
    ensures Receive(l.got, l.wire[0]).Ok? && (l.wire[0].FinMark? ==> l.got == l.tx.hist)
    ensures Flowing(Step(l, Deliver), u)
  {
    SafeStep(l, Deliver);
    AlignedStep(l, Deliver);
    FinStep(l, Deliver);
    assert l.Queue()[0] == l.wire[0] && l.Queue()[1..] == Step(l, Deliver).Queue();
    ReceiveKeepsPrefix(l.got, l.wire[0], l.tx.hist);
  }

  /** Same but for the notes in flight, and still safe. */
  lemma FlowsBut(a: Lane, b: Lane, u: U.Uplink)
    requires Flowing(a, u) && Safe(b) && b == a.(notes := b.notes)
    ensures Flowing(b, u)
  {
  }

  /** The client takes the first frame: data on an in-step lane never shows a gap, and Fin arrives
      only when every byte read from the egress socket has been accepted. */
  lemma ClientRecvFlows(l: Link, localOk: bool)
    requires ClientHasFrame(l) && l.h.HLive? && Flowing(DownLane(l), l.h.h.up)
    ensures l.down[0].Data? ==> l.c.st.rx.Accept(l.down[0].offset, l.down[0].data).Ok?
    ensures l.down[0].Fin? ==> l.c.st.rx.got == HelperTx(l).hist
    ensures var o := C.FrameOutcome(l.c.st, l.down[0], localOk);
            Flowing(DownLane(l).(got := o.st.rx.got, wire := Items(l.down[1..])), l.h.h.up)
  {
    if l.down[0].Data? || l.down[0].Fin? {
      TakingItemDelivers(l, localOk);
      DeliverFlows(DownLane(l), l.h.h.up);
    } else {
      DownHead(l);
      assert DownLane(l).wire == Items(l.down[1..]);
      InboxUntouched(l.c.st, l.down[0], localOk);
      assert DownLane(l).(got := C.FrameOutcome(l.c.st, l.down[0], localOk).st.rx.got, wire := Items(l.down[1..]))
             == DownLane(l);
    }
  }

  /** Taking a data frame or a Fin is delivering the head of the lane. */
  lemma TakingItemDelivers(l: Link, localOk: bool)
    requires ClientHasFrame(l) && (l.down[0].Data? || l.down[0].Fin?)
    ensures DownLane(l).wire != [] && DownLane(l).wire[0] == ItemOf(l.down[0])[0]
    ensures Step(DownLane(l), Deliver)
            == DownLane(l).(got := C.FrameOutcome(l.c.st, l.down[0], localOk).st.rx.got, wire := Items(l.down[1..]))
  {
    DownHead(l);
    assert DownLane(l).wire[1..] == Items(l.down[1..]);
    if l.down[0].Fin? { QuietOutcome(l.c.st, l.down[0], localOk); }
  }

  lemma InboxUntouched(st: M.StreamState, f: Frame, localOk: bool)
    requires st.tx.Valid() && f.StreamOf().Some? && !f.Data?
    ensures C.FrameOutcome(st, f, localOk).st.rx.got == st.rx.got
  {
  }

  // ---- Every event of a link ----

  predicate BothLive(l: Link) { l.c.CLive? && l.h.HLive? }

  /** Nothing on the channel is lost, and the stream's task is there to take what arrives. */
  predicate Keeping(e: Event)
  {
    !e.Connect? && !e.Disconnect? && !Mess(e) && (e.HelperRecv? ==> e.linked)
  }

  /** The helper's direction in step. */
  predicate DownInStep(l: Link)
  {
    0 < l.window && BothLive(l) && Flowing(DownLane(l), l.h.h.up)
  }

  /** Both directions in step. */
  predicate LinkInStep(l: Link) { DownInStep(l) && InStep(UpLane(l)) }

  /** Same but for the notes in flight, and still safe. */
  lemma InStepBut(a: Lane, b: Lane)
    requires InStep(a) && Safe(b) && b == a.(notes := b.notes)
    ensures InStep(b)
  {
    SameButNotes(a, b);
  }

  /** The client's reaction to a frame of this stream. */
  lemma ReactionInStep(l: Link, localOk: bool)
    requires ClientHasFrame(l) && InStep(UpLane(l))
    ensures InStep(Reacted(l, C.FrameOutcome(l.c.st, l.down[0], localOk)))
  {
    if l.down[0].Ack? {
      ClientAckInStep(l, localOk);
    } else if l.down[0].ResumeOk? {
      ClientResumeInStep(l, localOk);
    } else {
      ClientQuietInStep(l, localOk);
    }
  }

  lemma ReactedNext(l: Link, localOk: bool)
    requires Shaped(l) && CanHappen(l, ClientRecv(localOk)) && ClientHasFrame(l)
    requires C.FrameOutcome(l.c.st, l.down[0], localOk).live
    ensures var l2 := Next(l, ClientRecv(localOk));
            UpLane(l2) == Reacted(l, C.FrameOutcome(l.c.st, l.down[0], localOk)).(notes := UpLane(l2).notes)
  {
    var o := C.FrameOutcome(l.c.st, l.down[0], localOk);
    SentUp(l.(down := l.down[1..], c := CSettle(o)), o.out);
  }

  lemma ReactionInStepNext(l: Link, localOk: bool)
    requires Shaped(l) && CanHappen(l, ClientRecv(localOk)) && ClientHasFrame(l) && InStep(UpLane(l))
    requires C.FrameOutcome(l.c.st, l.down[0], localOk).live && Safe(UpLane(Next(l, ClientRecv(localOk))))
    ensures InStep(UpLane(Next(l, ClientRecv(localOk))))
  {
    ReactionInStep(l, localOk);
    ReactedNext(l, localOk);
    InStepBut(Reacted(l, C.FrameOutcome(l.c.st, l.down[0], localOk)), UpLane(Next(l, ClientRecv(localOk))));
  }

  lemma UpAfterClientFrame(l: Link, localOk: bool)
    requires Orderly(l) && CanHappen(l, ClientRecv(localOk)) && BothLive(l) && InStep(UpLane(l))
    requires l.down[0].StreamOf() == Some(l.id) && BothLive(Next(l, ClientRecv(localOk)))
    ensures InStep(UpLane(Next(l, ClientRecv(localOk))))
  {
    NextSafe(l, ClientRecv(localOk));
    ReactionInStepNext(l, localOk);
  }

  /** The handshake answer, which may send a resume request, leaves what is in flight alone. */
  lemma HandshakeNext(l: Link, localOk: bool)
    requires Shaped(l) && CanHappen(l, ClientRecv(localOk)) && l.c.CLive? && l.down[0].StreamOf() != Some(l.id)
    requires Next(l, ClientRecv(localOk)).c.CLive?
    ensures var l2 := Next(l, ClientRecv(localOk));
            UpLane(l2) == UpLane(l).(notes := UpLane(l2).notes)
  {
    var l1 := l.(down := l.down[1..], greeted := true);
    var r := [Resume(l.id, |l.c.st.rx.got|)];
    SentUp(l1, r);
    NoItemsNow(r);
    assert UpLane(l).wire + [] == UpLane(l).wire;
  }

  lemma UpAfterHandshake(l: Link, localOk: bool)
    requires Orderly(l) && CanHappen(l, ClientRecv(localOk)) && l.c.CLive? && InStep(UpLane(l))
    requires l.down[0].StreamOf() != Some(l.id) && Next(l, ClientRecv(localOk)).c.CLive?
    ensures InStep(UpLane(Next(l, ClientRecv(localOk))))
  {
    HandshakeNext(l, localOk);
    NextSafe(l, ClientRecv(localOk));
    InStepBut(UpLane(l), UpLane(Next(l, ClientRecv(localOk))));
  }

  /** The client's lane once the helper's reaction to its first frame has been sent. */
  lemma TakenNext(l: Link, keepAll: bool, gate: Gate)
    requires Shaped(l) && CanHappen(l, HelperRecv(keepAll, gate, true)) && HelperHasFrame(l)
    requires H.OnFrame(l.h.h, l.up[0], true).live
    ensures var l2, o := Next(l, HelperRecv(keepAll, gate, true)), H.OnFrame(l.h.h, l.up[0], true);
            UpLane(l2) == Taken(l, o).(notes := UpLane(l2).notes)
  {
    var o := H.OnFrame(l.h.h, l.up[0], true);
    SentDown(l.(up := l.up[1..], h := HSettle(o)), o.out);
  }

  lemma UpAfterHelperFrame(l: Link, keepAll: bool, gate: Gate)
    requires Orderly(l) && CanHappen(l, HelperRecv(keepAll, gate, true)) && BothLive(l) && InStep(UpLane(l))
    requires l.up[0].StreamOf() == Some(l.id) && BothLive(Next(l, HelperRecv(keepAll, gate, true)))
    ensures InStep(UpLane(Next(l, HelperRecv(keepAll, gate, true))))
  {
    NextSafe(l, HelperRecv(keepAll, gate, true));
    TakenInStepNext(l, keepAll, gate);
  }

  lemma TakenInStepNext(l: Link, keepAll: bool, gate: Gate)
    requires Shaped(l) && CanHappen(l, HelperRecv(keepAll, gate, true)) && HelperHasFrame(l) && InStep(UpLane(l))
    requires H.OnFrame(l.h.h, l.up[0], true).live
    requires 0 < Next(l, HelperRecv(keepAll, gate, true)).window
    requires Safe(UpLane(Next(l, HelperRecv(keepAll, gate, true))))
    ensures InStep(UpLane(Next(l, HelperRecv(keepAll, gate, true))))
  {
    HelperRecvInStep(l, true);
    TakenNext(l, keepAll, gate);
    InStepBut(Taken(l, H.OnFrame(l.h.h, l.up[0], true)), UpLane(Next(l, HelperRecv(keepAll, gate, true))));
  }

  /** A frame of no stream, the greeting included, leaves what is in flight and received alone. */
  lemma HelloNext(l: Link, keepAll: bool, gate: Gate)
    requires Shaped(l) && CanHappen(l, HelperRecv(keepAll, gate, true)) && l.up[0].StreamOf().None?
    ensures var l2 := Next(l, HelperRecv(keepAll, gate, true)); UpLane(l2) == UpLane(l).(notes := UpLane(l2).notes)
  {
    assert Items(l.up) == Items(l.up[1..]);
  }

  lemma UpAfterHello(l: Link, keepAll: bool, gate: Gate)
    requires Orderly(l) && CanHappen(l, HelperRecv(keepAll, gate, true)) && InStep(UpLane(l))
    requires l.up[0].StreamOf() != Some(l.id)
    ensures InStep(UpLane(Next(l, HelperRecv(keepAll, gate, true))))
  {
    assert l.up[0].StreamOf().None?;
    HelloNext(l, keepAll, gate);
    NextSafe(l, HelperRecv(keepAll, gate, true));
    InStepBut(UpLane(l), UpLane(Next(l, HelperRecv(keepAll, gate, true))));
  }

  lemma TaskLeavesTheInbox(l: Link, t: H.TaskStep)
    requires Shaped(l) && CanHappen(l, HelperTask(t)) && BothLive(Next(l, HelperTask(t)))
    ensures UpLane(Next(l, HelperTask(t))) == UpLane(l).(notes := UpLane(Next(l, HelperTask(t))).notes)
  {
    var o := H.Task(l.id, l.h.h, t);
    SentDown(l.(h := HSettle(o)), o.out);
  }

  lemma UpAfterTask(l: Link, t: H.TaskStep)
    requires Orderly(l) && CanHappen(l, HelperTask(t)) && BothLive(l) && InStep(UpLane(l))
    requires BothLive(Next(l, HelperTask(t)))
    ensures InStep(UpLane(Next(l, HelperTask(t))))
  {
    NextSafe(l, HelperTask(t));
    TaskLeavesTheInbox(l, t);
    InStepBut(UpLane(l), UpLane(Next(l, HelperTask(t))));
  }

  lemma UpStaysInStep(l: Link, e: Event)
    requires Orderly(l) && CanHappen(l, e) && Keeping(e) && BothLive(l) && InStep(UpLane(l))
    requires BothLive(Next(l, e))
    ensures InStep(UpLane(Next(l, e)))
  {
    match e {
      case Command(cmd) => CommandInStep(l, cmd);
      case ClientRecv(localOk) =>
        if l.down[0].StreamOf() == Some(l.id) {
          UpAfterClientFrame(l, localOk);
        } else {
          UpAfterHandshake(l, localOk);
        }
      case HelperRecv(keepAll, gate, _) =>
        if l.up[0].StreamOf() == Some(l.id) {
          UpAfterHelperFrame(l, keepAll, gate);
        } else {
          UpAfterHello(l, keepAll, gate);
        }
      case HelperTask(t) => UpAfterTask(l, t);
    }
  }

  lemma DownAfterCommand(l: Link, cmd: C.Command)
    requires Orderly(l) && CanHappen(l, Command(cmd)) && DownInStep(l) && Next(l, Command(cmd)).c.CLive?
    ensures Flowing(DownLane(Next(l, Command(cmd))), l.h.h.up)
  {
    var o := if l.online then C.OnlineOutcome(l.c.st, cmd) else C.OfflineOutcome(l.c.st, cmd);
    NextSafe(l, Command(cmd));
    CommandEmits(l.c.st, cmd, l.online);
    SentUp(l.(c := CSettle(o)), o.out);
    FlowsBut(DownLane(l), DownLane(Next(l, Command(cmd))), l.h.h.up);
  }

  lemma DownAfterClientFrame(l: Link, localOk: bool)
    requires Orderly(l) && CanHappen(l, ClientRecv(localOk)) && DownInStep(l) && l.down[0].StreamOf() == Some(l.id)
    requires Next(l, ClientRecv(localOk)).c.CLive?
    ensures Flowing(DownLane(Next(l, ClientRecv(localOk))), l.h.h.up)
  {
    var l1, l2 := l.(down := l.down[1..]), Next(l, ClientRecv(localOk));
    var o := C.FrameOutcome(l.c.st, l.down[0], localOk);
    NextSafe(l, ClientRecv(localOk));
    ClientRecvFlows(l, localOk);
    SentUp(l1.(c := CSettle(o)), o.out);
    FlowsBut(DownLane(l).(got := o.st.rx.got, wire := Items(l.down[1..])), DownLane(l2), l.h.h.up);
  }

  lemma DownHandshakeNext(l: Link, localOk: bool)
    requires Shaped(l) && CanHappen(l, ClientRecv(localOk)) && BothLive(l)
    requires l.down[0].StreamOf().None? && Next(l, ClientRecv(localOk)).c.CLive?
    ensures var l2 := Next(l, ClientRecv(localOk));
            DownLane(l2) == DownLane(l).(notes := DownLane(l2).notes)
  {
    var l1 := l.(down := l.down[1..], greeted := true);
    SentUp(l1, [Resume(l.id, |l.c.st.rx.got|)]);
    DownHead(l);
    assert DownLane(l).wire == Items(l.down[1..]);
  }

  lemma DownAfterHandshake(l: Link, localOk: bool)
    requires Orderly(l) && CanHappen(l, ClientRecv(localOk)) && DownInStep(l)
    requires l.down[0].StreamOf().None? && Next(l, ClientRecv(localOk)).c.CLive?
    ensures Flowing(DownLane(Next(l, ClientRecv(localOk))), l.h.h.up)
  {
    NextSafe(l, ClientRecv(localOk));
    DownHandshakeNext(l, localOk);
    FlowsBut(DownLane(l), DownLane(Next(l, ClientRecv(localOk))), l.h.h.up);
  }

  /** What the helper's reaction to a frame of this stream leaves of its lane. */
  function Obeyed(l: Link, o: H.Outcome): Lane
    requires 0 < l.window && l.up != []
  {
    DownLane(l).(tx := o.st.up.tx, notes := Notes(l.up[1..]))
  }

  /** What a note that the lane accepts makes of the helper's stream. */
  lemma NoteObeyed(l: Link, linked: bool)
    requires HelperHasFrame(l) && l.h.h.up.tx.Valid() && (l.up[0].Ack? || l.up[0].Resume?)
    requires DownLane(l).notes != [] ==> ApplyNote(DownLane(l).tx, DownLane(l).notes[0]).Ok?
    ensures var o := H.OnFrame(l.h.h, l.up[0], linked);
            && NoItems(o.out) && DownLane(l).notes != [] && DownLane(l).notes[1..] == Notes(l.up[1..])
            && o.st.up == H.Woken(l.h.h.up, ApplyNote(DownLane(l).tx, DownLane(l).notes[0]).value)
  {
    UpHead(l);
    assert DownLane(l).notes[1..] == Notes(l.up[1..]);
  }

  lemma DownAfterNote(l: Link, linked: bool)
    requires HelperHasFrame(l) && Flowing(DownLane(l), l.h.h.up) && (l.up[0].Ack? || l.up[0].Resume?)
    ensures var o := H.OnFrame(l.h.h, l.up[0], linked); NoItems(o.out) && Flowing(Obeyed(l, o), o.st.up)
  {
    if DownLane(l).notes != [] { NoteFlows(DownLane(l), l.h.h.up); }
    NoteObeyed(l, linked);
    assert Step(DownLane(l), RecvNote) == Obeyed(l, H.OnFrame(l.h.h, l.up[0], linked));
  }

  lemma QuietLeavesTheLane(l: Link, linked: bool)
    requires HelperHasFrame(l) && !l.up[0].Ack? && !l.up[0].Resume?
    ensures var o := H.OnFrame(l.h.h, l.up[0], linked);
            NoItems(o.out) && o.st.up == l.h.h.up && Obeyed(l, o) == DownLane(l.(up := l.up[1..]))
    ensures DownLane(l.(up := l.up[1..])) == DownLane(l).(notes := Notes(l.up[1..]))
  {
    if l.up[0].Data? { DataAtHelper(l.h.h, l.up[0], linked); } else { QuietHelper(l.h.h, l.up[0], linked); }
  }

  lemma DownAfterQuiet(l: Link, linked: bool)
    requires HelperHasFrame(l) && Flowing(DownLane(l), l.h.h.up) && !l.up[0].Ack? && !l.up[0].Resume?
    ensures var o := H.OnFrame(l.h.h, l.up[0], linked); NoItems(o.out) && Flowing(Obeyed(l, o), o.st.up)
  {
    QuietLeavesTheLane(l, linked);
    UpDropped(l);
    UpRest(l);
    FlowsBut(DownLane(l), DownLane(l.(up := l.up[1..])), l.h.h.up);
  }

  lemma DownAfterOwn(l: Link)
    requires HelperHasFrame(l) && Flowing(DownLane(l), l.h.h.up)
    ensures var o := H.OnFrame(l.h.h, l.up[0], true); NoItems(o.out) && Flowing(Obeyed(l, o), o.st.up)
  {
    if l.up[0].Ack? || l.up[0].Resume? { DownAfterNote(l, true); } else { DownAfterQuiet(l, true); }
  }

  /** The helper's lane once its reaction has been sent. */
  lemma ObeyedNext(l: Link, keepAll: bool, gate: Gate)
    requires Shaped(l) && CanHappen(l, HelperRecv(keepAll, gate, true)) && HelperHasFrame(l)
    requires NoItems(H.OnFrame(l.h.h, l.up[0], true).out) && H.OnFrame(l.h.h, l.up[0], true).live
    ensures var l2, o := Next(l, HelperRecv(keepAll, gate, true)), H.OnFrame(l.h.h, l.up[0], true);
            l2.h == HLive(o.st) && DownLane(l2) == Obeyed(l, o).(notes := DownLane(l2).notes)
  {
    var o := H.OnFrame(l.h.h, l.up[0], true);
    NoItemsNow(o.out);
    SentDown(l.(up := l.up[1..], h := HSettle(o)), o.out);
    NothingAdded(DownLane(l).wire);
  }

  lemma ObeyedFlows(l: Link, keepAll: bool, gate: Gate)
    requires Shaped(l) && CanHappen(l, HelperRecv(keepAll, gate, true)) && HelperHasFrame(l)
    requires NoItems(H.OnFrame(l.h.h, l.up[0], true).out) && H.OnFrame(l.h.h, l.up[0], true).live
    requires var o := H.OnFrame(l.h.h, l.up[0], true); Flowing(Obeyed(l, o), o.st.up)
    requires 0 < Next(l, HelperRecv(keepAll, gate, true)).window
    requires Safe(DownLane(Next(l, HelperRecv(keepAll, gate, true))))
    ensures var l2 := Next(l, HelperRecv(keepAll, gate, true));
            l2.h.HLive? && Flowing(DownLane(l2), l2.h.h.up)
  {
    var o := H.OnFrame(l.h.h, l.up[0], true);
    ObeyedNext(l, keepAll, gate);
    FlowsBut(Obeyed(l, o), DownLane(Next(l, HelperRecv(keepAll, gate, true))), o.st.up);
  }

  lemma ObeyedStays(l: Link, keepAll: bool, gate: Gate)
    requires Orderly(l) && CanHappen(l, HelperRecv(keepAll, gate, true)) && HelperHasFrame(l)
    requires var o := H.OnFrame(l.h.h, l.up[0], true); NoItems(o.out) && Flowing(Obeyed(l, o), o.st.up)
    requires BothLive(Next(l, HelperRecv(keepAll, gate, true)))
    ensures DownInStep(Next(l, HelperRecv(keepAll, gate, true)))
  {
    NextSafe(l, HelperRecv(keepAll, gate, true));
    ObeyedFlows(l, keepAll, gate);
  }

  lemma DownAfterHelperFrame(l: Link, keepAll: bool, gate: Gate)
    requires Orderly(l) && CanHappen(l, HelperRecv(keepAll, gate, true)) && DownInStep(l)
    requires l.up[0].StreamOf() == Some(l.id) && BothLive(Next(l, HelperRecv(keepAll, gate, true)))
    ensures var l2 := Next(l, HelperRecv(keepAll, gate, true)); Flowing(DownLane(l2), l2.h.h.up)
  {
    assert HelperHasFrame(l);
    DownAfterOwn(l);
    ObeyedStays(l, keepAll, gate);
  }

  lemma DownAfterHello(l: Link, keepAll: bool, gate: Gate)
    requires Orderly(l) && CanHappen(l, HelperRecv(keepAll, gate, true)) && DownInStep(l)
    requires l.up[0].StreamOf() != Some(l.id) && BothLive(Next(l, HelperRecv(keepAll, gate, true)))
    ensures var l2 := Next(l, HelperRecv(keepAll, gate, true)); Flowing(DownLane(l2), l2.h.h.up)
  {
    var f, l1, l2 := l.up[0], l.(up := l.up[1..]), Next(l, HelperRecv(keepAll, gate, true));
    assert f.StreamOf().None?;
    if f.Hello? {
      var ack := [HelloAck(PROTO_VERSION, f.session, keepAll)];
      SentDown(l1, ack);
      NoItemsNow(ack);
    }
    assert DownLane(l).wire + [] == DownLane(l).wire;
    NextSafe(l, HelperRecv(keepAll, gate, true));
    FlowsBut(DownLane(l), DownLane(l2), l.h.h.up);
  }

  lemma UplinkNext(l: Link, e: U.Event)
    requires Shaped(l) && l.online && CanHappen(l, HelperTask(H.Up(e))) && U.Inv(l.h.h.up)
    ensures var l2 := Next(l, HelperTask(H.Up(e)));
            && l2.h == HLive(l.h.h.(up := U.Next(l.h.h.up, e))) && l2.c == l.c
            && DownLane(l2) == After(DownLane(l), l.h.h.up, e).(notes := DownLane(l2).notes)
  {
    var o := H.Task(l.id, l.h.h, H.Up(e));
    SentDown(l.(h := HSettle(o)), o.out);
    assert Items(o.out) == Emitted(l.h.h.up, e) by { assert |o.out| == 1 ==> o.out[1..] == []; }
  }

  lemma DownAfterUplink(l: Link, e: U.Event)
    requires Orderly(l) && l.online && CanHappen(l, HelperTask(H.Up(e))) && DownInStep(l)
    ensures var l2 := Next(l, HelperTask(H.Up(e))); l2.h.HLive? && Flowing(DownLane(l2), l2.h.h.up)
  {
    UplinkFlows(DownLane(l), l.h.h.up, e);
    UplinkNext(l, e);
    NextSafe(l, HelperTask(H.Up(e)));
    FlowsBut(After(DownLane(l), l.h.h.up, e), DownLane(Next(l, HelperTask(H.Up(e)))), U.Next(l.h.h.up, e));
  }

  lemma TaskLeavesTheLane(l: Link, t: H.TaskStep)
    requires Shaped(l) && l.online && CanHappen(l, HelperTask(t)) && !t.Up? && BothLive(Next(l, HelperTask(t)))
    ensures var l2 := Next(l, HelperTask(t));
            l2.h.h.up == l.h.h.up && DownLane(l2) == DownLane(l).(notes := DownLane(l2).notes)
  {
    var o := H.Task(l.id, l.h.h, t);
    NoItemsNow(o.out);
    SentDown(l.(h := HSettle(o)), o.out);
    assert DownLane(l).wire + [] == DownLane(l).wire;
  }

  lemma DownAfterTask(l: Link, t: H.TaskStep)
    requires Orderly(l) && l.online && CanHappen(l, HelperTask(t)) && !t.Up? && DownInStep(l)
    requires BothLive(Next(l, HelperTask(t)))
    ensures var l2 := Next(l, HelperTask(t)); Flowing(DownLane(l2), l2.h.h.up)
  {
    TaskLeavesTheLane(l, t);
    NextSafe(l, HelperTask(t));
    FlowsBut(DownLane(l), DownLane(Next(l, HelperTask(t))), l.h.h.up);
  }

  lemma DownStaysInStep(l: Link, e: Event)
    requires Orderly(l) && l.online && CanHappen(l, e) && Keeping(e) && DownInStep(l) && BothLive(Next(l, e))
    ensures Flowing(DownLane(Next(l, e)), Next(l, e).h.h.up)
  {
    match e {
      case Command(cmd) => DownAfterCommand(l, cmd);
      case ClientRecv(localOk) =>
        if l.down[0].StreamOf() == Some(l.id) {
          DownAfterClientFrame(l, localOk);
        } else {
          DownAfterHandshake(l, localOk);
        }
      case HelperRecv(keepAll, gate, _) =>
        if l.up[0].StreamOf() == Some(l.id) {
          DownAfterHelperFrame(l, keepAll, gate);
        } else {
          DownAfterHello(l, keepAll, gate);
        }
      case HelperTask(t) =>
        if t.Up? {
          DownAfterUplink(l, t.e);
        } else {
          DownAfterTask(l, t);
        }
    }
  }

  /** Once in step, a stream stays in step until the next disconnection, in whatever order its
      commands, frames and tasks run. */
  lemma StaysInStep(l: Link, e: Event)
    requires Orderly(l) && l.online && CanHappen(l, e) && Keeping(e) && LinkInStep(l) && BothLive(Next(l, e))
    ensures LinkInStep(Next(l, e))
  {
    UpStaysInStep(l, e);
    DownStaysInStep(l, e);
    NextSafe(l, e);
  }

  predicate OneGone(l: Link) { l.c.CGone? || l.h.HGone? }

  /** A side that was dropped never comes back. */
  lemma GoneStaysGone(l: Link, e: Event)
    requires Inv(l) && CanHappen(l, e) && (OneGone(l) || BothLive(l))
    ensures OneGone(l) ==> OneGone(Next(l, e))
    ensures OneGone(Next(l, e)) || BothLive(Next(l, e))
  {
    ClientStays(l, e);
    HelperStays(l, e);
  }

  lemma ClientStays(l: Link, e: Event)
    requires Shaped(l) && CanHappen(l, e)
    ensures l.c.CGone? ==> Next(l, e).c.CGone?
    ensures !l.c.CNone? ==> !Next(l, e).c.CNone?
  {
  }

  lemma HelperStays(l: Link, e: Event)
    requires Shaped(l) && CanHappen(l, e) && OpenOnce(l)
    ensures l.h.HGone? ==> Next(l, e).h.HGone?
    ensures !l.h.HNone? ==> !Next(l, e).h.HNone?
  {
    if e.HelperRecv? && l.h.HGone? { assert !l.up[0].Open?; }
  }

  /** On a channel and in step, or given up by one side. */
  predicate Settled(l: Link) { OneGone(l) || (l.online && LinkInStep(l)) }

  lemma SettledStep(l: Link, e: Event)
    requires Orderly(l) && CanHappen(l, e) && Keeping(e) && Settled(l)
    ensures Settled(Next(l, e))
  {
    GoneStaysGone(l, e);
    if !OneGone(Next(l, e)) { StaysInStep(l, e); }
  }

  /** Over every run without a disconnection, an in-step stream is in step for as long as it lives. */
  lemma {:induction false} RunStaysInStep(l: Link, es: seq<Event>)
    requires Orderly(l) && Settled(l)
    requires forall i :: 0 <= i < |es| ==> Keeping(es[i])
    ensures Settled(T.Run(l, es))
    decreases |es|
  {
    if es != [] {
      if CanHappen(l, es[0]) {
        OrderlyKept(l, es[0]);
        SettledStep(l, es[0]);
        RunStaysInStep(Next(l, es[0]), es[1..]);
      } else {
        RunStaysInStep(l, es[1..]);
      }
    }
  }

  /** In step, the next data frame in either direction is accepted, and a Fin finds the receiver
      with everything the other side has written. */
  lemma InStepNeverGaps(l: Link)
    requires Orderly(l) && LinkInStep(l)
    ensures l.up != [] && l.up[0].Data? && l.up[0].id == l.id ==>
              l.h.h.recv.Accept(l.up[0].offset, l.up[0].data).Ok?
    ensures l.up != [] && l.up[0].Fin? && l.up[0].id == l.id ==> l.h.h.recv.got == l.c.st.tx.hist
    ensures l.down != [] && l.down[0].Data? && l.down[0].id == l.id ==>
              l.c.st.rx.Accept(l.down[0].offset, l.down[0].data).Ok?
    ensures l.down != [] && l.down[0].Fin? && l.down[0].id == l.id ==> l.c.st.rx.got == l.h.h.up.tx.hist
  {
    UpNeverGaps(l);
    DownNeverGaps(l);
  }

  lemma UpNeverGaps(l: Link)
    requires 0 < l.window && SoundLanes(l) && BothLive(l) && InStep(UpLane(l))
    ensures l.up != [] && l.up[0].Data? && l.up[0].id == l.id ==>
              l.h.h.recv.Accept(l.up[0].offset, l.up[0].data).Ok?
    ensures l.up != [] && l.up[0].Fin? && l.up[0].id == l.id ==> l.h.h.recv.got == l.c.st.tx.hist
  {
    if l.up != [] && (l.up[0].Data? || l.up[0].Fin?) && l.up[0].id == l.id { HelperRecvInStep(l, true); }
  }

  lemma DownNeverGaps(l: Link)
    requires 0 < l.window && SoundLanes(l) && BothLive(l) && ClientOk(l.c) && Flowing(DownLane(l), l.h.h.up)
    ensures l.down != [] && l.down[0].Data? && l.down[0].id == l.id ==>
              l.c.st.rx.Accept(l.down[0].offset, l.down[0].data).Ok?
    ensures l.down != [] && l.down[0].Fin? && l.down[0].id == l.id ==> l.c.st.rx.got == l.h.h.up.tx.hist
  {
    if l.down != [] && (l.down[0].Data? || l.down[0].Fin?) && l.down[0].id == l.id { ClientRecvFlows(l, true); }
  }

  // ---- Getting in step ----

  /** A resume answer puts the client's direction in step, however much was lost before, when nothing of
      this stream was sent on the channel ahead of it. */
  lemma ResumePutsUpInStep(l: Link, localOk: bool)
    requires ClientHasFrame(l) && Safe(UpLane(l)) && l.down[0].ResumeOk? && Items(l.up) == []
    ensures InStep(Reacted(l, C.FrameOutcome(l.c.st, l.down[0], localOk)))
  {
    DownHead(l);
    FirstRewindThenDrain(UpLane(l), l.id, l.c.st, l.down[0].recvOffset, C.DRAIN_BATCH);
    assert UpLane(l).notes[1..] == Notes(l.down[1..]);
    ResumeOutcome(l.c.st, l.down[0], localOk);
  }

  /** A rewind heard while nothing is in flight puts the lane in step, whatever was lost before. */
  lemma FirstRewindThenDrain(l: Lane, id: StreamId, st: M.StreamState, offset: nat, k: nat)
    requires Safe(l) && l.Queue() == [] && l.tx == st.tx && l.notes != [] && l.notes[0] == RewindNote(offset)
    ensures st.tx.Rewind(offset).Ok?
    ensures var (st', fs) := M.Drain(id, st.(tx := st.tx.Rewind(offset).value), k);
            InStep(l.(tx := st'.tx, notes := l.notes[1..], wire := l.wire + Items(fs)))
  {
    SafeStep(l, RecvNote);
    HonestNotesAccepted(l);
    RewindAligns(l);
    var heard := Step(l, RecvNote);
    assert heard.Queue() == [];
    ClientDrainInStep(heard, id, st.(tx := heard.tx), k);
  }

  /** A resume request puts the helper's direction in step when its task holds no frame and nothing of
      this stream is on the channel, unless the task is about to send a Fin too early. */
  lemma ResumePutsDownInStep(l: Link, linked: bool)
    requires HelperHasFrame(l) && Safe(DownLane(l))
    requires l.up[0].Resume? && Items(l.down) == [] && !l.h.h.up.pc.Sending?
    ensures var o := H.OnFrame(l.h.h, l.up[0], linked);
            Flowing(DownLane(l).(tx := o.st.up.tx, notes := Notes(l.up[1..])), o.st.up)
            <==> (l.h.h.up.pc.SendingFin? ==> |ClientGot(l)| == |HelperTx(l).hist|)
  {
    UpHead(l);
    HonestNotesAccepted(DownLane(l));
    NoteObeyed(l, linked);
    RewoundFlowsExactly(DownLane(l), l.h.h.up);
    assert DownLane(l).(tx := Step(DownLane(l), RecvNote).tx, notes := Notes(l.up[1..]))
           == Step(DownLane(l), RecvNote);
  }

  /** The lane of a task that holds nothing, rewound with nothing in flight. */
  lemma RewoundFlowsExactly(l: Lane, u: U.Uplink)
    requires Safe(l) && l.wire == [] && l.held == [] && l.tx == u.tx && !u.pc.Sending?
    requires l.notes != [] && l.notes[0].RewindNote?
    ensures ApplyNote(l.tx, l.notes[0]).Ok?
    ensures Flowing(Step(l, RecvNote), H.Woken(u, ApplyNote(l.tx, l.notes[0]).value))
            <==> (u.pc.SendingFin? ==> |l.got| == |l.tx.hist|)
  {
    HonestNotesAccepted(l);
    SafeStep(l, RecvNote);
    assert l.Queue() == [];
    RewindAligns(l);
    assert Step(l, RecvNote).Queue() == [];
  }
}
