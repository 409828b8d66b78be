/** Every event of a link keeps its invariant. */
module LinkSafety {
  import opened Prelude
  import opened Window
  import opened Frames
  import opened Lane
  import opened Link
  import M = Mux
  import C = Driver
  import H = HelperStream
  import U = Uplink

  // ---- What a batch of frames means for the two lanes ----

  predicate Plain(fs: seq<Frame>, id: StreamId)
  {
    forall i :: 0 <= i < |fs| ==> fs[i].StreamOf() == Some(id) && !fs[i].Open?
  }

  predicate DataMatches(fs: seq<Frame>, hist: bytes)
  {
    forall i :: 0 <= i < |fs| && fs[i].Data? ==> Matches(Chunk(fs[i].offset, fs[i].data), hist)
  }

  predicate NoNotes(fs: seq<Frame>)
  {
    forall i :: 0 <= i < |fs| ==> !fs[i].Ack? && !fs[i].Resume? && !fs[i].ResumeOk?
  }

  predicate NoItems(fs: seq<Frame>) { forall i :: 0 <= i < |fs| ==> !fs[i].Data? && !fs[i].Fin? }

  lemma {:induction false} BatchMeans(fs: seq<Frame>, hist: bytes)
    ensures DataMatches(fs, hist) ==> AllMatch(Items(fs), hist)
    ensures NoNotes(fs) ==> Notes(fs) == []
    ensures NoItems(fs) ==> Items(fs) == []
  {
    if fs != [] {
      BatchMeans(fs[1..], hist);
      assert DataMatches(fs, hist) ==> DataMatches(fs[1..], hist);
    }
  }

  lemma SentUp(l: Link, fs: seq<Frame>)
    requires 0 < l.window
    ensures l.online ==>
              && UpLane(SendUp(l, fs)) == UpLane(l).(wire := UpLane(l).wire + Items(fs))
              && DownLane(SendUp(l, fs)) == DownLane(l).(notes := DownLane(l).notes + Notes(fs))
  {
    ItemsAppend(l.up, fs);
    NotesAppend(l.up, fs);
  }

  lemma SentDown(l: Link, fs: seq<Frame>)
    requires 0 < l.window
    ensures l.online ==>
              && DownLane(SendDown(l, fs)) == DownLane(l).(wire := DownLane(l).wire + Items(fs))
              && UpLane(SendDown(l, fs)) == UpLane(l).(notes := UpLane(l).notes + Notes(fs))
  {
    ItemsAppend(l.down, fs);
    NotesAppend(l.down, fs);
  }

  // ---- What the client emits ----

  lemma DrainEmits(id: StreamId, st: M.StreamState, k: nat)
    requires st.tx.Valid()
    ensures var (st', fs) := M.Drain(id, st, k);
            && Plain(fs, id) && DataMatches(fs, st.tx.hist) && NoNotes(fs)
            && st'.tx.Valid() && st'.tx.hist == st.tx.hist && st'.tx.acked == st.tx.acked
            && st'.rx == st.rx && st'.reset == st.reset && st'.localFin == st.localFin
            && (st'.tx.fin ==> st.tx.fin || st.localFin)
  {
    var fs := M.DataFrames(id, st.tx, k);
    forall i | 0 <= i < |fs|
      ensures fs[i] == M.FrameAt(id, st.tx, i) && Matches(Chunk(fs[i].offset, fs[i].data), st.tx.hist)
    {
      M.FrameCountCovers(st.tx.Pending(), i);
    }
  }

  /** A command extends the history at most, never moves acked, and emits only matching data. */
  lemma CommandEmits(st: M.StreamState, cmd: C.Command, online: bool)
    requires st.tx.Valid() && st.reset.None? && (st.tx.fin ==> st.localFin)
    ensures var o := if online then C.OnlineOutcome(st, cmd) else C.OfflineOutcome(st, cmd);
            && Plain(o.out, cmd.id) && DataMatches(o.out, o.st.tx.hist) && NoNotes(o.out)
            && o.st.tx.Valid() && st.tx.hist <= o.st.tx.hist && o.st.tx.acked == st.tx.acked
            && o.st.rx == st.rx && (o.live ==> o.st.reset.None? && (o.st.tx.fin ==> o.st.localFin))
  {
    match cmd {
      case LocalData(id, data) => DrainEmits(id, st.(tx := st.tx.Push(data)), C.DRAIN_BATCH);
      case LocalEof(id) => DrainEmits(id, st.(localFin := true), C.DRAIN_BATCH);
      case LocalClose(_) =>
    }
  }

  /** Whatever the client does next with its half: its window moves on from mid, its inbox grows
      within what the helper has read, and the frames it sends are honest. */
  lemma ClientMoves(l: Link, mid: Window, st: M.StreamState, live: bool, out: seq<Frame>)
    requires 0 < l.window && l.online
    requires Sound(UpLane(l).(tx := mid)) && Sound(DownLane(l))
    requires st.tx.Valid() && mid.hist <= st.tx.hist && st.tx.acked == mid.acked
    requires DataMatches(out, st.tx.hist)
    requires ClientGot(l) <= st.rx.got <= HelperTx(l).hist
    requires HonestNews(Notes(out), |st.rx.got|)
    ensures var l' := SendUp(l.(c := CSettle(C.Outcome(st, live, out))), out);
            SoundLanes(l')
  {
    var l1 := l.(c := CSettle(C.Outcome(st, live, out)));
    BatchMeans(out, st.tx.hist);
    SenderMoves(UpLane(l).(tx := mid), st.tx, [], Items(out));
    ReceiverMoves(DownLane(l), st.rx.got, 0, Notes(out));
    SentUp(l1, out);
  }

  lemma TidyUp(l: Link, c: ClientSide, fs: seq<Frame>)
    requires Tidy(l) && !l.c.CNone? && !c.CNone? && Plain(fs, l.id)
    ensures Tidy(SendUp(l.(c := c), fs))
  {
  }

  lemma TidyDown(l: Link, h: HelperSide, fs: seq<Frame>)
    requires Tidy(l) && !l.h.HNone? && !h.HNone? && Plain(fs, l.id)
    ensures Tidy(SendDown(l.(h := h), fs))
  {
  }

  lemma CommandKeeps(l: Link, cmd: C.Command)
    requires Inv(l) && CanHappen(l, Command(cmd))
    ensures Inv(Next(l, Command(cmd)))
  {
    var o := if l.online then C.OnlineOutcome(l.c.st, cmd) else C.OfflineOutcome(l.c.st, cmd);
    CommandEmits(l.c.st, cmd, l.online);
    TidyUp(l, CSettle(o), o.out);
    if l.online {
      NoNotesInEmits(o.out);
      ClientMoves(l, l.c.st.tx, o.st, o.live, o.out);
    } else {
      SenderMoves(UpLane(l), o.st.tx, [], []);
      assert UpLane(l).wire == [];
    }
  }

  lemma NoNotesInEmits(fs: seq<Frame>)
    requires NoNotes(fs)
    ensures Notes(fs) == []
  {
    BatchMeans(fs, []);
  }

  lemma OpenCarriesNothing(id: StreamId, addr: TargetAddr)
    ensures Items([Open(id, addr)]) == [] && Notes([Open(id, addr)]) == []
  {
    assert [Open(id, addr)][1..] == [];
  }

  lemma OpensSoundly(l: Link, addr: TargetAddr)
    requires 0 < l.window && SoundLanes(l) && l.c.CNone? && l.online
    ensures SoundLanes(Next(l, ClientOpens(addr)))
  {
    var l1 := l.(c := CLive(M.NewStream(l.window)));
    OpenCarriesNothing(l.id, addr);
    SentUp(l1, [Open(l.id, addr)]);
    assert UpLane(l1) == UpLane(l) && DownLane(l1) == DownLane(l);
    assert UpLane(l).wire + [] == UpLane(l).wire && DownLane(l).notes + [] == DownLane(l).notes;
  }

  lemma OpensKeeps(l: Link, addr: TargetAddr)
    requires Inv(l) && CanHappen(l, ClientOpens(addr))
    ensures Inv(Next(l, ClientOpens(addr)))
  {
    OpensSoundly(l, addr);
    assert OpenOnce(Next(l, ClientOpens(addr)));
  }

  // ---- The client takes a frame ----

  lemma DownHead(l: Link)
    requires 0 < l.window && l.down != []
    ensures var l1 := l.(down := l.down[1..]);
            && DownLane(l1) == DownLane(l).(wire := Items(l.down[1..]))
            && UpLane(l1) == UpLane(l).(notes := Notes(l.down[1..]))
            && DownLane(l).wire == ItemOf(l.down[0]) + DownLane(l1).wire
            && UpLane(l).notes == NoteOf(l.down[0]) + UpLane(l1).notes
  {
  }

  /** Taking a frame off the channel without acting on it is safe. */
  lemma DownDropped(l: Link)
    requires 0 < l.window && SoundLanes(l) && l.down != []
    ensures var l1 := l.(down := l.down[1..]); Sound(DownLane(l1)) && Sound(UpLane(l1))
  {
    DownHead(l);
    ItemsLost(DownLane(l), |ItemOf(l.down[0])|);
    NotesLost(UpLane(l), |NoteOf(l.down[0])|);
  }

  /** What the live client's reaction to the first frame amounts to: its window continues from mid. */
  predicate Reaction(l: Link, mid: Window, o: C.Outcome)
    requires 0 < l.window && l.down != []
  {
    var l1 := l.(down := l.down[1..]);
    && Sound(UpLane(l1).(tx := mid)) && Sound(DownLane(l1))
    && o.st.tx.Valid() && mid.hist <= o.st.tx.hist && o.st.tx.acked == mid.acked
    && Plain(o.out, l.id) && DataMatches(o.out, o.st.tx.hist)
    && ClientGot(l1) <= o.st.rx.got <= HelperTx(l1).hist
    && (forall i :: 0 <= i < |Notes(o.out)| ==> Notes(o.out)[i] == AckNote(|o.st.rx.got|))
    && (o.live ==> o.st.reset.None? && (o.st.tx.fin ==> o.st.localFin))
  }

  predicate ClientHasFrame(l: Link)
  {
    && 0 < l.window && SoundLanes(l) && ClientOk(l.c)
    && l.down != [] && l.c.CLive? && l.down[0].StreamOf() == Some(l.id)
  }

  lemma DataReaction(l: Link, localOk: bool)
    requires ClientHasFrame(l) && l.down[0].Data?
    ensures Reaction(l, l.c.st.tx, C.FrameOutcome(l.c.st, l.down[0], localOk))
  {
    var f := l.down[0];
    var o := C.FrameOutcome(l.c.st, f, localOk);
    DownHead(l);
    DownDropped(l);
    assert Matches(DownLane(l).wire[0], HelperTx(l).hist);
    ReceiveKeepsPrefix(ClientGot(l), Chunk(f.offset, f.data), HelperTx(l).hist);
    AckOnly(o.out, f.id, |o.st.rx.got|);
  }

  /** What the client's window becomes when it hears a frame; a refused note changes nothing. */
  function ClientHeard(w: Window, f: Frame): Window
    requires w.Valid()
  {
    if f.Ack? && w.Ack(f.offset).Ok? then w.Ack(f.offset).value
    else if f.ResumeOk? && w.Rewind(f.recvOffset).Ok? then w.Rewind(f.recvOffset).value
    else w
  }

  /** Heard, obeyed or refused, a note leaves both lanes sound. */
  lemma ClientHears(l: Link)
    requires ClientHasFrame(l) && (l.down[0].Ack? || l.down[0].ResumeOk?)
    ensures var l1, w := l.(down := l.down[1..]), ClientHeard(l.c.st.tx, l.down[0]);
            Sound(UpLane(l1).(tx := w)) && Sound(DownLane(l1)) && w.Valid() && w.hist == l.c.st.tx.hist
  {
    DownHead(l);
    DownDropped(l);
    NoteHeard(UpLane(l));
    assert UpLane(l).notes[1..] == Notes(l.down[1..]);
    assert UpLane(l.(down := l.down[1..])).(tx := ClientHeard(l.c.st.tx, l.down[0])) == Step(UpLane(l), RecvNote);
  }

  lemma AckReaction(l: Link, localOk: bool)
    requires ClientHasFrame(l) && l.down[0].Ack?
    ensures Reaction(l, ClientHeard(l.c.st.tx, l.down[0]), C.FrameOutcome(l.c.st, l.down[0], localOk))
  {
    ClientHears(l);
  }

  lemma ResumeOutcome(st: M.StreamState, f: Frame, localOk: bool)
    requires st.tx.Valid() && f.ResumeOk?
    ensures var o, r := C.FrameOutcome(st, f, localOk), st.tx.Rewind(f.recvOffset);
            if r.Ok? then o == C.DrainOutcome(f.id, st.(tx := r.value), C.DRAIN_BATCH)
            else !o.live && o.st == st.(reset := Some(ResumeImpossible)) && o.out == [Reset(f.id, ResumeImpossible)]
  {
  }

  lemma ResumeReaction(l: Link, localOk: bool)
    requires ClientHasFrame(l) && l.down[0].ResumeOk?
    ensures Reaction(l, ClientHeard(l.c.st.tx, l.down[0]), C.FrameOutcome(l.c.st, l.down[0], localOk))
  {
    ClientHears(l);
    ResumeOutcome(l.c.st, l.down[0], localOk);
    if l.c.st.tx.Rewind(l.down[0].recvOffset).Ok? {
      DrainEmits(l.id, l.c.st.(tx := l.c.st.tx.Rewind(l.down[0].recvOffset).value), C.DRAIN_BATCH);
    }
    NoNotesInEmits(C.FrameOutcome(l.c.st, l.down[0], localOk).out);
  }

  lemma QuietReaction(l: Link, localOk: bool)
    requires ClientHasFrame(l) && !l.down[0].Data? && !l.down[0].Ack? && !l.down[0].ResumeOk?
    ensures Reaction(l, l.c.st.tx, C.FrameOutcome(l.c.st, l.down[0], localOk))
  {
    DownHead(l);
    DownDropped(l);
    QuietOutcome(l.c.st, l.down[0], localOk);
    assert UpLane(l.(down := l.down[1..])).tx == l.c.st.tx;
  }

  lemma QuietOutcome(st: M.StreamState, f: Frame, localOk: bool)
    requires st.tx.Valid() && st.reset.None? && f.StreamOf().Some? && !f.Data? && !f.Ack? && !f.ResumeOk?
    ensures var o := C.FrameOutcome(st, f, localOk);
            && o.out == [] && o.st.tx == st.tx && o.st.rx.got == st.rx.got && o.st.localFin == st.localFin
            && (o.live ==> o.st.reset.None?)
  {
  }

  lemma ClientReacts(l: Link, localOk: bool)
    requires ClientHasFrame(l)
    ensures Reaction(l, ClientHeard(l.c.st.tx, l.down[0]), C.FrameOutcome(l.c.st, l.down[0], localOk))
  {
    if l.down[0].Data? {
      DataReaction(l, localOk);
    } else if l.down[0].Ack? {
      AckReaction(l, localOk);
    } else if l.down[0].ResumeOk? {
      ResumeReaction(l, localOk);
    } else {
      QuietReaction(l, localOk);
    }
  }

  /** The replies that carry at most one ack. */
  lemma AckOnly(out: seq<Frame>, id: StreamId, offset: nat)
    requires out == [Ack(id, offset)] || out == [Reset(id, Normal), Ack(id, offset)] || out == [Reset(id, Internal)]
    ensures forall i :: 0 <= i < |Notes(out)| ==> Notes(out)[i] == AckNote(offset)
    ensures Plain(out, id)
  {
    assert out[1..] == [] || out[1..] == [Ack(id, offset)];
    assert [Ack(id, offset)][1..] == [];
  }

  lemma DownPopped(l: Link)
    requires Inv(l) && l.down != []
    ensures Inv(l.(down := l.down[1..]))
  {
    var l1 := l.(down := l.down[1..]);
    DownDropped(l);
    assert Own(l1.down, l.id) && (NoneOf(l.down, l.id) ==> NoneOf(l1.down, l.id)) by {
      assert forall i :: 0 <= i < |l1.down| ==> l1.down[i] == l.down[i + 1];
    }
  }

  /** Frames that carry neither data nor notes leave both lanes alone. */
  lemma PlainReply(l: Link, fs: seq<Frame>)
    requires Inv(l) && l.online && !l.c.CNone? && Plain(fs, l.id) && NoItems(fs) && NoNotes(fs)
    ensures Inv(SendUp(l, fs))
  {
    BatchMeans(fs, []);
    SentUp(l, fs);
    SenderMoves(UpLane(l), UpLane(l).tx, [], Items(fs));
    ReceiverMoves(DownLane(l), DownLane(l).got, 0, Notes(fs));
    TidyUp(l, l.c, fs);
  }

  lemma HelloAckKeeps(l: Link, resumed: bool, session: bytes, version: byte)
    requires Inv(l) && l.online
    ensures Inv(ClientTakes(l, HelloAck(version, session, resumed), true))
  {
    var l1 := l.(greeted := true);
    assert UpLane(l1) == UpLane(l) && DownLane(l1) == DownLane(l);
    if l.resuming && l.c.CLive? && resumed {
      var f := Resume(l.id, |l.c.st.rx.got|);
      assert Notes([f]) == [RewindNote(|l.c.st.rx.got|)] by { assert [f][1..] == []; }
      ClientMoves(l1, l.c.st.tx, l.c.st, true, [f]);
      TidyUp(l1, l1.c, [f]);
      assert l1.(c := CSettle(C.Outcome(l.c.st, true, [f]))) == l1;
    } else if l.resuming && l.c.CLive? {
      var l2 := l1.(c := CGone(l.c.st));
      assert UpLane(l2) == UpLane(l) && DownLane(l2) == DownLane(l);
    }
  }

  lemma ClientLiveKeeps(l: Link, localOk: bool)
    requires Inv(l) && l.online && ClientHasFrame(l)
    ensures Inv(ClientTakes(l.(down := l.down[1..]), l.down[0], localOk))
  {
    var l1 := l.(down := l.down[1..]);
    var o := C.FrameOutcome(l.c.st, l.down[0], localOk);
    ClientReacts(l, localOk);
    var mid := ClientHeard(l.c.st.tx, l.down[0]);
    DownPopped(l);
    ClientMoves(l1, mid, o.st, o.live, o.out);
    TidyUp(l1, CSettle(o), o.out);
  }

  lemma ClientRecvKeeps(l: Link, localOk: bool)
    requires Inv(l) && CanHappen(l, ClientRecv(localOk))
    ensures Inv(Next(l, ClientRecv(localOk)))
  {
    var f := l.down[0];
    var l1 := l.(down := l.down[1..]);
    DownPopped(l);
    if f.HelloAck? {
      HelloAckKeeps(l1, f.resumed, f.session, f.version);
    } else if f.StreamOf() != Some(l.id) {
    } else if l.c.CLive? {
      ClientLiveKeeps(l, localOk);
    } else {
      PlainReply(l1, if f.Data? then [Reset(l.id, UnknownStream)] else []);
    }
  }

  // ---- The helper takes a frame ----

  /** Whatever the helper does next with its half, with a channel or without one. */
  lemma HelperMoves(l: Link, mid: Window, h: HelperSide, out: seq<Frame>)
    requires 0 < l.window && !h.HNone? && h.h.up.tx.Valid()
    requires Sound(UpLane(l)) && Sound(DownLane(l).(tx := mid))
    requires mid.hist <= h.h.up.tx.hist && h.h.up.tx.acked == mid.acked
    requires DataMatches(out, h.h.up.tx.hist) && AllMatch(HeldBy(h), h.h.up.tx.hist)
    requires HelperGot(l) <= h.h.recv.got <= ClientTx(l).hist
    requires HonestNews(Notes(out), |h.h.recv.got|)
    requires !l.online ==> l.up == [] && l.down == []
    ensures SoundLanes(SendDown(l.(h := h), out))
  {
    var l1 := l.(h := h);
    BatchMeans(out, h.h.up.tx.hist);
    if l.online {
      SenderMoves(DownLane(l).(tx := mid), h.h.up.tx, HeldBy(h), Items(out));
      ReceiverMoves(UpLane(l), h.h.recv.got, 0, Notes(out));
      SentDown(l1, out);
    } else {
      SenderMoves(DownLane(l).(tx := mid), h.h.up.tx, HeldBy(h), []);
      ReceiverMoves(UpLane(l), h.h.recv.got, 0, []);
      assert DownLane(l).wire == [] && UpLane(l).notes == [];
    }
  }

  lemma UpHead(l: Link)
    requires 0 < l.window && l.up != []
    ensures var l1 := l.(up := l.up[1..]);
            && UpLane(l1) == UpLane(l).(wire := Items(l.up[1..]))
            && DownLane(l1) == DownLane(l).(notes := Notes(l.up[1..]))
            && UpLane(l).wire == ItemOf(l.up[0]) + UpLane(l1).wire
            && DownLane(l).notes == NoteOf(l.up[0]) + DownLane(l1).notes
  {
  }

  lemma UpDropped(l: Link)
    requires 0 < l.window && SoundLanes(l) && l.up != []
    ensures SoundLanes(l.(up := l.up[1..]))
  {
    UpHead(l);
    ItemsLost(UpLane(l), |ItemOf(l.up[0])|);
    NotesLost(DownLane(l), |NoteOf(l.up[0])|);
  }

  lemma UpPopped(l: Link)
    requires Inv(l) && l.up != []
    ensures Inv(l.(up := l.up[1..]))
    ensures l.up[0].Open? ==> NoOpen(l.up[1..]) && l.h.HNone? && !l.c.CNone?
  {
    var l1 := l.(up := l.up[1..]);
    UpDropped(l);
    assert forall i :: 0 <= i < |l1.up| ==> l1.up[i] == l.up[i + 1];
  }

  predicate HelperHasFrame(l: Link)
  {
    && 0 < l.window && SoundLanes(l)
    && l.up != [] && l.h.HLive? && l.up[0].StreamOf() == Some(l.id) && !l.up[0].Open?
  }

  /** The lanes when the helper has taken the first frame and its window stands at mid. */
  predicate SoundFrom(l: Link, mid: Window)
    requires 0 < l.window && l.up != []
  {
    var l1 := l.(up := l.up[1..]);
    Sound(UpLane(l1)) && Sound(DownLane(l1).(tx := mid))
  }

  /** What the helper's reaction to the first frame amounts to: its window continues from mid. */
  predicate HelperReaction(l: Link, mid: Window, o: H.Outcome)
    requires 0 < l.window && l.h.HLive?
  {
    && o.st.up.tx.Valid() && mid.hist <= o.st.up.tx.hist && o.st.up.tx.acked == mid.acked
    && o.st.up.pc == l.h.h.up.pc && o.st.up.tx.hist == l.h.h.up.tx.hist
    && Plain(o.out, l.id) && NoItems(o.out)
    && HelperGot(l) <= o.st.recv.got <= ClientTx(l).hist && o.st.down == l.h.h.down
    && (forall i :: 0 <= i < |Notes(o.out)| ==> Notes(o.out)[i] == RewindNote(|o.st.recv.got|))
  }

  lemma PrefixOf(l: Link)
    requires 0 < l.window && Sound(UpLane(l))
    ensures HelperGot(l) <= ClientTx(l).hist
  {
  }

  /** A frame that is no note leaves the helper's window where it was. */
  lemma WindowStays(l: Link)
    requires HelperHasFrame(l)
    ensures SoundFrom(l, l.h.h.up.tx)
  {
    UpDropped(l);
    assert DownLane(l.(up := l.up[1..])).(tx := l.h.h.up.tx) == DownLane(l.(up := l.up[1..]));
  }

  lemma HelperDataReaction(l: Link, linked: bool)
    requires HelperHasFrame(l) && l.up[0].Data?
    ensures HelperReaction(l, l.h.h.up.tx, H.OnFrame(l.h.h, l.up[0], linked))
  {
    var f := l.up[0];
    UpHead(l);
    assert Matches(UpLane(l).wire[0], ClientTx(l).hist);
    ReceiveKeepsPrefix(HelperGot(l), Chunk(f.offset, f.data), ClientTx(l).hist);
    DataAtHelper(l.h.h, f, linked);
    NoNotesInEmits(H.OnFrame(l.h.h, f, linked).out);
  }

  lemma DataAtHelper(h: H.HStream, f: Frame, linked: bool)
    requires h.up.tx.Valid() && f.Data?
    ensures var o := H.OnFrame(h, f, linked);
            && (o.out == [] || o.out == [Reset(f.id, Internal)])
            && o.st.up == h.up && o.st.down == h.down
            && (var r := Receive(h.recv.got, Chunk(f.offset, f.data));
                o.st.recv.got == if r.Ok? then r.value else h.recv.got)
  {
  }

  /** The same for the helper's window. */
  function HelperHeard(w: Window, f: Frame): Window
    requires w.Valid()
  {
    if f.Ack? && w.Ack(f.offset).Ok? then w.Ack(f.offset).value
    else if f.Resume? && w.Rewind(f.recvOffset).Ok? then w.Rewind(f.recvOffset).value
    else w
  }

  lemma HelperHears(l: Link)
    requires HelperHasFrame(l) && (l.up[0].Ack? || l.up[0].Resume?)
    ensures HelperHeard(l.h.h.up.tx, l.up[0]).Valid() && HelperHeard(l.h.h.up.tx, l.up[0]).hist == l.h.h.up.tx.hist
    ensures SoundFrom(l, HelperHeard(l.h.h.up.tx, l.up[0]))
  {
    UpHead(l);
    UpDropped(l);
    NoteHeard(DownLane(l));
    assert DownLane(l).notes[1..] == Notes(l.up[1..]);
    assert DownLane(l.(up := l.up[1..])).(tx := HelperHeard(l.h.h.up.tx, l.up[0])) == Step(DownLane(l), RecvNote);
  }

  /** A note out of order is refused and changes nothing. */
  lemma HelperRefuses(l: Link, linked: bool)
    requires 0 < l.window && l.up != [] && l.h.HLive? && l.up[0].StreamOf() == Some(l.id)
    requires l.h.h.up.tx.Valid() && HelperGot(l) <= ClientTx(l).hist
    requires l.up[0].Ack? ==> l.h.h.up.tx.Ack(l.up[0].offset).Err?
    requires l.up[0].Resume? ==> l.h.h.up.tx.Rewind(l.up[0].recvOffset).Err?
    requires l.up[0].Ack? || l.up[0].Resume?
    ensures HelperReaction(l, l.h.h.up.tx, H.OnFrame(l.h.h, l.up[0], linked))
  {
    NoNotesInEmits(H.OnFrame(l.h.h, l.up[0], linked).out);
  }

  lemma AckTaken(h: H.HStream, f: Frame, linked: bool)
    requires h.up.tx.Valid() && f.Ack? && h.up.tx.Ack(f.offset).Ok?
    ensures var o := H.OnFrame(h, f, linked);
            o.st == h.(up := H.Woken(h.up, h.up.tx.Ack(f.offset).value)) && o.out == []
  {
  }

  lemma HelperAckReaction(l: Link, linked: bool)
    requires 0 < l.window && l.up != [] && l.h.HLive? && l.up[0].Ack? && l.up[0].id == l.id
    requires l.h.h.up.tx.Valid() && HelperGot(l) <= ClientTx(l).hist
    ensures HelperReaction(l, HelperHeard(l.h.h.up.tx, l.up[0]), H.OnFrame(l.h.h, l.up[0], linked))
  {
    if l.h.h.up.tx.Ack(l.up[0].offset).Ok? { AckTaken(l.h.h, l.up[0], linked); } else { HelperRefuses(l, linked); }
  }

  lemma HelperResumeReaction(l: Link, linked: bool)
    requires 0 < l.window && l.up != [] && l.h.HLive? && l.up[0].Resume? && l.up[0].id == l.id
    requires l.h.h.up.tx.Valid() && HelperGot(l) <= ClientTx(l).hist
    ensures HelperReaction(l, HelperHeard(l.h.h.up.tx, l.up[0]), H.OnFrame(l.h.h, l.up[0], linked))
  {
    if l.h.h.up.tx.Rewind(l.up[0].recvOffset).Ok? {
      var f := ResumeOk(l.id, |l.h.h.recv.got|);
      assert Notes([f]) == [RewindNote(|l.h.h.recv.got|)] by { assert [f][1..] == []; }
    } else {
      HelperRefuses(l, linked);
    }
  }

  lemma HelperQuietReaction(l: Link, linked: bool)
    requires HelperHasFrame(l) && !l.up[0].Data? && !l.up[0].Ack? && !l.up[0].Resume?
    ensures HelperReaction(l, l.h.h.up.tx, H.OnFrame(l.h.h, l.up[0], linked))
  {
    PrefixOf(l);
    QuietHelper(l.h.h, l.up[0], linked);
    NoNotesInEmits(H.OnFrame(l.h.h, l.up[0], linked).out);
  }

  lemma QuietHelper(h: H.HStream, f: Frame, linked: bool)
    requires h.up.tx.Valid() && f.StreamOf().Some? && !f.Data? && !f.Ack? && !f.Resume? && !f.Open?
    ensures var o := H.OnFrame(h, f, linked);
            && (o.out == [] || o.out == [Reset(f.id, Internal)])
            && o.st.up == h.up && o.st.recv.got == h.recv.got && o.st.down == h.down
  {
  }

  lemma HelperReacts(l: Link, linked: bool)
    requires HelperHasFrame(l)
    ensures var mid := HelperHeard(l.h.h.up.tx, l.up[0]);
            SoundFrom(l, mid) && HelperReaction(l, mid, H.OnFrame(l.h.h, l.up[0], linked))
  {
    if l.up[0].Ack? || l.up[0].Resume? {
      HelperHears(l);
      PrefixOf(l);
      if l.up[0].Ack? { HelperAckReaction(l, linked); } else { HelperResumeReaction(l, linked); }
    } else {
      WindowStays(l);
      if l.up[0].Data? { HelperDataReaction(l, linked); } else { HelperQuietReaction(l, linked); }
    }
  }

  lemma HelperLiveKeeps(l: Link, linked: bool)
    requires Inv(l) && l.online && HelperHasFrame(l)
    ensures Inv(HelperTakes(l.(up := l.up[1..]), l.up[0], true, Gate(false, true), linked))
  {
    var l1 := l.(up := l.up[1..]);
    var o := H.OnFrame(l.h.h, l.up[0], linked);
    HelperReacts(l, linked);
    var mid := HelperHeard(l.h.h.up.tx, l.up[0]);
    UpPopped(l);
    H.OnFrameIsGood(l.h.h, l.up[0], linked);
    HelperMoves(l1, mid, HSettle(o), o.out);
    TidyDown(l1, HSettle(o), o.out);
  }

  /** Dropping the helper's half, keeping its last state, is safe. */
  lemma HelperDrops(l: Link)
    requires Inv(l)
    ensures Inv(l.(h := HDrop(l.h)))
  {
    if l.h.HLive? {
      var l1 := l.(h := HDrop(l.h));
      SenderMoves(DownLane(l), HelperTx(l), [], []);
      assert DownLane(l1) == DownLane(l).(held := []);
      assert UpLane(l1) == UpLane(l);
    }
  }

  /** A reply of the helper that carries neither data nor notes. */
  lemma HelperReply(l: Link, fs: seq<Frame>)
    requires Inv(l) && NoItems(fs) && NoNotes(fs) && Own(fs, l.id)
    requires l.c.CNone? ==> NoneOf(fs, l.id)
    ensures Inv(SendDown(l, fs))
  {
    BatchMeans(fs, []);
    if l.online {
      SentDown(l, fs);
      SenderMoves(DownLane(l), HelperTx(l), HeldBy(l.h), Items(fs));
      ReceiverMoves(UpLane(l), UpLane(l).got, 0, Notes(fs));
    }
  }

  lemma NewHelperOk(window: nat)
    requires 0 < window
    ensures HelperOk(HLive(H.NewHStream(window)))
  {
    H.NewIsGood(window);
  }

  lemma HelperOpens(l: Link)
    requires Inv(l) && l.h.HNone? && !l.c.CNone? && NoOpen(l.up)
    ensures Inv(l.(h := HLive(H.NewHStream(l.window))))
  {
    var l1 := l.(h := HLive(H.NewHStream(l.window)));
    NewHelperOk(l.window);
    assert UpLane(l1) == UpLane(l) && DownLane(l1) == DownLane(l);
  }

  lemma HelloKeeps(l: Link, session: bytes, keepAll: bool)
    requires Inv(l)
    ensures Inv(SendDown(l.(h := if keepAll then l.h else HDrop(l.h)), [HelloAck(PROTO_VERSION, session, keepAll)]))
  {
    HelperDrops(l);
    HelperReply(if keepAll then l.(h := l.h) else l.(h := HDrop(l.h)), [HelloAck(PROTO_VERSION, session, keepAll)]);
  }

  lemma StrangerKeeps(l: Link, f: Frame, gate: Gate)
    requires Inv(l) && !l.h.HLive? && !l.c.CNone? && f.StreamOf() == Some(l.id)
    requires f.Open? ==> NoOpen(l.up) && l.h.HNone?
    ensures Inv(HelperTakes(l, f, true, gate, true))
  {
    var refusal := H.Refusal(l.id, false, gate.full, gate.permitted);
    if f.Open? && refusal == [] {
      HelperOpens(l);
    } else {
      HelperReply(l, if f.Open? then refusal else H.OnUnknown(f));
    }
  }

  lemma HelperRecvKeeps(l: Link, keepAll: bool, gate: Gate, linked: bool)
    requires Inv(l) && CanHappen(l, HelperRecv(keepAll, gate, linked))
    ensures Inv(Next(l, HelperRecv(keepAll, gate, linked)))
  {
    var f := l.up[0];
    UpPopped(l);
    if f.Hello? {
      HelloKeeps(l.(up := l.up[1..]), f.session, keepAll);
    } else if f.StreamOf() == Some(l.id) {
      assert !l.c.CNone?;
      if l.h.HLive? {
        HelperLiveKeeps(l, linked);
      } else {
        StrangerKeeps(l.(up := l.up[1..]), f, gate);
      }
    }
  }

  // ---- The helper's tasks ----

  predicate HeldMatches(u: U.Uplink)
  {
    u.pc.Sending? ==> Matches(Chunk(u.pc.seg.offset, u.pc.seg.data), u.tx.hist)
  }

  lemma UplinkEmits(u: U.Uplink, e: U.Event)
    requires U.Inv(u) && U.CanHappen(u, e) && (e.Advance? || e.ReadBytes? || e.ReadEof?) && HeldMatches(u)
    ensures var u' := U.Next(u, e);
            u'.tx.Valid() && u.tx.hist <= u'.tx.hist && u'.tx.acked == u.tx.acked && HeldMatches(u')
  {
  }

  /** What a task step emits is honest: matching data, and acks for bytes already written. */
  lemma TaskEmits(id: StreamId, h: H.HStream, t: H.TaskStep)
    requires H.Good(h) && H.CanTask(h, t) && HeldMatches(h.up)
    ensures var o := H.Task(id, h, t);
            && o.st.up.tx.Valid() && h.up.tx.hist <= o.st.up.tx.hist && o.st.up.tx.acked == h.up.tx.acked
            && Plain(o.out, id) && DataMatches(o.out, o.st.up.tx.hist) && HeldMatches(o.st.up)
            && o.st.recv == h.recv && H.Good(o.st)
            && (forall i :: 0 <= i < |o.out| ==>
                  !o.out[i].Resume? && !o.out[i].ResumeOk? && (o.out[i].Ack? ==> o.out[i].offset <= |h.recv.got|))
  {
    H.TaskIsGood(id, h, t);
    if t.Up? { UplinkEmits(h.up, t.e); }
  }

  lemma {:induction false} AckNotes(fs: seq<Frame>, bound: nat)
    requires forall i :: 0 <= i < |fs| ==>
               !fs[i].Resume? && !fs[i].ResumeOk? && (fs[i].Ack? ==> fs[i].offset <= bound)
    ensures forall i :: 0 <= i < |Notes(fs)| ==> Notes(fs)[i].AckNote? && Notes(fs)[i].offset <= bound
  {
    if fs != [] { AckNotes(fs[1..], bound); }
  }

  lemma TaskLanes(l: Link, o: H.Outcome)
    requires 0 < l.window && SoundLanes(l) && l.h.HLive? && (!l.online ==> l.up == [] && l.down == [])
    requires o.st.up.tx.Valid() && HelperTx(l).hist <= o.st.up.tx.hist && o.st.up.tx.acked == HelperTx(l).acked
    requires DataMatches(o.out, o.st.up.tx.hist) && HeldMatches(o.st.up) && o.st.recv == l.h.h.recv
    requires forall i :: 0 <= i < |o.out| ==>
               && !o.out[i].Resume? && !o.out[i].ResumeOk?
               && (o.out[i].Ack? ==> o.out[i].offset <= |l.h.h.recv.got|)
    ensures SoundLanes(SendDown(l.(h := HSettle(o)), o.out))
  {
    AckNotes(o.out, |l.h.h.recv.got|);
    assert DownLane(l).(tx := HelperTx(l)) == DownLane(l);
    HelperMoves(l, HelperTx(l), HSettle(o), o.out);
  }

  lemma HeldIsMatching(l: Link)
    requires 0 < l.window && Sound(DownLane(l)) && l.h.HLive?
    ensures HeldMatches(l.h.h.up)
  {
    if l.h.h.up.pc.Sending? { assert Matches(DownLane(l).held[0], HelperTx(l).hist); }
  }

  lemma TaskKeepsLanes(l: Link, t: H.TaskStep)
    requires 0 < l.window && SoundLanes(l) && (!l.online ==> l.up == [] && l.down == [])
    requires l.h.HLive? && H.Good(l.h.h) && H.Reported(l.h.h) && H.CanTask(l.h.h, t)
    ensures var o := H.Task(l.id, l.h.h, t);
            SoundLanes(SendDown(l.(h := HSettle(o)), o.out)) && HelperOk(HSettle(o)) && Plain(o.out, l.id)
  {
    HeldIsMatching(l);
    TaskEmits(l.id, l.h.h, t);
    TaskLanes(l, H.Task(l.id, l.h.h, t));
    assert H.Task(l.id, l.h.h, t).st.down.written <= H.Task(l.id, l.h.h, t).st.recv.got;
  }

  lemma HelperTaskKeeps(l: Link, t: H.TaskStep)
    requires Inv(l) && CanHappen(l, HelperTask(t))
    ensures Inv(Next(l, HelperTask(t)))
  {
    var o := H.Task(l.id, l.h.h, t);
    TaskKeepsLanes(l, t);
    TidyDown(l, HSettle(o), o.out);
  }

  lemma ConnectKeeps(l: Link, newProcess: bool, resume: bool)
    requires Inv(l) && CanHappen(l, Connect(newProcess, resume))
    ensures Inv(Next(l, Connect(newProcess, resume)))
  {
    HelperDrops(l);
    GreetKeeps(if newProcess then l.(h := HDrop(l.h)) else l.(h := l.h), resume);
  }

  lemma GreetKeeps(l: Link, resume: bool)
    requires Inv(l) && !l.online
    ensures Inv(l.(online := true, greeted := false, resuming := resume, down := [],
                   up := [Hello(PROTO_VERSION, l.session, resume)]))
  {
    var l1 := l.(online := true, greeted := false, resuming := resume, down := [],
                 up := [Hello(PROTO_VERSION, l.session, resume)]);
    BatchMeans(l1.up, []);
    assert Items(l1.up) == [] == Items(l.up) && Notes(l1.up) == [] == Notes(l.up);
    assert UpLane(l1) == UpLane(l);
    assert DownLane(l1) == DownLane(l);
  }

  lemma DisconnectKeeps(l: Link)
    requires Inv(l) && CanHappen(l, Disconnect)
    ensures Inv(Next(l, Disconnect))
  {
    SoundStep(UpLane(l), Cut);
    SoundStep(DownLane(l), Cut);
    var l1 := Next(l, Disconnect);
    assert UpLane(l1) == Step(UpLane(l), Cut) && DownLane(l1) == Step(DownLane(l), Cut);
  }

  lemma FailKeeps(l: Link, reset: Option<ResetCode>)
    requires Inv(l) && CanHappen(l, HelperFails(reset))
    ensures Inv(Next(l, HelperFails(reset)))
  {
    HelperDrops(l);
    HelperReply(l.(h := HDrop(l.h)), if reset.Some? then [Reset(l.id, reset.value)] else []);
  }

  // ---- The channel's mischief ----

  lemma ItemsCut(fs: seq<Frame>, at: nat)
    requires at <= |fs|
    ensures Items(fs) == Items(fs[..at]) + Items(fs[at..])
  {
    var a, b := fs[..at], fs[at..];
    assert fs == a + b;
    ItemsAppend(a, b);
  }

  lemma NotesCut(fs: seq<Frame>, at: nat)
    requires at <= |fs|
    ensures Notes(fs) == Notes(fs[..at]) + Notes(fs[at..])
  {
    var a, b := fs[..at], fs[at..];
    assert fs == a + b;
    NotesAppend(a, b);
  }

  lemma PartsOf(fs: seq<Frame>, k: nat)
    requires k < |fs|
    ensures Items(fs) == Items(fs[..k]) + (ItemOf(fs[k]) + Items(fs[k + 1..]))
    ensures Notes(fs) == Notes(fs[..k]) + (NoteOf(fs[k]) + Notes(fs[k + 1..]))
  {
    ItemsCut(fs, k);
    NotesCut(fs, k);
    assert fs[k..][0] == fs[k] && fs[k..][1..] == fs[k + 1..];
  }

  lemma PartsWithout(fs: seq<Frame>, k: nat)
    requires k < |fs|
    ensures Items(Without(fs, k)) == Items(fs[..k]) + Items(fs[k + 1..])
    ensures Notes(Without(fs, k)) == Notes(fs[..k]) + Notes(fs[k + 1..])
  {
    ItemsAppend(fs[..k], fs[k + 1..]);
    NotesAppend(fs[..k], fs[k + 1..]);
  }

  lemma PartsWithCopy(fs: seq<Frame>, k: nat, at: nat)
    requires k < |fs| && at <= |fs|
    ensures Items(WithCopy(fs, k, at)) == Items(fs[..at]) + (ItemOf(fs[k]) + Items(fs[at..]))
    ensures Notes(WithCopy(fs, k, at)) == Notes(fs[..at]) + (NoteOf(fs[k]) + Notes(fs[at..]))
  {
    var tail := [fs[k]] + fs[at..];
    assert WithCopy(fs, k, at) == fs[..at] + tail;
    assert tail[0] == fs[k] && tail[1..] == fs[at..];
    ItemsAppend(fs[..at], tail);
    NotesAppend(fs[..at], tail);
  }

  /** xs has no element that ys lacks. */
  predicate Within<T(==)>(xs: seq<T>, ys: seq<T>) { forall i :: 0 <= i < |xs| ==> xs[i] in ys }

  lemma WithoutIsWithin(fs: seq<Frame>, k: nat)
    requires k < |fs|
    ensures Within(Items(Without(fs, k)), Items(fs)) && Within(Notes(Without(fs, k)), Notes(fs))
  {
    PartsOf(fs, k);
    PartsWithout(fs, k);
  }

  lemma CopyIsWithin(fs: seq<Frame>, k: nat, at: nat)
    requires k < |fs| && at <= |fs|
    ensures Within(Items(WithCopy(fs, k, at)), Items(fs)) && Within(Notes(WithCopy(fs, k, at)), Notes(fs))
  {
    PartsOf(fs, k);
    PartsWithCopy(fs, k, at);
    ItemsCut(fs, at);
    NotesCut(fs, at);
  }

  /** Frames of which each was there before leave both lanes sound. */
  lemma MessIsSound(l: Lane, wire: seq<Item>, notes: seq<Note>)
    requires Sound(l) && Within(wire, l.wire) && Within(notes, l.notes)
    ensures Sound(l.(wire := wire)) && Sound(l.(notes := notes))
  {
  }

  /** Each frame of fs is one of gs, and no Open is among them twice. */
  predicate Subset(fs: seq<Frame>, gs: seq<Frame>)
  {
    && (forall i :: 0 <= i < |fs| ==> fs[i] in gs)
    && (gs == [] ==> fs == [])
    && (OneOpen(gs) ==> OneOpen(fs))
  }

  predicate OneOpen(fs: seq<Frame>) { forall i, j :: 0 <= i < j < |fs| ==> !(fs[i].Open? && fs[j].Open?) }

  lemma WithoutIsSubset(fs: seq<Frame>, k: nat)
    requires k < |fs|
    ensures Subset(Without(fs, k), fs)
  {
    var r := Without(fs, k);
    forall i | 0 <= i < |r| ensures r[i] == fs[if i < k then i else i + 1] {}
  }

  lemma WithCopyIsSubset(fs: seq<Frame>, k: nat, at: nat)
    requires k < |fs| && at <= |fs| && Repeatable(fs[k])
    ensures Subset(WithCopy(fs, k, at), fs)
  {
    var r := WithCopy(fs, k, at);
    forall i | 0 <= i < |r| ensures r[i] == if i < at then fs[i] else if i == at then fs[k] else fs[i - 1] {}
  }

  lemma TidySubset(l: Link, up: seq<Frame>, down: seq<Frame>)
    requires Tidy(l) && Subset(up, l.up) && Subset(down, l.down)
    ensures Tidy(l.(up := up)) && Tidy(l.(down := down))
  {
  }

  lemma UpMess(l: Link, up: seq<Frame>)
    requires Inv(l) && Subset(up, l.up) && Within(Items(up), Items(l.up)) && Within(Notes(up), Notes(l.up))
    ensures Inv(l.(up := up))
  {
    MessIsSound(UpLane(l), Items(up), UpLane(l).notes);
    MessIsSound(DownLane(l), DownLane(l).wire, Notes(up));
    assert Subset(l.down, l.down);
    TidySubset(l, up, l.down);
  }

  lemma DownMess(l: Link, down: seq<Frame>)
    requires Inv(l) && Subset(down, l.down) && Within(Items(down), Items(l.down)) && Within(Notes(down), Notes(l.down))
    ensures Inv(l.(down := down))
  {
    MessIsSound(DownLane(l), Items(down), DownLane(l).notes);
    MessIsSound(UpLane(l), UpLane(l).wire, Notes(down));
    assert Subset(l.up, l.up);
    TidySubset(l, l.up, down);
  }

  predicate Mess(e: Event) { e.DropUp? || e.DropDown? || e.RepeatUp? || e.RepeatDown? }

  lemma MessKeeps(l: Link, e: Event)
    requires Inv(l) && CanHappen(l, e) && Mess(e)
    ensures Inv(Next(l, e))
  {
    match e {
      case DropUp(k) =>
        WithoutIsWithin(l.up, k);
        WithoutIsSubset(l.up, k);
        UpMess(l, Without(l.up, k));
      case DropDown(k) =>
        WithoutIsWithin(l.down, k);
        WithoutIsSubset(l.down, k);
        DownMess(l, Without(l.down, k));
      case RepeatUp(k, at) =>
        CopyIsWithin(l.up, k, at);
        WithCopyIsSubset(l.up, k, at);
        UpMess(l, WithCopy(l.up, k, at));
      case RepeatDown(k, at) =>
        CopyIsWithin(l.down, k, at);
        WithCopyIsSubset(l.down, k, at);
        DownMess(l, WithCopy(l.down, k, at));
    }
  }

  lemma InvKept(l: Link, e: Event)
    requires Inv(l) && CanHappen(l, e)
    ensures Inv(Next(l, e))
  {
    match e {
      case ClientOpens(addr) => OpensKeeps(l, addr);
      case Command(cmd) => CommandKeeps(l, cmd);
      case ClientRecv(localOk) => ClientRecvKeeps(l, localOk);
      case HelperRecv(keepAll, gate, linked) => HelperRecvKeeps(l, keepAll, gate, linked);
      case HelperTask(t) => HelperTaskKeeps(l, t);
      case HelperFails(reset) => FailKeeps(l, reset);
      case Connect(newProcess, resume) => ConnectKeeps(l, newProcess, resume);
      case Disconnect => DisconnectKeeps(l);
      case _ => MessKeeps(l, e);
    }
  }
}
