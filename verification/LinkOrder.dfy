/** As long as nothing is repeated, acks and resume offsets arrive in the order in which they were sent,
    and then none of them is ever refused. */
module LinkOrder {
  import opened Prelude
  import opened Frames
  import opened Lane
  import opened Link
  import opened LinkSafety
  import C = Driver
  import H = HelperStream

  predicate Repeats(e: Event) { e.RepeatUp? || e.RepeatDown? }

  // ---- What either side says ----

  lemma ClientSays(l: Link, fs: seq<Frame>, got: nat)
    requires 0 < l.window && Sound(DownLane(l)) && Ordered(HelperTx(l).acked, Notes(l.up))
    requires |ClientGot(l)| <= got && HonestNews(Notes(fs), got)
    ensures Ordered(HelperTx(l).acked, Notes(l.up + fs))
  {
    NotesAppend(l.up, fs);
    OrderedNews(HelperTx(l).acked, Notes(l.up), Notes(fs), got);
  }

  lemma HelperSays(l: Link, fs: seq<Frame>, got: nat)
    requires 0 < l.window && Sound(UpLane(l)) && Ordered(ClientTx(l).acked, Notes(l.down))
    requires |HelperGot(l)| <= got && HonestNews(Notes(fs), got)
    ensures Ordered(ClientTx(l).acked, Notes(l.down + fs))
  {
    NotesAppend(l.down, fs);
    OrderedNews(ClientTx(l).acked, Notes(l.down), Notes(fs), got);
  }

  // ---- Taking a frame off the channel ----

  lemma DownRest(l: Link)
    requires 0 < l.window && Sound(UpLane(l)) && Ordered(ClientTx(l).acked, Notes(l.down)) && l.down != []
    ensures Ordered(ClientTx(l).acked, Notes(l.down[1..]))
  {
    NotesLost(UpLane(l), |NoteOf(l.down[0])|);
    assert Notes(l.down)[|NoteOf(l.down[0])|..] == Notes(l.down[1..]);
  }

  lemma UpRest(l: Link)
    requires 0 < l.window && Sound(DownLane(l)) && Ordered(HelperTx(l).acked, Notes(l.up)) && l.up != []
    ensures Ordered(HelperTx(l).acked, Notes(l.up[1..]))
  {
    NotesLost(DownLane(l), |NoteOf(l.up[0])|);
    assert Notes(l.up)[|NoteOf(l.up[0])|..] == Notes(l.up[1..]);
  }

  lemma ClientObeysNote(l: Link)
    requires ClientHasFrame(l) && Ordered(ClientTx(l).acked, Notes(l.down)) && (l.down[0].Ack? || l.down[0].ResumeOk?)
    ensures l.down[0].Ack? ==> l.c.st.tx.Ack(l.down[0].offset).Ok?
    ensures l.down[0].ResumeOk? ==> l.c.st.tx.Rewind(l.down[0].recvOffset).Ok?
    ensures var w := ClientHeard(l.c.st.tx, l.down[0]);
            w.Pending() <= w.capacity && Ordered(w.acked, Notes(l.down[1..]))
  {
    DownHead(l);
    HonestNotesAccepted(UpLane(l));
    assert UpLane(l).notes[1..] == Notes(l.down[1..]);
  }

  /** In order, the client obeys every note, and the gap it reports fits the window. */
  lemma ClientObeys(l: Link)
    requires ClientHasFrame(l) && Ordered(ClientTx(l).acked, Notes(l.down))
    ensures l.down[0].Ack? ==> l.c.st.tx.Ack(l.down[0].offset).Ok?
    ensures l.down[0].ResumeOk? ==> l.c.st.tx.Rewind(l.down[0].recvOffset).Ok?
    ensures var w := ClientHeard(l.c.st.tx, l.down[0]);
            w.Pending() <= w.capacity && Ordered(w.acked, Notes(l.down[1..]))
  {
    if l.down[0].Ack? || l.down[0].ResumeOk? { ClientObeysNote(l); } else { DownRest(l); }
  }

  lemma HelperObeys(l: Link)
    requires HelperHasFrame(l) && Ordered(HelperTx(l).acked, Notes(l.up))
    ensures l.up[0].Ack? ==> l.h.h.up.tx.Ack(l.up[0].offset).Ok?
    ensures l.up[0].Resume? ==> l.h.h.up.tx.Rewind(l.up[0].recvOffset).Ok?
    ensures var w := HelperHeard(l.h.h.up.tx, l.up[0]);
            w.Valid() && w.Pending() <= w.capacity && Ordered(w.acked, Notes(l.up[1..]))
  {
    if l.up[0].Ack? || l.up[0].Resume? {
      UpHead(l);
      HonestNotesAccepted(DownLane(l));
      assert DownLane(l).notes[1..] == Notes(l.up[1..]);
    } else {
      UpRest(l);
    }
  }

  // ---- Event by event ----

  lemma CommandOrder(l: Link, cmd: C.Command)
    requires Orderly(l) && CanHappen(l, Command(cmd))
    ensures OrderedLanes(Next(l, Command(cmd)))
  {
    var o := if l.online then C.OnlineOutcome(l.c.st, cmd) else C.OfflineOutcome(l.c.st, cmd);
    CommandEmits(l.c.st, cmd, l.online);
    NoNotesInEmits(o.out);
    ClientSays(l, o.out, |ClientGot(l)|);
  }

  lemma OpensOrder(l: Link, addr: TargetAddr)
    requires Orderly(l) && CanHappen(l, ClientOpens(addr))
    ensures OrderedLanes(Next(l, ClientOpens(addr)))
  {
    OpenCarriesNothing(l.id, addr);
    ClientSays(l, [Open(l.id, addr)], |ClientGot(l)|);
  }

  lemma ClientFrameOrder(l: Link, localOk: bool)
    requires Orderly(l) && CanHappen(l, ClientRecv(localOk)) && ClientHasFrame(l)
    ensures OrderedLanes(Next(l, ClientRecv(localOk)))
  {
    var o := C.FrameOutcome(l.c.st, l.down[0], localOk);
    ClientObeys(l);
    ClientReacts(l, localOk);
    ClientSays(l, o.out, |o.st.rx.got|);
  }

  lemma AskOrder(l: Link)
    requires 0 < l.window && Sound(DownLane(l)) && Ordered(HelperTx(l).acked, Notes(l.up)) && l.c.CLive?
    ensures Ordered(HelperTx(l).acked, Notes(l.up + [Resume(l.id, |l.c.st.rx.got|)]))
  {
    var f := Resume(l.id, |l.c.st.rx.got|);
    assert Notes([f]) == [RewindNote(|l.c.st.rx.got|)] by { assert [f][1..] == []; }
    ClientSays(l, [f], |l.c.st.rx.got|);
  }

  lemma HandshakeOrder(l: Link, localOk: bool)
    requires Orderly(l) && CanHappen(l, ClientRecv(localOk)) && l.down[0].HelloAck?
    ensures OrderedLanes(Next(l, ClientRecv(localOk)))
  {
    DownRest(l);
    if l.c.CLive? { AskOrder(l); }
  }

  /** Data for a stream the client does not hold is answered. */
  lemma StrangerAnsweredOrder(l: Link, localOk: bool)
    requires Orderly(l) && CanHappen(l, ClientRecv(localOk)) && !l.c.CLive?
    requires l.down[0].Data? && l.down[0].id == l.id
    ensures OrderedLanes(Next(l, ClientRecv(localOk)))
  {
    var out := [Reset(l.id, UnknownStream)];
    DownRest(l);
    NoNotesInEmits(out);
    ClientSays(l, out, |ClientGot(l)|);
  }

  lemma ClientStrangerOrder(l: Link, localOk: bool)
    requires Orderly(l) && CanHappen(l, ClientRecv(localOk)) && !l.down[0].HelloAck? && !ClientHasFrame(l)
    ensures OrderedLanes(Next(l, ClientRecv(localOk)))
  {
    if l.down[0].Data? && l.down[0].id == l.id {
      StrangerAnsweredOrder(l, localOk);
    } else {
      DownRest(l);
      NothingAdded(l.up);
    }
  }

  lemma HelperFrameOrder(l: Link, keepAll: bool, gate: Gate, linked: bool)
    requires Orderly(l) && CanHappen(l, HelperRecv(keepAll, gate, linked)) && HelperHasFrame(l)
    ensures OrderedLanes(Next(l, HelperRecv(keepAll, gate, linked)))
  {
    var o := H.OnFrame(l.h.h, l.up[0], linked);
    HelperObeys(l);
    HelperReacts(l, linked);
    HelperSays(l, o.out, |o.st.recv.got|);
  }

  lemma HelloOrder(l: Link, keepAll: bool, gate: Gate, linked: bool)
    requires Orderly(l) && CanHappen(l, HelperRecv(keepAll, gate, linked)) && l.up[0].Hello?
    ensures OrderedLanes(Next(l, HelperRecv(keepAll, gate, linked)))
  {
    var out := [HelloAck(PROTO_VERSION, l.up[0].session, keepAll)];
    UpRest(l);
    NoNotesInEmits(out);
    HelperSays(l, out, |HelperGot(l)|);
  }

  lemma HelperOpenOrder(l: Link, keepAll: bool, gate: Gate, linked: bool)
    requires Orderly(l) && CanHappen(l, HelperRecv(keepAll, gate, linked)) && !l.h.HLive? && l.up[0].Open?
    ensures OrderedLanes(Next(l, HelperRecv(keepAll, gate, linked)))
  {
    var refusal := H.Refusal(l.id, false, gate.full, gate.permitted);
    UpRest(l);
    UpPopped(l);
    NoNotesInEmits(refusal);
    HelperSays(l, refusal, |HelperGot(l)|);
  }

  lemma HelperUnknownOrder(l: Link, keepAll: bool, gate: Gate, linked: bool)
    requires Orderly(l) && CanHappen(l, HelperRecv(keepAll, gate, linked)) && !l.h.HLive?
    requires l.up[0].StreamOf() == Some(l.id) && !l.up[0].Open?
    ensures OrderedLanes(Next(l, HelperRecv(keepAll, gate, linked)))
  {
    UpRest(l);
    NoNotesInEmits(H.OnUnknown(l.up[0]));
    HelperSays(l, H.OnUnknown(l.up[0]), |HelperGot(l)|);
  }

  /** A frame of no stream changes nothing but the queue. */
  lemma HelperSkipsOrder(l: Link, keepAll: bool, gate: Gate, linked: bool)
    requires Orderly(l) && CanHappen(l, HelperRecv(keepAll, gate, linked))
    requires !l.up[0].Hello? && l.up[0].StreamOf() != Some(l.id)
    ensures OrderedLanes(Next(l, HelperRecv(keepAll, gate, linked)))
  {
    UpRest(l);
  }

  lemma HelperOtherOrder(l: Link, keepAll: bool, gate: Gate, linked: bool)
    requires Orderly(l) && CanHappen(l, HelperRecv(keepAll, gate, linked)) && !HelperHasFrame(l)
    ensures OrderedLanes(Next(l, HelperRecv(keepAll, gate, linked)))
  {
    if l.up[0].Hello? {
      HelloOrder(l, keepAll, gate, linked);
    } else if l.up[0].StreamOf() != Some(l.id) {
      HelperSkipsOrder(l, keepAll, gate, linked);
    } else if l.up[0].Open? {
      UpPopped(l);
      HelperOpenOrder(l, keepAll, gate, linked);
    } else {
      HelperUnknownOrder(l, keepAll, gate, linked);
    }
  }

  lemma TaskOrder(l: Link, t: H.TaskStep)
    requires Orderly(l) && CanHappen(l, HelperTask(t))
    ensures OrderedLanes(Next(l, HelperTask(t)))
  {
    var o := H.Task(l.id, l.h.h, t);
    HeldIsMatching(l);
    TaskEmits(l.id, l.h.h, t);
    AckNotes(o.out, |HelperGot(l)|);
    HelperSays(l, o.out, |HelperGot(l)|);
  }

  lemma FailOrder(l: Link, reset: Option<ResetCode>)
    requires Orderly(l) && CanHappen(l, HelperFails(reset))
    ensures OrderedLanes(Next(l, HelperFails(reset)))
  {
    var out := if reset.Some? then [Reset(l.id, reset.value)] else [];
    NoNotesInEmits(out);
    HelperSays(l, out, |HelperGot(l)|);
  }

  lemma ConnectOrder(l: Link, newProcess: bool, resume: bool)
    requires Orderly(l) && CanHappen(l, Connect(newProcess, resume))
    ensures OrderedLanes(Next(l, Connect(newProcess, resume)))
  {
    NoNotesInEmits([Hello(PROTO_VERSION, l.session, resume)]);
  }

  lemma DropNote(acked: nat, a: seq<Note>, m: seq<Note>, c: seq<Note>)
    requires |m| <= 1 && Ordered(acked, a + (m + c))
    ensures Ordered(acked, a + c)
  {
    if m == [] {
      assert m + c == c;
    } else {
      OrderedWithout(acked, a + (m + c), |a|);
      assert Without(a + (m + c), |a|) == a + c;
    }
  }

  lemma DropOrder(fs: seq<Frame>, k: nat, acked: nat)
    requires k < |fs| && Ordered(acked, Notes(fs))
    ensures Ordered(acked, Notes(Without(fs, k)))
  {
    PartsOf(fs, k);
    PartsWithout(fs, k);
    DropNote(acked, Notes(fs[..k]), NoteOf(fs[k]), Notes(fs[k + 1..]));
  }

  lemma ClientRecvOrder(l: Link, localOk: bool)
    requires Orderly(l) && CanHappen(l, ClientRecv(localOk))
    ensures OrderedLanes(Next(l, ClientRecv(localOk)))
  {
    if ClientHasFrame(l) {
      ClientFrameOrder(l, localOk);
    } else if l.down[0].HelloAck? {
      HandshakeOrder(l, localOk);
    } else {
      ClientStrangerOrder(l, localOk);
    }
  }

  lemma HelperRecvOrder(l: Link, keepAll: bool, gate: Gate, linked: bool)
    requires Orderly(l) && CanHappen(l, HelperRecv(keepAll, gate, linked))
    ensures OrderedLanes(Next(l, HelperRecv(keepAll, gate, linked)))
  {
    if HelperHasFrame(l) {
      HelperFrameOrder(l, keepAll, gate, linked);
    } else {
      HelperOtherOrder(l, keepAll, gate, linked);
    }
  }

  predicate OfChannel(e: Event) { e.Connect? || e.Disconnect? || Mess(e) }

  lemma ChannelOrder(l: Link, e: Event)
    requires Orderly(l) && CanHappen(l, e) && OfChannel(e) && !Repeats(e)
    ensures 0 < Next(l, e).window && OrderedLanes(Next(l, e))
  {
    match e {
      case Connect(newProcess, resume) => ConnectOrder(l, newProcess, resume);
      case DropUp(k) => DropOrder(l.up, k, HelperTx(l).acked);
      case DropDown(k) => DropOrder(l.down, k, ClientTx(l).acked);
      case Disconnect =>
    }
  }

  lemma ClientOrder(l: Link, e: Event)
    requires Orderly(l) && CanHappen(l, e) && (e.ClientOpens? || e.Command? || e.ClientRecv?)
    ensures 0 < Next(l, e).window && OrderedLanes(Next(l, e))
  {
    match e {
      case ClientOpens(addr) => OpensOrder(l, addr);
      case Command(cmd) => CommandOrder(l, cmd);
      case ClientRecv(localOk) => ClientRecvOrder(l, localOk);
    }
  }

  lemma HelperOrder(l: Link, e: Event)
    requires Orderly(l) && CanHappen(l, e) && (e.HelperRecv? || e.HelperTask? || e.HelperFails?)
    ensures 0 < Next(l, e).window && OrderedLanes(Next(l, e))
  {
    match e {
      case HelperRecv(keepAll, gate, linked) => HelperRecvOrder(l, keepAll, gate, linked);
      case HelperTask(t) => TaskOrder(l, t);
      case HelperFails(reset) => FailOrder(l, reset);
    }
  }

  lemma OrderKept(l: Link, e: Event)
    requires Orderly(l) && CanHappen(l, e) && !Repeats(e)
    ensures 0 < Next(l, e).window && OrderedLanes(Next(l, e))
  {
    if OfChannel(e) {
      ChannelOrder(l, e);
    } else if e.ClientOpens? || e.Command? || e.ClientRecv? {
      ClientOrder(l, e);
    } else {
      HelperOrder(l, e);
    }
  }

  /** Every event but a repetition keeps a link orderly. */
  lemma OrderlyKept(l: Link, e: Event)
    requires Orderly(l) && CanHappen(l, e) && !Repeats(e)
    ensures Orderly(Next(l, e))
  {
    InvKept(l, e);
    OrderKept(l, e);
  }
}
