/** Which bytes the client may have released: written to the egress socket, or only accepted. */
module LinkWritten {
  import opened Prelude
  import opened Frames
  import opened Window
  import opened Lane
  import opened Link
  import opened LinkSafety
  import opened LinkTheorems
  import R = LinkRecovery
  import M = Mux
  import C = Driver
  import H = HelperStream
  import D = Downlink

  /** The client has released nothing, and will be told to release nothing, that is not in the socket. */
  predicate WrittenOnly(l: Link)
    requires 0 < l.window
  {
    ClientTx(l).acked <= |EgressWritten(l)| && NotesBounded(Notes(l.down), |EgressWritten(l)|)
  }

  /** A resume request is taken only when everything accepted has been written. */
  predicate Patient(l: Link, e: Event)
    requires Shaped(l) && CanHappen(l, e)
  {
    e.HelperRecv? && l.h.HLive? && l.up[0].Resume? && l.up[0].id == l.id ==> D.Total(l.h.h.queue) == []
  }

  /** More frames from the helper, none claiming more than is written by then. */
  lemma Tells(l: Link, l2: Link, fs: seq<Frame>)
    requires 0 < l.window && WrittenOnly(l) && l2.window == l.window
    requires ClientTx(l2).acked == ClientTx(l).acked && EgressWritten(l) <= EgressWritten(l2)
    requires l2.down == l.down || l2.down == l.down + fs
    requires NotesBounded(Notes(fs), |EgressWritten(l2)|)
    ensures WrittenOnly(l2)
  {
    NotesAppend(l.down, fs);
  }

  lemma NothingTold(fs: seq<Frame>, bound: nat)
    requires NoNotes(fs)
    ensures NotesBounded(Notes(fs), bound)
  {
    NoNotesInEmits(fs);
  }

  lemma DownRestBounded(l: Link)
    requires 0 < l.window && WrittenOnly(l) && l.down != []
    ensures NotesBounded(Notes(l.down[1..]), |EgressWritten(l)|)
    ensures NoteOf(l.down[0]) != [] ==> NoteOf(l.down[0])[0].offset <= |EgressWritten(l)|
  {
    assert Notes(l.down)[|NoteOf(l.down[0])|..] == Notes(l.down[1..]);
  }

  lemma AckedAfter(st: M.StreamState, f: Frame, localOk: bool)
    requires st.tx.Valid() && f.StreamOf().Some?
    ensures C.FrameOutcome(st, f, localOk).st.tx.acked == ClientHeard(st.tx, f).acked
  {
  }

  lemma ClientFrameNext(l: Link, localOk: bool)
    requires Shaped(l) && CanHappen(l, ClientRecv(localOk)) && ClientHasFrame(l)
    ensures var r := Next(l, ClientRecv(localOk));
            && r.h == l.h && r.window == l.window && r.down == l.down[1..]
            && ClientTx(r) == C.FrameOutcome(l.c.st, l.down[0], localOk).st.tx
  {
  }

  lemma HeardBounded(w: Window, f: Frame, bound: nat)
    requires w.Valid() && w.acked <= bound && (NoteOf(f) != [] ==> NoteOf(f)[0].offset <= bound)
    ensures ClientHeard(w, f).acked <= bound
  {
  }

  /** What the client hears never makes it release more than it is told. */
  lemma ClientFrameKeepsWritten(l: Link, localOk: bool)
    requires Inv(l) && WrittenOnly(l) && CanHappen(l, ClientRecv(localOk)) && ClientHasFrame(l)
    ensures WrittenOnly(Next(l, ClientRecv(localOk)))
  {
    DownRestBounded(l);
    HeardBounded(l.c.st.tx, l.down[0], |EgressWritten(l)|);
    ClientFrameNext(l, localOk);
    AckedAfter(l.c.st, l.down[0], localOk);
  }

  lemma ClientOtherKeepsWritten(l: Link, localOk: bool)
    requires Inv(l) && WrittenOnly(l) && CanHappen(l, ClientRecv(localOk)) && !ClientHasFrame(l)
    ensures WrittenOnly(Next(l, ClientRecv(localOk)))
  {
    DownRestBounded(l);
  }

  lemma CommandKeepsWritten(l: Link, cmd: C.Command)
    requires Inv(l) && WrittenOnly(l) && CanHappen(l, Command(cmd))
    ensures WrittenOnly(Next(l, Command(cmd)))
  {
    CommandEmits(l.c.st, cmd, l.online);
  }

  /** Only a resume request is answered with an offset. */
  lemma AnswerOf(h: H.HStream, f: Frame, linked: bool)
    requires h.up.tx.Valid() && f.StreamOf().Some? && !f.Open?
    ensures var o := H.OnFrame(h, f, linked);
            o.st.down == h.down && (NoNotes(o.out) || (f.Resume? && o.out == [ResumeOk(f.id, |h.recv.got|)]))
  {
  }

  /** The helper's answer to a frame names no byte that is still queued. */
  lemma AnswerBounded(h: H.HStream, f: Frame, linked: bool)
    requires H.Good(h) && f.StreamOf().Some? && !f.Open? && (f.Resume? ==> D.Total(h.queue) == [])
    ensures var o := H.OnFrame(h, f, linked); NotesBounded(Notes(o.out), |h.down.written|) && o.st.down == h.down
  {
    AnswerOf(h, f, linked);
    H.AnswerNamesWrittenExactly(h);
    var out := H.OnFrame(h, f, linked).out;
    if NoNotes(out) { NothingTold(out, |h.down.written|); } else { assert out[1..] == []; }
  }

  lemma HelperFrameKeepsWritten(l: Link, keepAll: bool, gate: Gate, linked: bool)
    requires Inv(l) && WrittenOnly(l) && CanHappen(l, HelperRecv(keepAll, gate, linked)) && HelperHasFrame(l)
    requires Patient(l, HelperRecv(keepAll, gate, linked))
    ensures WrittenOnly(Next(l, HelperRecv(keepAll, gate, linked)))
  {
    AnswerBounded(l.h.h, l.up[0], linked);
    Tells(l, Next(l, HelperRecv(keepAll, gate, linked)), H.OnFrame(l.h.h, l.up[0], linked).out);
  }

  lemma HelloKeepsWritten(l: Link, keepAll: bool, gate: Gate, linked: bool)
    requires Inv(l) && WrittenOnly(l) && CanHappen(l, HelperRecv(keepAll, gate, linked)) && l.up[0].Hello?
    ensures WrittenOnly(Next(l, HelperRecv(keepAll, gate, linked)))
  {
    var out := [HelloAck(PROTO_VERSION, l.up[0].session, keepAll)];
    NothingTold(out, |EgressWritten(l)|);
    Tells(l, Next(l, HelperRecv(keepAll, gate, linked)), out);
  }

  /** An Open comes only before the helper ever held the stream, when nothing is written either way. */
  lemma OpenKeepsWritten(l: Link, keepAll: bool, gate: Gate, linked: bool)
    requires Inv(l) && WrittenOnly(l) && CanHappen(l, HelperRecv(keepAll, gate, linked))
    requires l.up[0].Open? && l.up[0].id == l.id && !l.h.HLive?
    ensures WrittenOnly(Next(l, HelperRecv(keepAll, gate, linked)))
  {
    var refusal := H.Refusal(l.id, false, gate.full, gate.permitted);
    UpPopped(l);
    NothingTold(refusal, |EgressWritten(l)|);
    Tells(l, Next(l, HelperRecv(keepAll, gate, linked)), refusal);
  }

  lemma UnknownKeepsWritten(l: Link, keepAll: bool, gate: Gate, linked: bool)
    requires Inv(l) && WrittenOnly(l) && CanHappen(l, HelperRecv(keepAll, gate, linked))
    requires l.up[0].StreamOf() == Some(l.id) && !l.up[0].Open? && !l.h.HLive?
    ensures WrittenOnly(Next(l, HelperRecv(keepAll, gate, linked)))
  {
    NothingTold(H.OnUnknown(l.up[0]), |EgressWritten(l)|);
    Tells(l, Next(l, HelperRecv(keepAll, gate, linked)), H.OnUnknown(l.up[0]));
  }

  /** A frame for a stream the helper does not hold, or for none. */
  lemma HelperOtherKeepsWritten(l: Link, keepAll: bool, gate: Gate, linked: bool)
    requires Inv(l) && WrittenOnly(l) && CanHappen(l, HelperRecv(keepAll, gate, linked))
    requires !l.up[0].Hello? && !HelperHasFrame(l)
    ensures WrittenOnly(Next(l, HelperRecv(keepAll, gate, linked)))
  {
    if l.up[0].StreamOf() == Some(l.id) {
      UpPopped(l);
      if l.up[0].Open? {
        OpenKeepsWritten(l, keepAll, gate, linked);
      } else {
        UnknownKeepsWritten(l, keepAll, gate, linked);
      }
    }
  }

  lemma {:induction false} AcksBounded(fs: seq<Frame>, bound: nat)
    requires forall i :: 0 <= i < |fs| ==> !fs[i].Resume? && !fs[i].ResumeOk? && (fs[i].Ack? ==> fs[i].offset <= bound)
    ensures NotesBounded(Notes(fs), bound)
  {
    AckNotes(fs, bound);
  }

  lemma TaskKeepsWritten(l: Link, t: H.TaskStep)
    requires Inv(l) && WrittenOnly(l) && CanHappen(l, HelperTask(t))
    ensures WrittenOnly(Next(l, HelperTask(t)))
  {
    var o := H.Task(l.id, l.h.h, t);
    H.TaskIsGood(l.id, l.h.h, t);
    HeldIsMatching(l);
    TaskEmits(l.id, l.h.h, t);
    AcksBounded(o.out, |o.st.down.written|);
    TaskWritesMore(l, t);
    Tells(l, Next(l, HelperTask(t)), o.out);
  }

  lemma FailKeepsWritten(l: Link, reset: Option<ResetCode>)
    requires Inv(l) && WrittenOnly(l) && CanHappen(l, HelperFails(reset))
    ensures WrittenOnly(Next(l, HelperFails(reset)))
  {
    var out := if reset.Some? then [Reset(l.id, reset.value)] else [];
    NothingTold(out, |EgressWritten(l)|);
    Tells(l, Next(l, HelperFails(reset)), out);
  }

  lemma MessKeepsWritten(l: Link, e: Event)
    requires Inv(l) && WrittenOnly(l) && CanHappen(l, e) && Mess(e)
    ensures WrittenOnly(Next(l, e))
  {
    match e {
      case DropDown(k) => WithoutIsWithin(l.down, k);
      case RepeatDown(k, at) => CopyIsWithin(l.down, k, at);
      case _ =>
    }
  }

  lemma HelperRecvKeepsWritten(l: Link, keepAll: bool, gate: Gate, linked: bool)
    requires Inv(l) && WrittenOnly(l) && CanHappen(l, HelperRecv(keepAll, gate, linked))
    requires Patient(l, HelperRecv(keepAll, gate, linked))
    ensures WrittenOnly(Next(l, HelperRecv(keepAll, gate, linked)))
  {
    if l.up[0].Hello? {
      HelloKeepsWritten(l, keepAll, gate, linked);
    } else if HelperHasFrame(l) {
      HelperFrameKeepsWritten(l, keepAll, gate, linked);
    } else {
      HelperOtherKeepsWritten(l, keepAll, gate, linked);
    }
  }

  lemma ClientRecvKeepsWritten(l: Link, localOk: bool)
    requires Inv(l) && WrittenOnly(l) && CanHappen(l, ClientRecv(localOk))
    ensures WrittenOnly(Next(l, ClientRecv(localOk)))
  {
    if ClientHasFrame(l) { ClientFrameKeepsWritten(l, localOk); } else { ClientOtherKeepsWritten(l, localOk); }
  }

  lemma OthersKeepWritten(l: Link, e: Event)
    requires Inv(l) && WrittenOnly(l) && CanHappen(l, e)
    requires e.ClientOpens? || e.Connect? || e.Disconnect? || Mess(e)
    ensures WrittenOnly(Next(l, e))
  {
    if Mess(e) { MessKeepsWritten(l, e); }
  }

  lemma WrittenKept(l: Link, e: Event)
    requires Inv(l) && WrittenOnly(l) && CanHappen(l, e) && Patient(l, e)
    ensures 0 < Next(l, e).window && WrittenOnly(Next(l, e))
  {
    InvKept(l, e);
    match e {
      case ClientRecv(localOk) => ClientRecvKeepsWritten(l, localOk);
      case Command(cmd) => CommandKeepsWritten(l, cmd);
      case HelperRecv(keepAll, gate, linked) => HelperRecvKeepsWritten(l, keepAll, gate, linked);
      case HelperTask(t) => TaskKeepsWritten(l, t);
      case HelperFails(reset) => FailKeepsWritten(l, reset);
      case _ => OthersKeepWritten(l, e);
    }
  }

  /** Along the run, every resume request is taken with an empty queue. */
  predicate PatientRun(l: Link, es: seq<Event>)
    requires Inv(l)
    decreases |es|
  {
    if es == [] then true
    else if !CanHappen(l, es[0]) then PatientRun(l, es[1..])
    else
      InvKept(l, es[0]);
      Patient(l, es[0]) && PatientRun(Next(l, es[0]), es[1..])
  }

  lemma {:induction false} WrittenRun(l: Link, es: seq<Event>)
    requires Inv(l) && WrittenOnly(l) && PatientRun(l, es)
    ensures WrittenOnly(Run(l, es))
    decreases |es|
  {
    if es != [] {
      if CanHappen(l, es[0]) {
        InvKept(l, es[0]);
        WrittenKept(l, es[0]);
        WrittenRun(Next(l, es[0]), es[1..]);
      } else {
        WrittenRun(l, es[1..]);
      }
    }
  }

  /** In every run in which resume requests wait for the queue to be written, and whatever the channel
      does, the client releases only bytes that are in the egress socket. */
  lemma ReleasedIsWritten(id: StreamId, window: nat, session: bytes, es: seq<Event>)
    requires 0 < window && PatientRun(NewLink(id, window, session), es)
    ensures var l := Run(NewLink(id, window, session), es); ClientTx(l).acked <= |EgressWritten(l)|
  {
    WrittenRun(NewLink(id, window, session), es);
  }

  /** A reconnection releases exactly what the helper has accepted: only written bytes if and only if
      its queue was empty. */
  lemma ReconnectionReleasesExactly(l: Link)
    requires R.Parted(l)
    ensures var r := Run(l, R.HANDSHAKE);
            && 0 < r.window && ClientTx(r).acked == |HelperGot(r)| && EgressWritten(r) == EgressWritten(l)
            && (ClientTx(r).acked <= |EgressWritten(r)| <==> D.Total(l.h.h.queue) == [])
  {
    R.HandshakeResends(l, []);
    assert R.HANDSHAKE + [] == R.HANDSHAKE;
    H.AnswerNamesWrittenExactly(l.h.h);
  }
}
