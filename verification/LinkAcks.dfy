/** Acknowledgements arrive: on a channel that loses nothing, the sender comes to release everything the
    receiver has acknowledged, in both directions, so that its window opens again. */
module LinkAcks {
  import opened Prelude
  import opened Frames
  import opened Lane
  import opened Link
  import opened LinkOrder
  import opened LinkAlignment
  import M = Mux
  import C = Driver
  import H = HelperStream
  import U = Uplink
  import D = Downlink
  import T = LinkTheorems
  import R = LinkRecovery
  import Ret = LinkReturn

  /** A frame that makes its receiver release n bytes or more. */
  predicate Frees(f: Frame, n: nat)
  {
    || (f.Ack? && n <= f.offset)
    || (f.Resume? && n <= f.recvOffset)
    || (f.ResumeOk? && n <= f.recvOffset)
  }

  /** Everything up to n is released, or will be by a frame on its way. */
  predicate Covers(acked: nat, fs: seq<Frame>, n: nat)
  {
    n <= acked || exists i :: 0 <= i < |fs| && Frees(fs[i], n)
  }

  lemma CoversMore(acked: nat, fs: seq<Frame>, more: seq<Frame>, n: nat)
    requires Covers(acked, fs, n) || Covers(0, more, n)
    ensures Covers(acked, fs + more, n)
  {
    if exists i :: 0 <= i < |fs| && Frees(fs[i], n) {
      var i :| 0 <= i < |fs| && Frees(fs[i], n);
      assert (fs + more)[i] == fs[i];
    } else if exists i :: 0 <= i < |more| && Frees(more[i], n) {
      var i :| 0 <= i < |more| && Frees(more[i], n);
      assert (fs + more)[|fs| + i] == more[i];
    }
  }

  /** The first frame is heard. */
  lemma CoversHeard(acked: nat, fs: seq<Frame>, heard: nat, n: nat)
    requires fs != [] && Covers(acked, fs, n) && acked <= heard && (Frees(fs[0], n) ==> n <= heard)
    ensures Covers(heard, fs[1..], n)
  {
    if n > heard {
      var i :| 0 <= i < |fs| && Frees(fs[i], n);
      assert fs[1..][i - 1] == fs[i];
    }
  }

  // ---- The client's acks ----

  /** What the client has received is released at the helper, or a frame that will do it is on its way. No
      resume answer goes up. */
  predicate Acknowledged(l: Link)
    requires 0 < l.window
  {
    && (forall i :: 0 <= i < |l.up| ==> !l.up[i].ResumeOk?)
    && (BothLive(l) ==> Covers(HelperTx(l).acked, l.up, |ClientGot(l)|))
  }

  predicate NoAnswers(fs: seq<Frame>) { forall i :: 0 <= i < |fs| ==> !fs[i].ResumeOk? }

  /** The client sends out while its inbox goes from one length to another. */
  lemma ClientAcks(l: Link, l2: Link, out: seq<Frame>)
    requires 0 < l.window && Acknowledged(l) && l2.window == l.window && l2.h == l.h && (BothLive(l2) ==> BothLive(l))
    requires l2.up == l.up + out && NoAnswers(out)
    requires |ClientGot(l2)| == |ClientGot(l)| || Covers(0, out, |ClientGot(l2)|)
    ensures Acknowledged(l2)
  {
    if BothLive(l2) { CoversMore(HelperTx(l).acked, l.up, out, |ClientGot(l2)|); }
  }

  lemma DrainAnswersNone(id: StreamId, st: M.StreamState, k: nat)
    requires st.tx.Valid()
    ensures NoAnswers(M.Drain(id, st, k).1)
  {
    forall i | 0 <= i < |M.DataFrames(id, st.tx, k)| ensures M.DataFrames(id, st.tx, k)[i].Data? {
      M.FrameCountCovers(st.tx.Pending(), i);
    }
  }

  lemma CommandAcks(l: Link, cmd: C.Command)
    requires Shaped(l) && l.online && Acknowledged(l) && CanHappen(l, Command(cmd))
    ensures Acknowledged(Next(l, Command(cmd)))
  {
    T.CommandLeavesGot(l, cmd);
    match cmd {
      case LocalData(id, data) => DrainAnswersNone(id, l.c.st.(tx := l.c.st.tx.Push(data)), C.DRAIN_BATCH);
      case LocalEof(id) => DrainAnswersNone(id, l.c.st.(localFin := true), C.DRAIN_BATCH);
      case LocalClose(_) =>
    }
    ClientAcks(l, Next(l, Command(cmd)), C.OnlineOutcome(l.c.st, cmd).out);
  }

  /** New bytes are acknowledged at once. */
  lemma FrameAcks(st: M.StreamState, f: Frame, localOk: bool)
    requires st.tx.Valid() && f.StreamOf().Some?
    ensures var o := C.FrameOutcome(st, f, localOk);
            && NoAnswers(o.out)
            && (|o.st.rx.got| == |st.rx.got| || Covers(0, o.out, |o.st.rx.got|))
  {
    var o := C.FrameOutcome(st, f, localOk);
    if f.Data? && |o.st.rx.got| != |st.rx.got| {
      assert Frees(o.out[|o.out| - 1], |o.st.rx.got|);
    } else if f.ResumeOk? && st.tx.Rewind(f.recvOffset).Ok? {
      DrainAnswersNone(f.id, st.(tx := st.tx.Rewind(f.recvOffset).value), C.DRAIN_BATCH);
    }
  }

  lemma ClientFrameNext(l: Link, localOk: bool)
    requires Shaped(l) && CanHappen(l, ClientRecv(localOk)) && l.c.CLive? && l.down[0].StreamOf() == Some(l.id)
    ensures var r, o := Next(l, ClientRecv(localOk)), C.FrameOutcome(l.c.st, l.down[0], localOk);
            && r.h == l.h && r.window == l.window && r.down == l.down[1..] && r.up == l.up + o.out
            && r.c == CSettle(o)
  {
  }

  lemma ClientRecvAcks(l: Link, localOk: bool)
    requires Shaped(l) && Acknowledged(l) && CanHappen(l, ClientRecv(localOk))
    ensures Acknowledged(Next(l, ClientRecv(localOk)))
  {
    var f, l2 := l.down[0], Next(l, ClientRecv(localOk));
    if l.c.CLive? && f.StreamOf() == Some(l.id) {
      FrameAcks(l.c.st, f, localOk);
      ClientFrameNext(l, localOk);
      ClientAcks(l, l2, C.FrameOutcome(l.c.st, f, localOk).out);
    } else if BothLive(l2) && f.HelloAck? && l.resuming {
      ClientAcks(l, l2, [Resume(l.id, |l.c.st.rx.got|)]);
    }
  }

  lemma HearsNote(h: H.HStream, f: Frame)
    requires h.up.tx.Valid() && f.StreamOf().Some? && !f.ResumeOk?
    requires f.Ack? ==> h.up.tx.Ack(f.offset).Ok?
    requires f.Resume? ==> h.up.tx.Rewind(f.recvOffset).Ok?
    ensures var o := H.OnFrame(h, f, true);
            h.up.tx.acked <= o.st.up.tx.acked && forall n: nat :: Frees(f, n) ==> n <= o.st.up.tx.acked
  {
  }

  lemma HelperFrameNext(l: Link, keepAll: bool, gate: Gate)
    requires Shaped(l) && CanHappen(l, HelperRecv(keepAll, gate, true)) && l.h.HLive?
    requires l.up[0].StreamOf() == Some(l.id)
    ensures var r, o := Next(l, HelperRecv(keepAll, gate, true)), H.OnFrame(l.h.h, l.up[0], true);
            && r.c == l.c && r.window == l.window && r.up == l.up[1..] && r.down == l.down + o.out && r.h == HSettle(o)
  {
  }

  /** The helper hears the first frame. */
  lemma HelperFrameAcks(l: Link, keepAll: bool, gate: Gate)
    requires Shaped(l) && Acknowledged(l) && CanHappen(l, HelperRecv(keepAll, gate, true)) && l.h.HLive?
    requires l.up[0].StreamOf() == Some(l.id)
    requires l.up[0].Ack? ==> l.h.h.up.tx.Ack(l.up[0].offset).Ok?
    requires l.up[0].Resume? ==> l.h.h.up.tx.Rewind(l.up[0].recvOffset).Ok?
    ensures Acknowledged(Next(l, HelperRecv(keepAll, gate, true)))
  {
    HelperFrameNext(l, keepAll, gate);
    HearsNote(l.h.h, l.up[0]);
    var o := H.OnFrame(l.h.h, l.up[0], true);
    if o.live && l.c.CLive? { CoversHeard(HelperTx(l).acked, l.up, o.st.up.tx.acked, |ClientGot(l)|); }
  }

  /** A frame of no stream, or one that the helper takes without holding the stream. */
  lemma HelperOtherAcks(l: Link, keepAll: bool, gate: Gate)
    requires Shaped(l) && Acknowledged(l) && CanHappen(l, HelperRecv(keepAll, gate, true))
    requires !(l.h.HLive? && l.up[0].StreamOf() == Some(l.id))
    requires l.h.HNone? ==> ClientGot(l) == []
    requires Own(l.up, l.id) && OpenOnce(l)
    ensures Acknowledged(Next(l, HelperRecv(keepAll, gate, true)))
  {
    var r := Next(l, HelperRecv(keepAll, gate, true));
    assert r.up == l.up[1..] && r.c == l.c;
    if BothLive(r) && BothLive(l) {
      assert HelperTx(r) == HelperTx(l);
      CoversHeard(HelperTx(l).acked, l.up, HelperTx(l).acked, |ClientGot(l)|);
    }
  }

  lemma HelperRecvAcks(l: Link, keepAll: bool, gate: Gate)
    requires Orderly(l) && Acknowledged(l) && CanHappen(l, HelperRecv(keepAll, gate, true))
    ensures Acknowledged(Next(l, HelperRecv(keepAll, gate, true)))
  {
    if l.h.HLive? && l.up[0].StreamOf() == Some(l.id) {
      if l.up[0].Ack? || l.up[0].Resume? { HelperObeys(l); }
      HelperFrameAcks(l, keepAll, gate);
    } else {
      NothingReceived(l);
      HelperOtherAcks(l, keepAll, gate);
    }
  }

  lemma NothingReceived(l: Link)
    requires Inv(l)
    ensures l.h.HNone? ==> ClientGot(l) == []
    ensures Own(l.up, l.id) && OpenOnce(l)
  {
    assert Sound(DownLane(l));
  }

  lemma TaskLeavesAcked(id: StreamId, h: H.HStream, t: H.TaskStep)
    requires h.up.tx.Valid() && H.CanTask(h, t)
    ensures H.Task(id, h, t).st.up.tx.acked == h.up.tx.acked
  {
    if t.Up? { StepLeavesAcked(h.up, t.e); }
  }

  lemma StepLeavesAcked(u: U.Uplink, e: U.Event)
    requires u.tx.Valid() && U.CanHappen(u, e) && (e.Advance? || e.ReadBytes? || e.ReadEof?)
    ensures U.Next(u, e).tx.acked == u.tx.acked
  {
  }

  lemma TaskAcks(l: Link, t: H.TaskStep)
    requires Shaped(l) && Acknowledged(l) && CanHappen(l, HelperTask(t))
    ensures Acknowledged(Next(l, HelperTask(t)))
  {
    var r := Next(l, HelperTask(t));
    TaskLeavesAcked(l.id, l.h.h, t);
    assert r.up == l.up && r.c == l.c;
  }

  lemma OthersAck(l: Link, e: Event)
    requires Shaped(l) && Acknowledged(l) && CanHappen(l, e) && (e.HelperFails? || e.ClientOpens?)
    requires e.ClientOpens? ==> l.h.HNone?
    ensures Acknowledged(Next(l, e))
  {
  }

  lemma AcksKept(l: Link, e: Event)
    requires Orderly(l) && l.online && Acknowledged(l) && CanHappen(l, e) && Keeping(e)
    ensures 0 < Next(l, e).window && Acknowledged(Next(l, e))
  {
    match e {
      case Command(cmd) => CommandAcks(l, cmd);
      case ClientRecv(localOk) => ClientRecvAcks(l, localOk);
      case HelperRecv(keepAll, gate, _) => HelperRecvAcks(l, keepAll, gate);
      case HelperTask(t) => TaskAcks(l, t);
      case _ => OthersAck(l, e);
    }
  }

  // ---- The helper's acks ----

  /** What the helper has acknowledged is released at the client, or a frame that will do it is on its way. No
      resume request goes down. */
  predicate Confirmed(l: Link)
    requires 0 < l.window
  {
    && (forall i :: 0 <= i < |l.down| ==> !l.down[i].Resume?)
    && (BothLive(l) ==> Covers(ClientTx(l).acked, l.down, D.LastAck(l.h.h.down.acks)))
  }

  lemma ClientHearsNote(st: M.StreamState, f: Frame, localOk: bool)
    requires st.tx.Valid() && f.StreamOf().Some? && !f.Resume?
    requires f.Ack? ==> st.tx.Ack(f.offset).Ok?
    requires f.ResumeOk? ==> st.tx.Rewind(f.recvOffset).Ok?
    ensures var o := C.FrameOutcome(st, f, localOk);
            st.tx.acked <= o.st.tx.acked && forall n: nat :: Frees(f, n) ==> n <= o.st.tx.acked
  {
  }

  lemma ClientFrameConfirms(l: Link, localOk: bool)
    requires Shaped(l) && Confirmed(l) && CanHappen(l, ClientRecv(localOk)) && l.c.CLive?
    requires l.down[0].StreamOf() == Some(l.id)
    requires l.down[0].Ack? ==> l.c.st.tx.Ack(l.down[0].offset).Ok?
    requires l.down[0].ResumeOk? ==> l.c.st.tx.Rewind(l.down[0].recvOffset).Ok?
    ensures Confirmed(Next(l, ClientRecv(localOk)))
  {
    ClientFrameNext(l, localOk);
    ClientHearsNote(l.c.st, l.down[0], localOk);
    var o := C.FrameOutcome(l.c.st, l.down[0], localOk);
    if o.live && l.h.HLive? {
      CoversHeard(ClientTx(l).acked, l.down, o.st.tx.acked, D.LastAck(l.h.h.down.acks));
    }
  }

  lemma ClientOtherConfirms(l: Link, localOk: bool)
    requires Shaped(l) && Confirmed(l) && CanHappen(l, ClientRecv(localOk))
    requires !(l.c.CLive? && l.down[0].StreamOf() == Some(l.id)) && Own(l.down, l.id)
    ensures Confirmed(Next(l, ClientRecv(localOk)))
  {
    var r := Next(l, ClientRecv(localOk));
    assert r.down == l.down[1..] && r.h == l.h;
    if BothLive(r) {
      assert ClientTx(r) == ClientTx(l);
      CoversHeard(ClientTx(l).acked, l.down, ClientTx(l).acked, D.LastAck(l.h.h.down.acks));
    }
  }

  lemma ClientRecvConfirms(l: Link, localOk: bool)
    requires Orderly(l) && Confirmed(l) && CanHappen(l, ClientRecv(localOk))
    ensures Confirmed(Next(l, ClientRecv(localOk)))
  {
    if l.c.CLive? && l.down[0].StreamOf() == Some(l.id) {
      if l.down[0].Ack? || l.down[0].ResumeOk? { ClientObeys(l); }
      ClientFrameConfirms(l, localOk);
    } else {
      ClientOtherConfirms(l, localOk);
    }
  }

  predicate NoRequests(fs: seq<Frame>) { forall i :: 0 <= i < |fs| ==> !fs[i].Resume? }

  /** The helper sends out while its last ack goes from one offset to another. */
  lemma HelperConfirms(l: Link, l2: Link, out: seq<Frame>)
    requires 0 < l.window && Confirmed(l) && l2.window == l.window && l2.c == l.c
    requires (l2.down == l.down || l2.down == l.down + out) && NoRequests(out)
    requires BothLive(l2) ==>
               || (BothLive(l) && D.LastAck(l2.h.h.down.acks) == D.LastAck(l.h.h.down.acks))
               || (l2.down == l.down + out && Covers(0, out, D.LastAck(l2.h.h.down.acks)))
               || D.LastAck(l2.h.h.down.acks) == 0
    ensures Confirmed(l2)
  {
    if BothLive(l2) {
      var n := D.LastAck(l2.h.h.down.acks);
      if n > 0 && l2.down == l.down + out { CoversMore(ClientTx(l).acked, l.down, out, n); }
    }
  }

  lemma HelperRecvConfirms(l: Link, keepAll: bool, gate: Gate)
    requires Shaped(l) && Confirmed(l) && CanHappen(l, HelperRecv(keepAll, gate, true))
    ensures Confirmed(Next(l, HelperRecv(keepAll, gate, true)))
  {
    var r, f := Next(l, HelperRecv(keepAll, gate, true)), l.up[0];
    if l.h.HLive? && f.StreamOf() == Some(l.id) {
      HelperFrameNext(l, keepAll, gate);
      HelperConfirms(l, r, H.OnFrame(l.h.h, f, true).out);
    } else if f.Hello? {
      HelperConfirms(l, r, [HelloAck(PROTO_VERSION, f.session, keepAll)]);
    } else if f.StreamOf() == Some(l.id) {
      NothingAdded(l.down);
      HelperConfirms(l, r, if f.Open? then H.Refusal(l.id, false, gate.full, gate.permitted) else H.OnUnknown(f));
    }
  }

  /** An ack that the task has counted is an ack that it has sent. */
  lemma TaskAnnounces(id: StreamId, h: H.HStream, t: H.TaskStep)
    requires h.up.tx.Valid() && H.CanTask(h, t)
    ensures var o := H.Task(id, h, t);
            && NoRequests(o.out)
            && (D.LastAck(o.st.down.acks) == D.LastAck(h.down.acks) || Covers(0, o.out, D.LastAck(o.st.down.acks)))
  {
    var o := H.Task(id, h, t);
    if |o.st.down.acks| > |h.down.acks| {
      assert D.LastAck(o.st.down.acks) == o.st.down.delivered;
      assert Frees(o.out[0], o.st.down.delivered);
    }
  }

  lemma TaskConfirms(l: Link, t: H.TaskStep)
    requires Shaped(l) && l.online && Confirmed(l) && CanHappen(l, HelperTask(t))
    ensures Confirmed(Next(l, HelperTask(t)))
  {
    TaskAnnounces(l.id, l.h.h, t);
    HelperConfirms(l, Next(l, HelperTask(t)), H.Task(l.id, l.h.h, t).out);
  }

  lemma OthersConfirm(l: Link, e: Event)
    requires Shaped(l) && Confirmed(l) && CanHappen(l, e) && (e.HelperFails? || e.ClientOpens? || e.Command?)
    requires e.ClientOpens? ==> l.h.HNone?
    ensures Confirmed(Next(l, e))
  {
  }

  lemma ConfirmedKept(l: Link, e: Event)
    requires Orderly(l) && l.online && Confirmed(l) && CanHappen(l, e) && Keeping(e)
    ensures 0 < Next(l, e).window && Confirmed(Next(l, e))
  {
    match e {
      case ClientRecv(localOk) => ClientRecvConfirms(l, localOk);
      case HelperRecv(keepAll, gate, _) => HelperRecvConfirms(l, keepAll, gate);
      case HelperTask(t) => TaskConfirms(l, t);
      case _ => OthersConfirm(l, e);
    }
  }

  // ---- Over runs ----

  lemma {:induction false} AcksRun(l: Link, es: seq<Event>)
    requires Orderly(l) && l.online && Acknowledged(l)
    requires forall i :: 0 <= i < |es| ==> Keeping(es[i])
    ensures Acknowledged(T.Run(l, es))
    decreases |es|
  {
    if es != [] {
      if CanHappen(l, es[0]) {
        OrderlyKept(l, es[0]);
        AcksKept(l, es[0]);
        StaysOnline(l, es[0]);
        AcksRun(Next(l, es[0]), es[1..]);
      } else {
        AcksRun(l, es[1..]);
      }
    }
  }

  lemma {:induction false} ConfirmedRun(l: Link, es: seq<Event>)
    requires Orderly(l) && l.online && Confirmed(l)
    requires forall i :: 0 <= i < |es| ==> Keeping(es[i])
    ensures Confirmed(T.Run(l, es))
    decreases |es|
  {
    if es != [] {
      if CanHappen(l, es[0]) {
        OrderlyKept(l, es[0]);
        ConfirmedKept(l, es[0]);
        StaysOnline(l, es[0]);
        ConfirmedRun(Next(l, es[0]), es[1..]);
      } else {
        ConfirmedRun(l, es[1..]);
      }
    }
  }

  lemma StaysOnline(l: Link, e: Event)
    requires Shaped(l) && l.online && CanHappen(l, e) && Keeping(e)
    ensures Next(l, e).online
  {
  }

  /** No ack, request or answer of the stream is on its way. */
  predicate NoNews(fs: seq<Frame>) { forall i :: 0 <= i < |fs| ==> !fs[i].Ack? && !fs[i].Resume? && !fs[i].ResumeOk? }

  /** On a channel that loses nothing, from before the stream is opened or from a resumption on: once the
      helper has taken the client's acks, it has released exactly what the client has received; and once the
      client has taken the helper's, less than one ack's worth of what is in the egress socket is unreleased,
      and nothing when the ack timer has run out. */
  lemma AcksArrive(l: Link, es: seq<Event>)
    requires Orderly(l) && l.online && Acknowledged(l) && Confirmed(l)
    requires forall i :: 0 <= i < |es| ==> Keeping(es[i])
    ensures var r := T.Run(l, es);
            BothLive(r) ==>
              && (NoNews(r.up) ==> HelperTx(r).acked == |ClientGot(r)|)
              && (NoNews(r.down) ==>
                    && |T.EgressWritten(r)| - ClientTx(r).acked <= r.h.h.down.pending < D.ACK_BYTES
                    && ClientTx(r).acked <= |HelperGot(r)|)
  {
    AcksRun(l, es);
    ConfirmedRun(l, es);
    var r := T.Run(l, es);
    if BothLive(r) {
      T.OffsetsBracketed(r);
      assert H.Good(r.h.h);
    }
  }

  /** Both hold before the stream is opened, and right after a resumption. */
  lemma StartsAcknowledged(l: Link)
    requires Inv(l) && l.c.CNone? && NoNews(l.up) && NoNews(l.down)
    ensures Acknowledged(l) && Confirmed(l)
  {
  }

  /** Right after a resumption both hold too. */
  lemma ResentAcknowledged(l: Link)
    requires R.Parted(l)
    ensures R.Rewound(l).tx.Valid() && Orderly(R.Resent(l)) && R.Resent(l).online
    ensures Acknowledged(R.Resent(l)) && Confirmed(R.Resent(l))
  {
    R.HandshakeResends(l, []);
    DrainAnswersNone(l.id, R.Rewound(l), C.DRAIN_BATCH);
    AckedIsReceived(l);
  }

  lemma AckedIsReceived(l: Link)
    requires Inv(l) && l.h.HLive?
    ensures D.LastAck(l.h.h.down.acks) <= |HelperGot(l)|
  {
    assert H.Good(l.h.h);
  }

  /** So when everything has been sent, taken and acknowledged, the helper's window is open in full. */
  lemma WindowOpens(l: Link)
    requires Inv(l) && DownInStep(l) && Acknowledged(l) && NoNews(l.up)
    requires Items(l.down) == [] && !l.h.h.up.pc.Sending? && !HelperTx(l).HasPending()
    ensures HelperTx(l).acked == |HelperTx(l).hist| && HelperTx(l).Writable() == HelperTx(l).capacity
  {
    Ret.QuietIsWhole(l);
    T.OffsetsBracketed(l);
  }
}
