/** How the end of a stream travels: a stream ends as finished only after both sides have ended, the end of
    input reaches the egress socket, and giving a stream up reaches the helper. */
module LinkClosing {
  import opened Prelude
  import opened Frames
  import opened Link
  import opened LinkSafety
  import opened LinkAlignment
  import M = Mux
  import C = Driver
  import H = HelperStream
  import T = LinkTheorems

  // ---- Finished only after the client has ended ----

  predicate FinsKnown(fs: seq<Frame>, fin: bool) { forall i :: 0 <= i < |fs| && fs[i].Fin? ==> fin }

  /** The helper has taken a Fin, or one is on its way, only after the client has sent it; and what the helper
      has taken goes on to the egress socket. */
  predicate Closes(l: Link)
    requires 0 < l.window
  {
    && FinsKnown(l.up, ClientTx(l).fin)
    && (!l.h.HNone? && l.h.h.ingressFin ==> ClientTx(l).fin)
    && (l.h.HLive? ==> H.Forwarded(l.h.h))
  }

  /** The client goes on sending, and stays closed once it is. */
  lemma ClientSends(l: Link, l2: Link, out: seq<Frame>)
    requires 0 < l.window && Closes(l) && l2.window == l.window && l2.h == l.h
    requires l2.up == l.up || l2.up == l.up + out
    requires (ClientTx(l).fin ==> ClientTx(l2).fin) && FinsKnown(out, ClientTx(l2).fin)
    ensures Closes(l2)
  {
  }

  lemma DrainClosing(id: StreamId, st: M.StreamState, k: nat)
    requires st.tx.Valid()
    ensures var (st', fs) := M.Drain(id, st, k); FinsKnown(fs, st'.tx.fin) && (st.tx.fin ==> st'.tx.fin)
  {
    forall i | 0 <= i < |M.DataFrames(id, st.tx, k)| ensures M.DataFrames(id, st.tx, k)[i].Data? {
      M.FrameCountCovers(st.tx.Pending(), i);
    }
  }

  lemma CommandClosing(st: M.StreamState, cmd: C.Command, online: bool)
    requires st.tx.Valid()
    ensures var o := if online then C.OnlineOutcome(st, cmd) else C.OfflineOutcome(st, cmd);
            FinsKnown(o.out, o.st.tx.fin) && (st.tx.fin ==> o.st.tx.fin)
  {
    match cmd {
      case LocalData(id, data) => DrainClosing(id, st.(tx := st.tx.Push(data)), C.DRAIN_BATCH);
      case LocalEof(id) => DrainClosing(id, st.(localFin := true), C.DRAIN_BATCH);
      case LocalClose(_) =>
    }
  }

  lemma FrameClosing(st: M.StreamState, f: Frame, localOk: bool)
    requires st.tx.Valid() && f.StreamOf().Some?
    ensures var o := C.FrameOutcome(st, f, localOk); FinsKnown(o.out, o.st.tx.fin) && (st.tx.fin ==> o.st.tx.fin)
  {
    if f.ResumeOk? && st.tx.Rewind(f.recvOffset).Ok? {
      DrainClosing(f.id, st.(tx := st.tx.Rewind(f.recvOffset).value), C.DRAIN_BATCH);
    }
  }

  lemma CommandCloses(l: Link, cmd: C.Command)
    requires Shaped(l) && Closes(l) && CanHappen(l, Command(cmd))
    ensures Closes(Next(l, Command(cmd)))
  {
    var o := if l.online then C.OnlineOutcome(l.c.st, cmd) else C.OfflineOutcome(l.c.st, cmd);
    CommandClosing(l.c.st, cmd, l.online);
    ClientSends(l, Next(l, Command(cmd)), o.out);
  }

  lemma OpensCloses(l: Link, addr: TargetAddr)
    requires Shaped(l) && Closes(l) && CanHappen(l, ClientOpens(addr)) && OpenOnce(l)
    ensures Closes(Next(l, ClientOpens(addr)))
  {
    ClientSends(l, Next(l, ClientOpens(addr)), [Open(l.id, addr)]);
  }

  lemma ClientRecvCloses(l: Link, localOk: bool)
    requires Shaped(l) && Closes(l) && CanHappen(l, ClientRecv(localOk))
    ensures Closes(Next(l, ClientRecv(localOk)))
  {
    var f, l2 := l.down[0], Next(l, ClientRecv(localOk));
    if f.HelloAck? {
      ClientSends(l, l2, if l.c.CLive? then [Resume(l.id, |l.c.st.rx.got|)] else []);
    } else if f.StreamOf() == Some(l.id) && l.c.CLive? {
      FrameClosing(l.c.st, f, localOk);
      ClientSends(l, l2, C.FrameOutcome(l.c.st, f, localOk).out);
    } else {
      NothingAdded(l.up);
      ClientSends(l, l2, [Reset(l.id, UnknownStream)]);
    }
  }

  lemma HelperFrameCloses(l: Link, keepAll: bool, gate: Gate, linked: bool)
    requires Shaped(l) && Closes(l) && CanHappen(l, HelperRecv(keepAll, gate, linked))
    requires l.up[0].StreamOf() == Some(l.id) && l.h.HLive?
    ensures Closes(Next(l, HelperRecv(keepAll, gate, linked)))
  {
    var l2 := Next(l, HelperRecv(keepAll, gate, linked));
    H.FrameForwards(l.h.h, l.up[0], linked);
    assert l2.up == l.up[1..] && l2.c == l.c;
  }

  lemma HelperOtherCloses(l: Link, keepAll: bool, gate: Gate, linked: bool)
    requires Shaped(l) && Closes(l) && CanHappen(l, HelperRecv(keepAll, gate, linked))
    requires !(l.up[0].StreamOf() == Some(l.id) && l.h.HLive?)
    ensures Closes(Next(l, HelperRecv(keepAll, gate, linked)))
  {
    var l2 := Next(l, HelperRecv(keepAll, gate, linked));
    H.NewIsForwarded(l.window);
    assert l2.up == l.up[1..] && l2.c == l.c;
  }

  /** The helper takes the first frame. */
  lemma HelperRecvCloses(l: Link, keepAll: bool, gate: Gate, linked: bool)
    requires Shaped(l) && Closes(l) && CanHappen(l, HelperRecv(keepAll, gate, linked))
    ensures Closes(Next(l, HelperRecv(keepAll, gate, linked)))
  {
    if l.up[0].StreamOf() == Some(l.id) && l.h.HLive? {
      HelperFrameCloses(l, keepAll, gate, linked);
    } else {
      HelperOtherCloses(l, keepAll, gate, linked);
    }
  }

  lemma HelperTaskCloses(l: Link, t: H.TaskStep)
    requires Shaped(l) && Closes(l) && CanHappen(l, HelperTask(t))
    ensures Closes(Next(l, HelperTask(t)))
  {
    H.TaskForwards(l.id, l.h.h, t);
  }

  lemma OthersClose(l: Link, e: Event)
    requires Shaped(l) && Closes(l) && CanHappen(l, e)
    requires e.HelperFails? || e.Connect? || e.Disconnect? || Mess(e)
    ensures Closes(Next(l, e))
  {
  }

  lemma ClosesKept(l: Link, e: Event)
    requires Shaped(l) && OpenOnce(l) && Closes(l) && CanHappen(l, e)
    ensures 0 < Next(l, e).window && Closes(Next(l, e))
  {
    match e {
      case ClientOpens(addr) => OpensCloses(l, addr);
      case Command(cmd) => CommandCloses(l, cmd);
      case ClientRecv(localOk) => ClientRecvCloses(l, localOk);
      case HelperRecv(keepAll, gate, linked) => HelperRecvCloses(l, keepAll, gate, linked);
      case HelperTask(t) => HelperTaskCloses(l, t);
      case _ => OthersClose(l, e);
    }
  }

  lemma {:induction false} ClosesRun(l: Link, es: seq<Event>)
    requires Inv(l) && Closes(l)
    ensures Closes(T.Run(l, es))
    decreases |es|
  {
    if es != [] {
      if CanHappen(l, es[0]) {
        InvKept(l, es[0]);
        ClosesKept(l, es[0]);
        ClosesRun(Next(l, es[0]), es[1..]);
      } else {
        ClosesRun(l, es[1..]);
      }
    }
  }

  /** In every run, whatever the channel does: a stream counts as finished at the helper only after the client
      has ended its input and sent its Fin, and while a stream is held, its egress socket is shut down for
      writing, or about to be, exactly if that Fin has been taken. */
  lemma FinishedAfterFin(id: StreamId, window: nat, session: bytes, es: seq<Event>)
    requires 0 < window
    ensures var l := T.Run(T.NewLink(id, window, session), es);
            && (!l.h.HNone? && H.Finished(l.h.h) ==> l.h.h.ingressFin && ClientTx(l).fin)
            && (l.h.HLive? && l.h.h.queue == [] ==> (l.h.h.down.shut <==> l.h.h.ingressFin))
            && (l.h.HLive? && l.h.h.down.shut ==> ClientTx(l).fin)
  {
    T.NewLinkInv(id, window, session);
    ClosesRun(T.NewLink(id, window, session), es);
    var l := T.Run(T.NewLink(id, window, session), es);
    if l.h.HLive? && l.h.h.queue == [] { H.HandledIsShut(l.h.h); }
  }

  // ---- Giving a stream up reaches the helper ----

  /** The client has given the stream up, and the helper does not hold it, and will not, or will hear of it. */
  ghost predicate Told(l: Link)
  {
    && l.c.CGone?
    && (l.h.HGone? || (l.h.HNone? && NoOpen(l.up)) || exists i :: ResetAt(l, i))
  }

  /** A Reset of this stream is on its way, behind any Open. */
  predicate ResetAt(l: Link, i: nat)
  {
    && i < |l.up| && l.up[i].Reset? && l.up[i].id == l.id
    && forall j :: i < j < |l.up| ==> !l.up[j].Open?
  }

  lemma MoreStaysTold(l: Link, l2: Link, out: seq<Frame>)
    requires Told(l) && l2.c == l.c && l2.id == l.id && (l2.h == l.h || l2.h.HGone?) && NoOpen(out)
    requires l2.up == l.up || l2.up == l.up + out
    ensures Told(l2)
  {
    if exists i :: ResetAt(l, i) {
      var i :| ResetAt(l, i);
      assert ResetAt(l2, i);
    }
  }

  lemma ClientStaysTold(l: Link, localOk: bool)
    requires Shaped(l) && Told(l) && CanHappen(l, ClientRecv(localOk))
    ensures Told(Next(l, ClientRecv(localOk)))
  {
    NothingAdded(l.up);
    MoreStaysTold(l, Next(l, ClientRecv(localOk)), [Reset(l.id, UnknownStream)]);
  }

  /** The helper takes a frame ahead of the Reset. */
  lemma AheadStaysTold(l: Link, keepAll: bool, gate: Gate, linked: bool, i: nat)
    requires Shaped(l) && Told(l) && CanHappen(l, HelperRecv(keepAll, gate, linked)) && ResetAt(l, i) && 0 < i
    ensures Told(Next(l, HelperRecv(keepAll, gate, linked)))
  {
    var l2 := Next(l, HelperRecv(keepAll, gate, linked));
    assert l2.up == l.up[1..] && l2.c == l.c && l2.id == l.id;
    OneCloser(l, l2, i);
  }

  lemma OneCloser(l: Link, l2: Link, i: nat)
    requires ResetAt(l, i) && 0 < i && l2.up == l.up[1..] && l2.id == l.id
    ensures ResetAt(l2, i - 1)
  {
  }

  /** It takes the Reset. */
  lemma ResetIsTold(l: Link, keepAll: bool, gate: Gate, linked: bool)
    requires Shaped(l) && Told(l) && CanHappen(l, HelperRecv(keepAll, gate, linked)) && ResetAt(l, 0)
    ensures Told(Next(l, HelperRecv(keepAll, gate, linked))) && !Next(l, HelperRecv(keepAll, gate, linked)).h.HLive?
  {
    assert forall j :: 0 <= j < |l.up[1..]| ==> l.up[1..][j] == l.up[j + 1];
  }

  lemma HelperStaysTold(l: Link, keepAll: bool, gate: Gate, linked: bool)
    requires Shaped(l) && OpenOnce(l) && Told(l) && CanHappen(l, HelperRecv(keepAll, gate, linked))
    ensures Told(Next(l, HelperRecv(keepAll, gate, linked)))
  {
    if exists i :: ResetAt(l, i) {
      var i :| ResetAt(l, i);
      if i == 0 { ResetIsTold(l, keepAll, gate, linked); } else { AheadStaysTold(l, keepAll, gate, linked, i); }
    } else {
      assert forall j :: 0 <= j < |l.up[1..]| ==> l.up[1..][j] == l.up[j + 1];
      HelperStays(l, HelperRecv(keepAll, gate, linked));
    }
  }

  lemma TaskStaysTold(l: Link, e: Event)
    requires Shaped(l) && Told(l) && CanHappen(l, e) && (e.HelperTask? || e.HelperFails?)
    ensures Told(Next(l, e))
  {
    if exists i :: ResetAt(l, i) {
      var i :| ResetAt(l, i);
      assert ResetAt(Next(l, e), i);
    }
  }

  lemma StaysTold(l: Link, e: Event)
    requires Shaped(l) && OpenOnce(l) && Told(l) && CanHappen(l, e) && Keeping(e)
    ensures Told(Next(l, e))
  {
    match e {
      case ClientRecv(localOk) => ClientStaysTold(l, localOk);
      case HelperRecv(keepAll, gate, linked) => HelperStaysTold(l, keepAll, gate, linked);
      case HelperTask(_) => TaskStaysTold(l, e);
      case HelperFails(_) => TaskStaysTold(l, e);
    }
  }

  lemma {:induction false} ToldRun(l: Link, es: seq<Event>)
    requires Inv(l) && Told(l) && forall i :: 0 <= i < |es| ==> Keeping(es[i])
    ensures Told(T.Run(l, es))
    decreases |es|
  {
    if es != [] {
      if CanHappen(l, es[0]) {
        InvKept(l, es[0]);
        StaysTold(l, es[0]);
        ToldRun(Next(l, es[0]), es[1..]);
      } else {
        ToldRun(l, es[1..]);
      }
    }
  }

  /** A local close, or local bytes that do not fit the window, with a channel up: the stream is given up and
      a Reset is put on its way. */
  lemma GivingUpTells(l: Link, cmd: C.Command)
    requires Shaped(l) && l.online && CanHappen(l, Command(cmd))
    requires cmd.LocalClose? || (cmd.LocalData? && |l.c.st.tx.hist| + |cmd.data| - l.c.st.tx.acked > l.c.st.tx.capacity)
    ensures Told(Next(l, Command(cmd)))
  {
    var l2 := Next(l, Command(cmd));
    assert ResetAt(l2, |l.up|);
  }

  /** So does a local endpoint that no longer takes bytes, and a gap in what the helper sends. */
  lemma DeafEndpointTells(l: Link, localOk: bool)
    requires Inv(l) && CanHappen(l, ClientRecv(localOk)) && l.c.CLive? && l.down[0].Data?
    requires l.down[0].offset > |ClientGot(l)|
             || (!localOk && l.down[0].offset + |l.down[0].data| > |ClientGot(l)|)
    ensures Told(Next(l, ClientRecv(localOk)))
  {
    assert l.down[0].id == l.id;
    assert ResetAt(Next(l, ClientRecv(localOk)), |l.up|);
  }

  /** Once everything on the channel has been taken, the helper no longer holds a stream that the client closed. */
  lemma CloseReachesHelper(l: Link, es: seq<Event>)
    requires Inv(l) && l.online && l.c.CLive? && forall i :: 0 <= i < |es| ==> Keeping(es[i])
    ensures var close := Command(C.LocalClose(l.id));
            CanHappen(l, close) && Inv(Next(l, close))
            && (T.Run(Next(l, close), es).up == [] ==> !T.Run(Next(l, close), es).h.HLive?)
  {
    var close := Command(C.LocalClose(l.id));
    InvKept(l, close);
    GivingUpTells(l, C.LocalClose(l.id));
    ToldRun(Next(l, close), es);
  }
}
