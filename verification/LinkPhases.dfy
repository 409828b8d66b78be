/** How a stream gets in step: on the channel it was opened on, and after a resumption. */
module LinkPhases {
  import opened Prelude
  import opened Frames
  import opened Lane
  import opened Alignment
  import opened Link
  import opened LinkSafety
  import opened LinkOrder
  import opened LinkAlignment
  import R = LinkRecovery
  import T = LinkTheorems
  import M = Mux
  import C = Driver
  import H = HelperStream
  import U = Uplink

  // ---- On the channel it was opened on ----

  /** Open is on its way, and nothing of this stream is ahead of it. */
  predicate OpenLeads(fs: seq<Frame>, id: StreamId)
  {
    fs != [] && (fs[0].Open? || (fs[0].StreamOf() != Some(id) && OpenLeads(fs[1..], id)))
  }

  lemma {:induction false} OpenStillLeads(fs: seq<Frame>, gs: seq<Frame>, id: StreamId)
    requires OpenLeads(fs, id)
    ensures OpenLeads(fs + gs, id)
  {
    assert (fs + gs)[0] == fs[0];
    if !fs[0].Open? {
      assert (fs + gs)[1..] == fs[1..] + gs;
      OpenStillLeads(fs[1..], gs, id);
    }
  }

  /** Frames of no stream before the Open. */
  lemma {:induction false} OpenAtTheEnd(fs: seq<Frame>, id: StreamId, addr: TargetAddr)
    requires NoneOf(fs, id)
    ensures OpenLeads(fs + [Open(id, addr)], id)
  {
    if fs != [] {
      assert (fs + [Open(id, addr)])[0] == fs[0] && (fs + [Open(id, addr)])[1..] == fs[1..] + [Open(id, addr)];
      OpenAtTheEnd(fs[1..], id, addr);
    }
  }

  /** The client holds the stream, the helper has not yet seen its Open. */
  predicate Opening(l: Link)
  {
    && 0 < l.window && l.c.CLive? && l.h.HNone? && InStep(UpLane(l))
    && OpenLeads(l.up, l.id) && NoneOf(l.down, l.id)
  }

  /** The helper refused to open the stream; no Open will ever come again. */
  predicate TurnedAway(l: Link) { l.c.CLive? && l.h.HNone? && NoOpen(l.up) }

  /** Every way a stream can stand on the channel it was opened on. */
  predicate FirstChannel(l: Link)
  {
    l.c.CNone? || Opening(l) || TurnedAway(l) || OneGone(l) || LinkInStep(l)
  }

  lemma NoItemsOfOthers(fs: seq<Frame>, id: StreamId)
    requires Own(fs, id) && NoneOf(fs, id)
    ensures Items(fs) == []
  {
    BatchMeans(fs, []);
  }

  /** A sender that has sent nothing, and whose window is new, is in step. */
  lemma NewLaneInStep(l: Lane)
    requires Safe(l) && l.held == [] && l.wire == [] && l.tx.cursor == 0
    ensures InStep(l)
  {
    assert l.Queue() == [];
  }

  lemma OpensInStep(l: Link, addr: TargetAddr)
    requires Orderly(l) && CanHappen(l, ClientOpens(addr))
    ensures Opening(Next(l, ClientOpens(addr)))
  {
    var l2 := Next(l, ClientOpens(addr));
    OpenAtTheEnd(l.up, l.id, addr);
    NextSafe(l, ClientOpens(addr));
    NoItemsOfOthers(l.up, l.id);
    OpenCarriesNothing(l.id, addr);
    ItemsAppend(l.up, [Open(l.id, addr)]);
    NewLaneInStep(UpLane(l2));
  }

  lemma OpeningCommand(l: Link, cmd: C.Command)
    requires Orderly(l) && l.online && Opening(l) && CanHappen(l, Command(cmd))
    ensures Opening(Next(l, Command(cmd))) || OneGone(Next(l, Command(cmd)))
  {
    var l2 := Next(l, Command(cmd));
    if l2.c.CLive? {
      CommandInStep(l, cmd);
      OpenStillLeads(l.up, C.OnlineOutcome(l.c.st, cmd).out, l.id);
    }
  }

  lemma OpeningClientRecv(l: Link, localOk: bool)
    requires Orderly(l) && l.online && Opening(l) && CanHappen(l, ClientRecv(localOk))
    ensures Opening(Next(l, ClientRecv(localOk))) || OneGone(Next(l, ClientRecv(localOk)))
  {
    var l2 := Next(l, ClientRecv(localOk));
    assert l.down[0].StreamOf() != Some(l.id);
    if l2.c.CLive? {
      UpAfterHandshake(l, localOk);
      OpenStillLeads(l.up, [Resume(l.id, |l.c.st.rx.got|)], l.id);
      assert forall i :: 0 <= i < |l.down[1..]| ==> l.down[1..][i] == l.down[i + 1];
    }
  }

  lemma NoneOfAppend(fs: seq<Frame>, gs: seq<Frame>, id: StreamId)
    requires NoneOf(fs, id) && NoneOf(gs, id)
    ensures NoneOf(fs + gs, id)
  {
  }

  /** The helper takes a frame that is not the Open: one of no stream, for Open leads. */
  lemma OpeningSkips(l: Link, keepAll: bool, gate: Gate)
    requires l.h.HNone? && Shaped(l) && CanHappen(l, HelperRecv(keepAll, gate, true))
    requires OpenLeads(l.up, l.id) && NoneOf(l.down, l.id) && !l.up[0].Open?
    ensures var l2 := Next(l, HelperRecv(keepAll, gate, true));
            && l2.c == l.c && l2.h.HNone? && l2.up == l.up[1..] && l2.window == l.window && l2.id == l.id
            && OpenLeads(l2.up, l.id) && NoneOf(l2.down, l.id)
  {
    if l.up[0].Hello? { NoneOfAppend(l.down, [HelloAck(PROTO_VERSION, l.up[0].session, keepAll)], l.id); }
  }

  lemma OpeningHelperRecv(l: Link, keepAll: bool, gate: Gate)
    requires Orderly(l) && l.online && Opening(l) && CanHappen(l, HelperRecv(keepAll, gate, true)) && !l.up[0].Open?
    ensures Opening(Next(l, HelperRecv(keepAll, gate, true)))
  {
    OpeningSkips(l, keepAll, gate);
    UpAfterHello(l, keepAll, gate);
  }

  /** What granting the Open makes of the two lanes. */
  lemma GrantedNext(l: Link, keepAll: bool, gate: Gate)
    requires Shaped(l) && CanHappen(l, HelperRecv(keepAll, gate, true)) && l.h.HNone? && l.c.CLive?
    requires l.up[0].Open? && l.up[0].id == l.id && Next(l, HelperRecv(keepAll, gate, true)).h.HLive?
    ensures var l2 := Next(l, HelperRecv(keepAll, gate, true));
            && BothLive(l2) && l2.h.h == H.NewHStream(l.window) && l2.down == l.down
            && UpLane(l2) == UpLane(l) && DownLane(l2) == DownLane(l).(notes := DownLane(l2).notes)
  {
    assert Items(l.up) == Items(l.up[1..]);
  }

  /** The helper grants the Open: both directions are in step from the start. */
  lemma GrantedInStep(l: Link, keepAll: bool, gate: Gate)
    requires Orderly(l) && l.online && Opening(l) && CanHappen(l, HelperRecv(keepAll, gate, true)) && l.up[0].Open?
    requires Next(l, HelperRecv(keepAll, gate, true)).h.HLive?
    ensures LinkInStep(Next(l, HelperRecv(keepAll, gate, true)))
  {
    var l2 := Next(l, HelperRecv(keepAll, gate, true));
    assert l.up[0].id == l.id by { assert Own(l.up, l.id); }
    GrantedNext(l, keepAll, gate);
    NextSafe(l, HelperRecv(keepAll, gate, true));
    NoItemsOfOthers(l.down, l.id);
    NewLaneInStep(DownLane(l2));
  }

  lemma RefusedIsTurnedAway(l: Link, keepAll: bool, gate: Gate)
    requires Orderly(l) && l.online && Opening(l) && CanHappen(l, HelperRecv(keepAll, gate, true)) && l.up[0].Open?
    requires !Next(l, HelperRecv(keepAll, gate, true)).h.HLive?
    ensures TurnedAway(Next(l, HelperRecv(keepAll, gate, true)))
  {
    UpPopped(l);
  }

  lemma OpeningStep(l: Link, e: Event)
    requires Orderly(l) && l.online && Opening(l) && CanHappen(l, e) && Keeping(e)
    ensures FirstChannel(Next(l, e))
  {
    match e {
      case Command(cmd) => OpeningCommand(l, cmd);
      case ClientRecv(localOk) => OpeningClientRecv(l, localOk);
      case HelperRecv(keepAll, gate, _) =>
        if !l.up[0].Open? {
          OpeningHelperRecv(l, keepAll, gate);
        } else if Next(l, e).h.HLive? {
          GrantedInStep(l, keepAll, gate);
        } else {
          RefusedIsTurnedAway(l, keepAll, gate);
        }
    }
  }

  lemma ClientTurnedAway(l: Link, e: Event)
    requires Orderly(l) && l.online && TurnedAway(l) && CanHappen(l, e) && (e.Command? || e.ClientRecv?)
    ensures TurnedAway(Next(l, e)) || OneGone(Next(l, e))
  {
    if e.Command? {
      CommandEmits(l.c.st, e.cmd, l.online);
    } else if l.down[0].StreamOf() == Some(l.id) {
      ClientReacts(l, e.localOk);
    }
  }

  lemma HelperTurnedAway(l: Link, keepAll: bool, gate: Gate)
    requires Shaped(l) && TurnedAway(l) && CanHappen(l, HelperRecv(keepAll, gate, true))
    ensures TurnedAway(Next(l, HelperRecv(keepAll, gate, true)))
  {
    assert !l.up[0].Open?;
    assert forall i :: 0 <= i < |l.up[1..]| ==> l.up[1..][i] == l.up[i + 1];
  }

  /** Without an Open on its way a stream the helper never held is never held. */
  lemma TurnedAwayStays(l: Link, e: Event)
    requires Orderly(l) && l.online && TurnedAway(l) && CanHappen(l, e) && Keeping(e)
    ensures TurnedAway(Next(l, e)) || OneGone(Next(l, e))
  {
    if e.HelperRecv? { HelperTurnedAway(l, e.keepAll, e.gate); } else { ClientTurnedAway(l, e); }
  }

  lemma UnopenedStays(l: Link, e: Event)
    requires Orderly(l) && l.online && l.c.CNone? && CanHappen(l, e) && Keeping(e)
    ensures e.ClientOpens? || Next(l, e).c.CNone?
  {
  }

  lemma FirstChannelStep(l: Link, e: Event)
    requires Orderly(l) && l.online && FirstChannel(l) && CanHappen(l, e) && Keeping(e)
    ensures Next(l, e).online && FirstChannel(Next(l, e))
  {
    if l.c.CNone? {
      if e.ClientOpens? { OpensInStep(l, e.addr); } else { UnopenedStays(l, e); }
    } else if Opening(l) {
      OpeningStep(l, e);
    } else if TurnedAway(l) {
      TurnedAwayStays(l, e);
    } else {
      SettledStep(l, e);
    }
  }

  lemma {:induction false} FirstChannelRun(l: Link, es: seq<Event>)
    requires Orderly(l) && l.online && FirstChannel(l)
    requires forall i :: 0 <= i < |es| ==> Keeping(es[i])
    ensures Orderly(T.Run(l, es)) && FirstChannel(T.Run(l, es))
    decreases |es|
  {
    if es != [] {
      if CanHappen(l, es[0]) {
        OrderlyKept(l, es[0]);
        FirstChannelStep(l, es[0]);
        FirstChannelRun(Next(l, es[0]), es[1..]);
      } else {
        FirstChannelRun(l, es[1..]);
      }
    }
  }

  /** A data frame at the head of the channel is accepted, and a Fin finds its receiver complete. */
  predicate HeadsFit(l: Link)
    requires BothLive(l)
  {
    && (l.up != [] && l.up[0].Data? && l.up[0].id == l.id ==>
          l.h.h.recv.Accept(l.up[0].offset, l.up[0].data).Ok?)
    && (l.up != [] && l.up[0].Fin? && l.up[0].id == l.id ==> l.h.h.recv.got == l.c.st.tx.hist)
    && (l.down != [] && l.down[0].Data? && l.down[0].id == l.id ==>
          l.c.st.rx.Accept(l.down[0].offset, l.down[0].data).Ok?)
    && (l.down != [] && l.down[0].Fin? && l.down[0].id == l.id ==> l.c.st.rx.got == l.h.h.up.tx.hist)
  }

  /** From before its opening to the next disconnection a stream never shows a gap, in either direction,
      and a Fin never comes early: whatever runs in between, for as long as both sides hold the stream. */
  lemma FirstChannelNeverGaps(l: Link, es: seq<Event>)
    requires Orderly(l) && l.online && l.c.CNone?
    requires forall i :: 0 <= i < |es| ==> Keeping(es[i])
    ensures BothLive(T.Run(l, es)) ==> LinkInStep(T.Run(l, es)) && HeadsFit(T.Run(l, es))
  {
    FirstChannelRun(l, es);
    if BothLive(T.Run(l, es)) { InStepNeverGaps(T.Run(l, es)); }
  }

  // ---- After a resumption, with nothing in between ----

  /** The client's direction as the resume answer finds it, before anything is resent. */
  function Bare(l: Link): Lane
    requires l.c.CLive?
  {
    Lane(R.Rewound(l).tx, [], [], HelperGot(l), [])
  }

  lemma BareInStep(l: Link)
    requires 0 < l.window && Sound(UpLane(l)) && l.c.CLive?
    ensures R.Rewound(l).tx.Valid() && InStep(Bare(l))
  {
    R.RewoundValid(l);
    assert Bare(l).Queue() == [];
  }

  lemma ResentUpInStep(l: Link)
    requires R.Parted(l)
    ensures R.Rewound(l).tx.Valid() && InStep(UpLane(R.Resent(l)))
  {
    BareInStep(l);
    ClientDrainInStep(Bare(l), l.id, R.Rewound(l), C.DRAIN_BATCH);
    var out := M.Drain(l.id, R.Rewound(l), C.DRAIN_BATCH).1;
    assert [] + Items(out) == Items(out);
  }

  /** The egress task holds no frame from beyond what the client has, and is not about to close early. */
  predicate Calm(l: Link)
    requires 0 < l.window && l.h.HLive?
  {
    && (l.h.h.up.pc.Sending? ==> l.h.h.up.pc.seg.offset <= |ClientGot(l)|)
    && (l.h.h.up.pc.SendingFin? ==> |ClientGot(l)| == |HelperTx(l).hist|)
  }

  lemma OneChunk(c: Item, d: nat, total: nat)
    requires c.Chunk?
    ensures (Linked([c], d) <==> c.offset <= d) && d <= Reach([c], d) && FinsLast([c], d, total) && FinMark !in [c]
  {
    assert [c][1..] == [];
  }

  /** A lane with nothing on the wire and the cursor where the receiver is. */
  lemma RestingFlowsExactly(d: Lane, u: U.Uplink)
    requires Safe(d) && d.wire == [] && d.tx.cursor == |d.got| && d.tx == u.tx && d.held == TakenBy(u)
    ensures Flowing(d, u) <==> (u.pc.Sending? ==> u.pc.seg.offset <= |d.got|)
                               && (u.pc.SendingFin? ==> |d.got| == |d.tx.hist|)
  {
    assert d.Queue() == d.held;
    if u.pc.Sending? { OneChunk(d.held[0], |d.got|, |d.tx.hist|); }
  }

  lemma ResentDownInStepExactly(l: Link)
    requires R.Parted(l) && R.Rewound(l).tx.Valid() && Orderly(R.Resent(l))
    ensures Flowing(DownLane(R.Resent(l)), R.Resent(l).h.h.up) <==> Calm(l)
  {
    RestingFlowsExactly(DownLane(R.Resent(l)), R.RewoundHelper(l).up);
  }

  /** A reconnection to the living helper and its handshake put a stream in step, whatever was lost
      before, if and only if its egress task was calm. */
  lemma HandshakeSettlesExactly(l: Link)
    requires R.Parted(l)
    ensures Settled(T.Run(l, R.HANDSHAKE)) <==> Calm(l)
  {
    R.HandshakeResends(l, []);
    assert R.HANDSHAKE + [] == R.HANDSHAKE;
    ResentUpInStep(l);
    ResentDownInStepExactly(l);
  }

  // ---- After a resumption, with anything in between ----

  /** How far a resumption has come: 0 before the helper has taken the request, 1 before the client has
      taken the answer, 2 from then on. */
  predicate AtStage(l: Link, n: nat)
  {
    && l.online && BothLive(l)
    && (if n == 0 then Items(l.up) == [] && Items(l.down) == [] && HeldBy(l.h) == []
        else if n == 1 then Items(l.up) == [] && DownInStep(l)
        else LinkInStep(l))
  }

  predicate TakesRequest(l: Link, e: Event) { e.HelperRecv? && l.up != [] && l.up[0].Resume? && l.up[0].id == l.id }

  predicate TakesAnswer(l: Link, e: Event)
  {
    e.ClientRecv? && l.down != [] && l.down[0].ResumeOk? && l.down[0].id == l.id
  }

  function StageAfter(l: Link, e: Event, n: nat): nat
  {
    if n == 0 && TakesRequest(l, e) then 1 else if n == 1 && TakesAnswer(l, e) then 2 else n
  }

  /** Nothing of the stream is sent ahead of the resumption of its direction. */
  predicate Waits(l: Link, e: Event, n: nat)
    requires Shaped(l) && CanHappen(l, e)
  {
    && (n == 0 && TakesRequest(l, e) && l.h.HLive? && l.h.h.up.pc.SendingFin? ==>
          0 < l.window && |ClientGot(l)| == |HelperTx(l).hist|)
    && (n == 0 && !TakesRequest(l, e) ==>
          Items(Next(l, e).up) == [] && Items(Next(l, e).down) == [] && HeldBy(Next(l, e).h) == [])
    && (n == 1 && !TakesAnswer(l, e) ==> Items(Next(l, e).up) == [])
  }

  /** The helper obeys the request. */
  lemma RequestObeyed(l: Link, keepAll: bool, gate: Gate)
    requires Orderly(l) && AtStage(l, 0) && CanHappen(l, HelperRecv(keepAll, gate, true))
    requires TakesRequest(l, HelperRecv(keepAll, gate, true)) && Waits(l, HelperRecv(keepAll, gate, true), 0)
    ensures HelperHasFrame(l)
    ensures var o := H.OnFrame(l.h.h, l.up[0], true);
            NoItems(o.out) && Flowing(Obeyed(l, o), o.st.up) && (o.live || H.Finished(o.st))
  {
    ResumePutsDownInStep(l, true);
    T.HelperAcceptsNotes(l, true);
  }

  /** The helper's direction after it has taken the request. */
  lemma RequestFlows(l: Link, keepAll: bool, gate: Gate)
    requires Orderly(l) && AtStage(l, 0) && CanHappen(l, HelperRecv(keepAll, gate, true))
    requires TakesRequest(l, HelperRecv(keepAll, gate, true)) && Waits(l, HelperRecv(keepAll, gate, true), 0)
    requires BothLive(Next(l, HelperRecv(keepAll, gate, true)))
    ensures DownInStep(Next(l, HelperRecv(keepAll, gate, true)))
  {
    RequestObeyed(l, keepAll, gate);
    ObeyedStays(l, keepAll, gate);
  }

  lemma RequestTaken(l: Link, keepAll: bool, gate: Gate)
    requires Orderly(l) && AtStage(l, 0) && CanHappen(l, HelperRecv(keepAll, gate, true))
    requires TakesRequest(l, HelperRecv(keepAll, gate, true)) && Waits(l, HelperRecv(keepAll, gate, true), 0)
    requires BothLive(Next(l, HelperRecv(keepAll, gate, true)))
    ensures AtStage(Next(l, HelperRecv(keepAll, gate, true)), 1)
  {
    RequestFlows(l, keepAll, gate);
    assert Items(l.up) == Items(l.up[1..]);
  }

  lemma AnswerTaken(l: Link, localOk: bool)
    requires Orderly(l) && AtStage(l, 1) && CanHappen(l, ClientRecv(localOk)) && TakesAnswer(l, ClientRecv(localOk))
    requires BothLive(Next(l, ClientRecv(localOk)))
    ensures AtStage(Next(l, ClientRecv(localOk)), 2)
  {
    var e := ClientRecv(localOk);
    NextSafe(l, e);
    DownStaysInStep(l, e);
    ResumePutsUpInStep(l, localOk);
    ReactedNext(l, localOk);
    InStepBut(Reacted(l, C.FrameOutcome(l.c.st, l.down[0], localOk)), UpLane(Next(l, e)));
  }

  lemma FirstStageKept(l: Link, e: Event)
    requires Shaped(l) && AtStage(l, 0) && CanHappen(l, e) && Keeping(e) && Waits(l, e, 0) && BothLive(Next(l, e))
    requires StageAfter(l, e, 0) == 0
    ensures AtStage(Next(l, e), 0)
  {
  }

  lemma SecondStageKept(l: Link, e: Event)
    requires Orderly(l) && l.online && DownInStep(l) && CanHappen(l, e) && Keeping(e) && BothLive(Next(l, e))
    ensures DownInStep(Next(l, e))
  {
    DownStaysInStep(l, e);
    NextSafe(l, e);
  }

  lemma EarlyStageKept(l: Link, e: Event, n: nat)
    requires Orderly(l) && AtStage(l, n) && CanHappen(l, e) && Keeping(e) && Waits(l, e, n) && BothLive(Next(l, e))
    requires StageAfter(l, e, n) == n && n < 2
    ensures AtStage(Next(l, e), n)
  {
    if n == 0 { FirstStageKept(l, e); } else { SecondStageKept(l, e); }
  }

  lemma StageStep(l: Link, e: Event, n: nat)
    requires Orderly(l) && AtStage(l, n) && CanHappen(l, e) && Keeping(e) && Waits(l, e, n)
    ensures OneGone(Next(l, e)) || AtStage(Next(l, e), StageAfter(l, e, n))
  {
    GoneStaysGone(l, e);
    if BothLive(Next(l, e)) {
      if n == 0 && TakesRequest(l, e) {
        RequestTaken(l, e.keepAll, e.gate);
      } else if n == 1 && TakesAnswer(l, e) {
        AnswerTaken(l, e.localOk);
      } else if n < 2 {
        EarlyStageKept(l, e, n);
      } else {
        SettledStep(l, e);
      }
    }
  }

  /** Along the run nothing is sent ahead of its resumption. */
  predicate WaitingRun(l: Link, es: seq<Event>, n: nat)
    requires Inv(l)
    decreases |es|
  {
    if es == [] then true
    else if !CanHappen(l, es[0]) then WaitingRun(l, es[1..], n)
    else
      InvKept(l, es[0]);
      Keeping(es[0]) && Waits(l, es[0], n) && WaitingRun(Next(l, es[0]), es[1..], StageAfter(l, es[0], n))
  }

  function StageRun(l: Link, es: seq<Event>, n: nat): nat
    requires Inv(l)
    decreases |es|
  {
    if es == [] then n
    else if !CanHappen(l, es[0]) then StageRun(l, es[1..], n)
    else
      InvKept(l, es[0]);
      StageRun(Next(l, es[0]), es[1..], StageAfter(l, es[0], n))
  }

  lemma {:induction false} GoneRun(l: Link, es: seq<Event>)
    requires Inv(l) && OneGone(l)
    ensures OneGone(T.Run(l, es))
    decreases |es|
  {
    if es != [] {
      if CanHappen(l, es[0]) {
        InvKept(l, es[0]);
        GoneStaysGone(l, es[0]);
        GoneRun(Next(l, es[0]), es[1..]);
      } else {
        GoneRun(l, es[1..]);
      }
    }
  }

  lemma {:induction false} StagesRun(l: Link, es: seq<Event>, n: nat)
    requires Orderly(l) && AtStage(l, n) && WaitingRun(l, es, n)
    ensures OneGone(T.Run(l, es)) || AtStage(T.Run(l, es), StageRun(l, es, n))
    decreases |es|
  {
    if es != [] {
      if CanHappen(l, es[0]) {
        OrderlyKept(l, es[0]);
        StageStep(l, es[0], n);
        if OneGone(Next(l, es[0])) {
          GoneRun(Next(l, es[0]), es[1..]);
        } else {
          StagesRun(Next(l, es[0]), es[1..], StageAfter(l, es[0], n));
        }
      } else {
        StagesRun(l, es[1..], n);
      }
    }
  }

  /** Reconnecting, in any interleaving: once the request and the answer have both been taken, with
      nothing of the stream sent before them on the channel, the stream is in step, or was given up. */
  lemma ResumptionSettles(l: Link, es: seq<Event>)
    requires R.Parted(l) && !l.h.h.up.pc.Sending?
    ensures T.Leads(l, Connect(false, true), R.Connected(l))
    ensures Orderly(R.Connected(l)) && AtStage(R.Connected(l), 0)
    ensures WaitingRun(R.Connected(l), es, 0) && StageRun(R.Connected(l), es, 0) == 2 ==>
              Settled(T.Run(R.Connected(l), es))
  {
    var r := R.Connected(l);
    R.Greets(l);
    OrderlyKept(l, Connect(false, true));
    assert Items(r.up) == [] by { NoItemsNow(r.up); }
    if WaitingRun(r, es, 0) { StagesRun(r, es, 0); }
  }
}
