/** What the helper brings back after a reconnection: its egress task, turn by turn, and the client taking
    what arrives. */
module LinkReturn {
  import opened Prelude
  import opened Frames
  import opened Lane
  import opened Alignment
  import opened Link
  import opened LinkOrder
  import opened LinkAlignment
  import R = LinkRecovery
  import P = LinkPhases
  import T = LinkTheorems
  import H = HelperStream
  import U = Uplink

  // ---- A quiet direction is complete ----

  /** In step, with nothing in flight and nothing unsent, the receiver has everything. */
  lemma QuietLane(l: Lane)
    requires Safe(l) && Aligned(l) && l.Queue() == [] && !l.tx.HasPending()
    ensures l.got == l.tx.hist
  {
    assert l.got == l.tx.hist[..|l.got|];
  }

  lemma QuietIsWhole(l: Link)
    requires DownInStep(l) && Items(l.down) == [] && !l.h.h.up.pc.Sending?
    requires !HelperTx(l).HasPending()
    ensures ClientGot(l) == HelperTx(l).hist
  {
    assert DownLane(l).Queue() == [];
    QuietLane(DownLane(l));
  }

  // ---- The egress task never stops short ----

  /** Something read has not been sent. */
  predicate Busy(u: U.Uplink) { u.tx.HasPending() || u.pc.Sending? || u.pc.GotBytes? }

  /** Bytes read and not yet taken for sending. */
  function Rest(u: U.Uplink): nat
    requires u.tx.Valid()
  {
    u.tx.Pending() + (if u.pc.GotBytes? then |u.pc.data| else 0)
  }

  /** How far the task is from its next look at the buffer. */
  function Turns(pc: U.Pc): nat
  {
    match pc
    case Flushing => 0
    case Sending(_) => 1
    case WaitAcked => 1
    case WaitWindow => 1
    case Reading(_) => 1
    case GotBytes(_) => 1
    case GotEof => 1
    case CheckAcked => 2
    case CheckWindow => 2
    case SendingFin => 3
    case Done => 4
    case Broken => 4
  }

  /** While something is unsent the task can move, and each move brings the end nearer. */
  lemma TaskProgresses(u: U.Uplink)
    requires U.Inv(u) && !u.owed && Busy(u)
    ensures U.CanHappen(u, U.Advance)
    ensures var v := U.Next(u, U.Advance);
            && v.tx.Valid() && v.readLog == u.readLog
            && (Rest(v) < Rest(u) || (Rest(v) == Rest(u) && Turns(v.pc) < Turns(u.pc)))
  {
    if u.pc.GotBytes? { assert u.pc.data[..|u.pc.data|] == u.pc.data; }
  }

  // ---- Until everything is there ----

  predicate OnlyItems(fs: seq<Frame>, id: StreamId)
  {
    forall i :: 0 <= i < |fs| ==> (fs[i].Data? || fs[i].Fin?) && fs[i].id == id
  }

  const TURN := HelperTask(H.Up(U.Advance))
  const TAKE := ClientRecv(true)

  /** The helper's direction is in step, and only its bytes are on their way. */
  predicate Bringing(l: Link)
  {
    Orderly(l) && l.online && l.greeted && DownInStep(l) && OnlyItems(l.down, l.id)
  }

  lemma TurnNext(l: Link)
    requires Shaped(l) && l.online && l.h.HLive? && U.CanHappen(l.h.h.up, U.Advance) && OnlyItems(l.down, l.id)
    ensures CanHappen(l, TURN)
    ensures var r := Next(l, TURN);
            && r.h.HLive? && r.h.h.up == U.Next(l.h.h.up, U.Advance) && r.c == l.c
            && r.online && r.greeted == l.greeted && r.id == l.id && r.window == l.window
            && OnlyItems(r.down, r.id)
  {
  }

  /** How far the task and the channel are from the end. */
  predicate Nearer(l: Link, r: Link)
    requires l.h.HLive? && r.h.HLive? && l.h.h.up.tx.Valid() && r.h.h.up.tx.Valid()
  {
    var u, v := l.h.h.up, r.h.h.up;
    || Rest(v) < Rest(u)
    || (Rest(v) == Rest(u) && Turns(v.pc) < Turns(u.pc))
    || (v == u && |r.down| < |l.down|)
  }

  lemma TurnBrings(l: Link) returns (r: Link)
    requires Bringing(l) && Busy(l.h.h.up)
    ensures T.Leads(l, TURN, r) && Bringing(r) && T.EgressRead(r) == T.EgressRead(l) && Nearer(l, r)
  {
    TaskProgresses(l.h.h.up);
    TurnNext(l);
    OrderlyKept(l, TURN);
    DownStaysInStep(l, TURN);
    r := Next(l, TURN);
  }

  lemma TakeNext(l: Link)
    requires Shaped(l) && l.online && l.greeted && l.c.CLive? && l.c.st.reset.None? && OnlyItems(l.down, l.id)
    requires l.down != []
    requires l.down[0].Data? ==> l.c.st.rx.Accept(l.down[0].offset, l.down[0].data).Ok?
    ensures CanHappen(l, TAKE)
    ensures var r := Next(l, TAKE);
            && r.c.CLive? && r.h == l.h && r.online && r.greeted && r.id == l.id && r.window == l.window
            && r.down == l.down[1..] && OnlyItems(r.down, r.id)
  {
  }

  lemma TakeBrings(l: Link) returns (r: Link)
    requires Bringing(l) && l.down != []
    ensures T.Leads(l, TAKE, r) && Bringing(r) && r.h == l.h && Nearer(l, r)
  {
    ClientRecvFlows(l, true);
    TakeNext(l);
    OrderlyKept(l, TAKE);
    DownStaysInStep(l, TAKE);
    r := Next(l, TAKE);
  }

  /** The events of the egress task and of the client taking frames, in some order. */
  predicate TurnsAndTakes(es: seq<Event>) { forall i :: 0 <= i < |es| ==> es[i] == TURN || es[i] == TAKE }

  lemma Extends(l: Link, e: Event, r: Link, more: seq<Event>)
    requires T.Leads(l, e, r) && (e == TURN || e == TAKE) && TurnsAndTakes(more)
    ensures TurnsAndTakes([e] + more) && T.Follow(l, [e] + more) == T.Follow(r, more)
  {
    T.Follow1(l, e, r, more);
  }

  /** From then on the task and the client alone bring everything read from the egress socket across. */
  lemma {:induction false} BringsAll(l: Link) returns (es: seq<Event>)
    requires Bringing(l)
    ensures TurnsAndTakes(es) && ClientGot(T.Follow(l, es)) == T.EgressRead(l)
    decreases Rest(l.h.h.up), Turns(l.h.h.up.pc), |l.down|
  {
    if Busy(l.h.h.up) {
      var r := TurnBrings(l);
      var more := BringsAll(r);
      Extends(l, TURN, r, more);
      es := [TURN] + more;
    } else if l.down != [] {
      var r := TakeBrings(l);
      var more := BringsAll(r);
      Extends(l, TAKE, r, more);
      es := [TAKE] + more;
    } else {
      QuietIsWhole(l);
      es := [];
    }
  }

  // ---- A task about to send an early Fin ----

  /** The helper's stream with its Fin sent, and the client's with it taken. */
  function FinSent(l: Link): Link
    requires l.h.HLive?
  {
    l.(h := HLive(l.h.h.(up := l.h.h.up.(finSent := true, pc := U.CheckAcked))), down := [Fin(l.id)])
  }

  function FinTaken(l: Link): Link
    requires l.h.HLive? && l.c.CLive?
  {
    FinSent(l).(c := CLive(l.c.st.(remoteFin := true, rx := l.c.st.rx.MarkFin())), down := [])
  }

  lemma FinPasses(l: Link)
    requires Shaped(l) && l.online && l.greeted && l.c.CLive? && l.h.HLive? && l.h.h.up.pc.SendingFin? && l.down == []
    ensures T.Leads(l, TURN, FinSent(l)) && T.Leads(FinSent(l), TAKE, FinTaken(l))
  {
    assert [] + [Fin(l.id)] == [Fin(l.id)] && [Fin(l.id)][1..] == [];
    NothingAdded(l.up);
  }

  lemma FinKeepsOrder(l: Link)
    requires Orderly(l) && BothLive(l) && T.Leads(l, TURN, FinSent(l)) && T.Leads(FinSent(l), TAKE, FinTaken(l))
    ensures Orderly(FinTaken(l))
  {
    OrderlyKept(l, TURN);
    OrderlyKept(FinSent(l), TAKE);
  }

  lemma FinTakenInStep(l: Link)
    requires 0 < l.window && BothLive(l) && HelperTx(l).cursor == |ClientGot(l)| && Safe(DownLane(FinTaken(l)))
    ensures DownInStep(FinTaken(l))
  {
    P.RestingFlowsExactly(DownLane(FinTaken(l)), FinTaken(l).h.h.up);
  }

  /** The early Fin arrives, and nothing is on its way any more. */
  lemma FinLeavesItQuiet(l: Link)
    requires Orderly(l) && l.online && l.greeted && BothLive(l) && l.h.h.up.pc.SendingFin? && l.down == []
    requires HelperTx(l).cursor == |ClientGot(l)|
    ensures Bringing(FinTaken(l))
  {
    FinPasses(l);
    FinKeepsOrder(l);
    FinTakenInStep(l);
  }

  lemma FinThenAll(l: Link) returns (es: seq<Event>)
    requires Orderly(l) && l.online && l.greeted && BothLive(l) && l.h.h.up.pc.SendingFin? && l.down == []
    requires HelperTx(l).cursor == |ClientGot(l)|
    ensures TurnsAndTakes(es) && ClientGot(T.Follow(l, es)) == T.EgressRead(l)
  {
    FinPasses(l);
    FinLeavesItQuiet(l);
    var more := BringsAll(FinTaken(l));
    Extends(FinSent(l), TAKE, FinTaken(l), more);
    Extends(l, TURN, FinSent(l), [TAKE] + more);
    es := [TURN] + ([TAKE] + more);
  }

  // ---- A task that holds a frame from beyond what the client has ----

  predicate HeldBeyond(l: Link)
    requires l.h.HLive?
  {
    l.h.h.up.pc.Sending? && l.h.h.up.pc.seg.offset > |ClientGot(l)|
  }

  /** The next frame that the client takes will leave a gap, or has left it. */
  predicate Stuck(l: Link)
  {
    && l.online && l.greeted
    && (l.c.CGone? ||
        (l.c.CLive?
         && (l.down != [] ==> l.down[0].Data? && l.down[0].id == l.id && l.down[0].offset > |ClientGot(l)|)
         && (l.down == [] ==> l.h.HLive? && HeldBeyond(l))))
  }

  lemma TurnStuck(l: Link)
    requires Shaped(l) && Stuck(l) && CanHappen(l, TURN)
    ensures Stuck(Next(l, TURN)) && ClientGot(Next(l, TURN)) == ClientGot(l)
  {
  }

  lemma TakeStuck(l: Link)
    requires Shaped(l) && Stuck(l) && CanHappen(l, TAKE)
    ensures Stuck(Next(l, TAKE)) && ClientGot(Next(l, TAKE)) == ClientGot(l)
  {
  }

  lemma {:induction false} StuckForGood(l: Link, es: seq<Event>)
    requires Stuck(l) && TurnsAndTakes(es)
    ensures ClientGot(T.Follow(l, es)) == ClientGot(l)
    decreases |es|
  {
    if es != [] {
      if Shaped(l) && CanHappen(l, es[0]) {
        if es[0] == TURN { TurnStuck(l); } else { TakeStuck(l); }
        StuckForGood(Next(l, es[0]), es[1..]);
      } else {
        StuckForGood(l, es[1..]);
      }
    }
  }

  lemma BeyondIsMissing(l: Link)
    requires Inv(l) && l.h.HLive? && HeldBeyond(l)
    ensures |ClientGot(l)| < |T.EgressRead(l)|
  {
    assert DownLane(l).held[0] == Chunk(l.h.h.up.pc.seg.offset, l.h.h.up.pc.seg.data);
    assert Matches(DownLane(l).held[0], HelperTx(l).hist);
  }

  // ---- Exactly when everything comes back ----

  /** The egress task and the client taking frames can bring everything read across. */
  ghost predicate Returns(l: Link, read: bytes)
  {
    exists es :: TurnsAndTakes(es) && ClientGot(T.Follow(l, es)) == read
  }

  lemma ResentReturnsExactly(l: Link)
    requires R.Parted(l) && R.Rewound(l).tx.Valid() && Orderly(R.Resent(l))
    ensures Returns(R.Resent(l), T.EgressRead(l)) <==> !HeldBeyond(l)
  {
    var r := R.Resent(l);
    P.ResentDownInStepExactly(l);
    if HeldBeyond(l) {
      BeyondIsMissing(l);
      forall es | TurnsAndTakes(es) ensures ClientGot(T.Follow(r, es)) != T.EgressRead(l) { StuckForGood(r, es); }
    } else if P.Calm(l) {
      var es := BringsAll(r);
    } else {
      var es := FinThenAll(r);
    }
  }

  /** Whatever was lost before: after reconnecting to the living helper, turns of its egress task and the
      client taking frames hand the client everything ever read from the egress socket, with no limit on the
      amount, if and only if the task held no frame from beyond what the client has. */
  lemma OneReconnectionReturns(l: Link)
    requires R.Parted(l)
    ensures Returns(T.Run(l, R.HANDSHAKE), T.EgressRead(l)) <==> !HeldBeyond(l)
  {
    R.HandshakeResends(l, []);
    NothingAdded(R.HANDSHAKE);
    ResentReturnsExactly(l);
  }
}
