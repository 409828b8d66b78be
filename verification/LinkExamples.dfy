/** Concrete runs of one stream, from before it exists, in which the promises that the code does not
    make are broken. */
module LinkExamples {
  import opened Prelude
  import opened Window
  import opened Frames
  import opened Link
  import opened LinkTheorems
  import opened LinkRecovery
  import W = LinkWritten
  import M = Mux
  import C = Driver
  import H = HelperStream
  import D = Downlink

  // ---- A stream is opened ----

  const TARGET := V4([127, 0, 0, 1], 80)
  const HELLO := Hello(PROTO_VERSION, [], false)
  const HELLO_AGAIN := Hello(PROTO_VERSION, [], true)
  const FIRST := HelperRecv(false, GRANTED, true)

  function Nothing(): Link { NewLink(1, 8, []) }

  /** Both sides hold the stream and nothing has been written. */
  function Open0(): Link
  {
    Link(1, 8, [], CLive(M.NewStream(8)), HLive(H.NewHStream(8)), [], [], true, true, false)
  }

  function Hailed(): Link { Nothing().(online := true, up := [HELLO]) }

  function Replied0(): Link { Nothing().(online := true, down := [HelloAck(PROTO_VERSION, [], false)]) }

  function Ready(): Link { Nothing().(online := true, greeted := true) }

  function Asked(): Link { Ready().(c := CLive(M.NewStream(8)), up := [Open(1, TARGET)]) }

  const OPENING_1 := [Connect(true, false), FIRST, ClientRecv(true)]
  const OPENING_2 := [ClientOpens(TARGET), FIRST]
  const OPENING := OPENING_1 + OPENING_2

  lemma ChannelOpens()
    ensures Follow(Nothing(), OPENING_1) == Ready()
  {
    assert [HELLO][1..] == [] && [HelloAck(PROTO_VERSION, [], false)][1..] == [];
    assert [] + [HelloAck(PROTO_VERSION, [], false)] == [HelloAck(PROTO_VERSION, [], false)];
    assert Leads(Nothing(), Connect(true, false), Hailed());
    assert Leads(Hailed(), FIRST, Replied0());
    assert Leads(Replied0(), ClientRecv(true), Ready());
    Follow3(Nothing(), Connect(true, false), Hailed(), FIRST, Replied0(), ClientRecv(true), Ready());
  }

  lemma StreamOpens()
    ensures Follow(Ready(), OPENING_2) == Open0()
  {
    var open := Open(1, TARGET);
    assert [] + [open] == [open] && [open][1..] == [];
    assert Leads(Ready(), ClientOpens(TARGET), Asked());
    assert Leads(Asked(), FIRST, Open0());
    Follow2(Ready(), ClientOpens(TARGET), Asked(), FIRST, Open0());
  }

  /** Whatever follows the opening. */
  lemma AfterOpening(es: seq<Event>)
    ensures Run(Nothing(), OPENING + es) == Follow(Open0(), es)
  {
    ChannelOpens();
    StreamOpens();
    FollowTwice(Nothing(), OPENING_1, OPENING_2);
    FollowTwice(Nothing(), OPENING, es);
    NewLinkInv(1, 8, []);
    RunFollows(Nothing(), OPENING + es);
  }

  // ---- A byte is written ----

  function Wrote(st: M.StreamState, b: byte): M.StreamState
  {
    st.(tx := st.tx.(hist := st.tx.hist + [b], cursor := |st.tx.hist| + 1))
  }

  /** A byte on a stream with nothing pending leaves at once. */
  lemma OneByte(st: M.StreamState, id: StreamId, b: byte)
    requires st.tx.Valid() && !st.tx.HasPending() && 0 < st.tx.Writable() && !st.localFin
    ensures C.OnlineOutcome(st, C.LocalData(id, [b]))
            == C.Outcome(Wrote(st, b), true, [Data(id, |st.tx.hist|, [b])])
  {
    var pushed := st.tx.Push([b]);
    assert [b][..1] == [b];
    assert pushed.Pending() == 1 && M.FrameCount(1) == 1;
    assert pushed.hist[|st.tx.hist|..|st.tx.hist| + 1] == [b];
    assert M.DataFrames(id, pushed, C.DRAIN_BATCH) == [M.FrameAt(id, pushed, 0)];
  }

  function Seven(): M.StreamState { Wrote(M.NewStream(8), 7) }

  const WRITE7 := Command(C.LocalData(1, [7]))

  function Sent7(): Link { Open0().(c := CLive(Seven()), up := [Data(1, 0, [7])]) }

  lemma Writes7()
    ensures Leads(Open0(), WRITE7, Sent7())
  {
    OneByte(M.NewStream(8), 1, 7);
    assert [] + [Data(1, 0, [7])] == [Data(1, 0, [7])];
  }

  // ---- Released, but not written ----

  /** The helper has accepted the byte, its task has not yet written it. */
  function Accepted7(): H.HStream
  {
    H.NewHStream(8).(recv := Inbox([7], None), queue := [D.Write([7], 1)])
  }

  function Queued7(): Link { Open0().(c := CLive(Seven()), h := HLive(Accepted7())) }

  lemma Accepts7(linked: bool)
    requires linked
    ensures H.OnFrame(H.NewHStream(8), Data(1, 0, [7]), linked) == H.Outcome(Accepted7(), true, [])
  {
    var seven: bytes := [7];
    assert seven[0..] == seven && [] + seven == seven && [] + [D.Write(seven, 1)] == [D.Write(seven, 1)];
  }

  lemma Queues7()
    ensures Leads(Sent7(), DELIVER, Queued7())
  {
    Accepts7(true);
    assert [Data(1, 0, [7])][1..] == [];
    NothingAdded(Open0().down);
  }

  const TO_QUEUED7 := [WRITE7, DELIVER, Disconnect]

  lemma ReachesQueued7()
    ensures Run(Nothing(), OPENING + TO_QUEUED7) == Queued7().(online := false)
  {
    Writes7();
    Queues7();
    assert Leads(Queued7(), Disconnect, Queued7().(online := false));
    Follow3(Open0(), WRITE7, Sent7(), DELIVER, Queued7(), Disconnect, Queued7().(online := false));
    AfterOpening(TO_QUEUED7);
  }

  lemma AnswerReleases(l: Link, es: seq<Event>)
    requires Orderly(l) && NoRepeats(es) && Run(l, es) == Queued7().(online := false)
    ensures var r := Run(l, es + HANDSHAKE); 0 < r.window && ClientTx(r).acked > |EgressWritten(r)|
  {
    OrderlyRun(l, es);
    RunTwice(l, es, HANDSHAKE);
    W.ReconnectionReleasesExactly(Run(l, es));
    assert D.Total([D.Write([7], 1)]) == [7] + D.Total([]);
  }

  lemma NothingRepeated()
    ensures NoRepeats(OPENING + TO_QUEUED7)
  {
  }

  /** A run after which the client has released a byte that was never written to the egress socket. */
  lemma ReleasedUnwritten()
    ensures var l := Run(Nothing(), OPENING + TO_QUEUED7 + HANDSHAKE);
            0 < l.window && ClientTx(l).acked > |EgressWritten(l)|
  {
    NewLinkInv(1, 8, []);
    ReachesQueued7();
    NothingRepeated();
    AnswerReleases(Nothing(), OPENING + TO_QUEUED7);
  }

  // ---- Sent before the resumption is heard ----

  /** The byte was lost with its channel, the client has reconnected and not yet heard the answer. */
  function Parted7(): Link { Open0().(c := CLive(Seven()), online := false) }

  function Hailing7(): Link { Parted7().(online := true, greeted := false, resuming := true, up := [HELLO_AGAIN]) }

  function Lost7(): Link { Hailing7().(up := [], down := [HelloAck(PROTO_VERSION, [], true)]) }

  const TO_LOST7 := [WRITE7, Disconnect] + [Connect(false, true), DELIVER]

  lemma ReachesLost7()
    ensures Follow(Open0(), TO_LOST7) == Lost7()
  {
    var ack := HelloAck(PROTO_VERSION, [], true);
    Writes7();
    assert Leads(Sent7(), Disconnect, Parted7());
    assert Leads(Parted7(), Connect(false, true), Hailing7());
    assert [HELLO_AGAIN][1..] == [] && [] + [ack] == [ack];
    assert Leads(Hailing7(), DELIVER, Lost7());
    Follow2(Open0(), WRITE7, Sent7(), Disconnect, Parted7());
    Follow2(Parted7(), Connect(false, true), Hailing7(), DELIVER, Lost7());
    FollowTwice(Open0(), [WRITE7, Disconnect], [Connect(false, true), DELIVER]);
  }

  const WRITE8 := Command(C.LocalData(1, [8]))

  function Sent8(): Link { Lost7().(c := CLive(Wrote(Seven(), 8)), up := [Data(1, 1, [8])]) }

  function Given8(): Link
  {
    Sent8().(up := [], h := HGone(H.NewHStream(8)), down := Lost7().down + [Reset(1, Internal)])
  }

  lemma Gaps8()
    ensures Leads(Lost7(), WRITE8, Sent8()) && Leads(Sent8(), DELIVER, Given8())
  {
    OneByte(Seven(), 1, 8);
    assert [] + [Data(1, 1, [8])] == [Data(1, 1, [8])] && [Data(1, 1, [8])][1..] == [];
    assert H.OnFrame(H.NewHStream(8), Data(1, 1, [8]), true)
           == H.Outcome(H.NewHStream(8), false, [Reset(1, Internal)]);
  }

  /** A second byte, sent at once, reaches the helper ahead of the first, and costs the stream. */
  lemma EarlyDataCostsTheStream()
    ensures var l := Run(Nothing(), OPENING + (TO_LOST7 + [WRITE8, DELIVER]));
            && l.h.HGone? && HelperGot(l) == [] && l.c.CLive? && l.c.st.tx.hist == [7, 8]
            && |l.down| == 2 && l.down[1] == Reset(1, Internal)
  {
    ReachesLost7();
    Gaps8();
    Follow2(Lost7(), WRITE8, Sent8(), DELIVER, Given8());
    FollowTwice(Open0(), TO_LOST7, [WRITE8, DELIVER]);
    AfterOpening(TO_LOST7 + [WRITE8, DELIVER]);
    assert Wrote(Seven(), 8).tx.hist == [7, 8];
  }

  const CLOSE := Command(C.LocalEof(1))

  function Closing7(): M.StreamState { Seven().(localFin := true, tx := Seven().tx.(fin := true)) }

  lemma CloseIsFin(st: M.StreamState, id: StreamId)
    requires st.tx.Valid() && !st.tx.HasPending() && !st.tx.fin
    ensures C.OnlineOutcome(st, C.LocalEof(id))
            == C.Outcome(st.(localFin := true, tx := st.tx.(fin := true)), true, [Fin(id)])
  {
    assert M.FrameCount(0) == 0;
    assert M.DataFrames(id, st.tx, C.DRAIN_BATCH) == [] && [] + [Fin(id)] == [Fin(id)];
  }

  function SentFin(): Link { Lost7().(c := CLive(Closing7()), up := [Fin(1)]) }

  function ClosedShort(): Link
  {
    var h := H.NewHStream(8).(ingressFin := true, recv := NEW_INBOX.MarkFin(), queue := [D.Shutdown]);
    SentFin().(up := [], h := HLive(h))
  }

  lemma ClosesShort()
    ensures Leads(Lost7(), CLOSE, SentFin()) && Leads(SentFin(), DELIVER, ClosedShort())
  {
    CloseIsFin(Seven(), 1);
    assert [] + [Fin(1)] == [Fin(1)] && [Fin(1)][1..] == [] && [] + [D.Shutdown] == [D.Shutdown];
    NothingAdded(Lost7().down);
  }

  /** The end of input, sent at once, is taken for the end of a stream that lacks its only byte. */
  lemma EarlyFinClosesShort()
    ensures var l := Run(Nothing(), OPENING + (TO_LOST7 + [CLOSE, DELIVER]));
            l.h.HLive? && l.h.h.ingressFin && HelperGot(l) == [] && l.c.CLive? && l.c.st.tx.hist == [7]
  {
    ReachesLost7();
    ClosesShort();
    Follow2(Lost7(), CLOSE, SentFin(), DELIVER, ClosedShort());
    FollowTwice(Open0(), TO_LOST7, [CLOSE, DELIVER]);
    AfterOpening(TO_LOST7 + [CLOSE, DELIVER]);
    assert Seven().tx.hist == [7];
  }
}
