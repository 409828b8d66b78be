/** What one reconnection to a living helper brings back, when nothing else happens meanwhile. */
module LinkRecovery {
  import opened Prelude
  import opened Window
  import opened Frames
  import opened Lane
  import opened Link
  import opened Offline
  import opened Resume
  import M = Mux
  import C = Driver
  import H = HelperStream
  import T = LinkTheorems

  const GRANTED := Gate(false, true)
  const DELIVER := HelperRecv(true, GRANTED, true)

  /** Both sides hold the stream and no channel is up. */
  predicate Parted(l: Link) { Orderly(l) && l.c.CLive? && l.h.HLive? && !l.online }

  /** Greeting, answer, resume request, resume answer. */
  const HANDSHAKE := [Connect(false, true), DELIVER, ClientRecv(true), DELIVER, ClientRecv(true)]

  function Deliveries(n: nat): seq<Event> { seq(n, _ => DELIVER) }

  function Hail(l: Link): Frame { Hello(PROTO_VERSION, l.session, true) }

  function Connected(l: Link): Link
  {
    l.(online := true, greeted := false, resuming := true, up := [Hail(l)], down := [])
  }

  function Answered(l: Link): Link
  {
    Connected(l).(up := [], down := [HelloAck(PROTO_VERSION, l.session, true)])
  }

  /** After the handshake, with the client's resume request on its way. */
  function Asking(l: Link): Link
    requires l.c.CLive?
  {
    Answered(l).(greeted := true, up := [Resume(l.id, |l.c.st.rx.got|)], down := [])
  }

  lemma Greets(l: Link)
    requires Shaped(l) && !l.online
    ensures T.Leads(l, Connect(false, true), Connected(l))
  {
  }

  lemma Answers(l: Link)
    requires Shaped(l) && l.h.HLive?
    ensures T.Leads(Connected(l), DELIVER, Answered(l))
  {
    var ack := HelloAck(PROTO_VERSION, l.session, true);
    assert [Hail(l)][1..] == [] && [] + [ack] == [ack];
  }

  lemma Asks(l: Link)
    requires Shaped(l) && l.c.CLive?
    ensures T.Leads(Answered(l), ClientRecv(true), Asking(l))
  {
    var ask := Resume(l.id, |l.c.st.rx.got|);
    assert [HelloAck(PROTO_VERSION, l.session, true)][1..] == [] && [] + [ask] == [ask];
  }

  /** The helper's stream once it has taken the resume request: back at what the client has received. */
  function RewoundHelper(l: Link): H.HStream
    requires l.h.HLive?
  {
    var tx := l.h.h.up.tx.(acked := |ClientGot(l)|, cursor := |ClientGot(l)|);
    l.h.h.(up := H.Woken(l.h.h.up, tx))
  }

  function Replied(l: Link): Link
    requires l.c.CLive? && l.h.HLive?
  {
    Asking(l).(h := HLive(RewoundHelper(l)), up := [], down := [ResumeOk(l.id, |HelperGot(l)|)])
  }

  /** The client's stream as the resume answer finds it: back at what the helper has accepted. */
  function Rewound(l: Link): M.StreamState
    requires l.c.CLive?
  {
    l.c.st.(tx := l.c.st.tx.(acked := |HelperGot(l)|, cursor := |HelperGot(l)|))
  }

  /** The link once the client has obeyed the resume answer. */
  function Resent(l: Link): Link
    requires l.c.CLive? && l.h.HLive? && Rewound(l).tx.Valid()
  {
    var (st, out) := M.Drain(l.id, Rewound(l), C.DRAIN_BATCH);
    Replied(l).(c := CLive(st), up := out, down := [])
  }

  lemma RewoundValid(l: Link)
    requires 0 < l.window && Sound(UpLane(l)) && l.c.CLive?
    ensures Rewound(l).tx.Valid() && l.c.st.tx.Rewind(|HelperGot(l)|) == Ok(Rewound(l).tx)
  {
  }

  lemma RewoundHelperValid(l: Link)
    requires 0 < l.window && Sound(DownLane(l)) && l.h.HLive?
    ensures l.h.h.up.tx.Rewind(|ClientGot(l)|) == Ok(RewoundHelper(l).up.tx)
  {
  }

  lemma ResumeTaken(h: H.HStream, f: Frame)
    requires h.up.tx.Valid() && f.Resume? && h.up.tx.Rewind(f.recvOffset).Ok?
    ensures var o := H.OnFrame(h, f, true);
            && o.live && o.out == [ResumeOk(f.id, |h.recv.got|)]
            && o.st == h.(up := H.Woken(h.up, h.up.tx.Rewind(f.recvOffset).value))
  {
  }

  /** The resume request is granted. */
  lemma Replies(l: Link)
    requires Shaped(l) && l.c.CLive? && l.h.HLive?
    requires l.h.h.up.tx.Rewind(|ClientGot(l)|) == Ok(RewoundHelper(l).up.tx)
    ensures T.Leads(Asking(l), DELIVER, Replied(l))
  {
    var ask, reply := Resume(l.id, |l.c.st.rx.got|), ResumeOk(l.id, |HelperGot(l)|);
    ResumeTaken(l.h.h, ask);
    assert [ask][1..] == [] && [] + [reply] == [reply];
  }

  lemma ObeysAnswer(st: M.StreamState, f: Frame, tx: Window)
    requires st.tx.Valid() && f.ResumeOk? && st.tx.Rewind(f.recvOffset) == Ok(tx)
    ensures C.FrameOutcome(st, f, true) == C.DrainOutcome(f.id, st.(tx := tx), C.DRAIN_BATCH)
  {
  }

  /** The client rewinds and resends. */
  lemma Resends(l: Link)
    requires Shaped(l) && l.c.CLive? && l.h.HLive? && RewoundHelper(l).up.tx.Valid()
    requires Rewound(l).tx.Valid() && l.c.st.tx.Rewind(|HelperGot(l)|) == Ok(Rewound(l).tx)
    ensures T.Leads(Replied(l), ClientRecv(true), Resent(l))
  {
    var answer := ResumeOk(l.id, |HelperGot(l)|);
    ObeysAnswer(l.c.st, answer, Rewound(l).tx);
    assert [answer][1..] == [];
    var out := M.Drain(l.id, Rewound(l), C.DRAIN_BATCH).1;
    assert [] + out == out;
  }

  const TO_ASKING := [Connect(false, true), DELIVER, ClientRecv(true)]
  const TO_RESENT := [DELIVER, ClientRecv(true)]

  lemma HandshakeFollows(l: Link)
    requires Shaped(l) && !l.online && SoundLanes(l) && l.c.CLive? && l.h.HLive?
    ensures Rewound(l).tx.Valid() && T.Follow(l, HANDSHAKE) == Resent(l)
  {
    RewoundValid(l);
    RewoundHelperValid(l);
    Greets(l);
    Answers(l);
    Asks(l);
    T.Follow3(l, Connect(false, true), Connected(l), DELIVER, Answered(l), ClientRecv(true), Asking(l));
    Replies(l);
    Resends(l);
    T.Follow2(Asking(l), DELIVER, Replied(l), ClientRecv(true), Resent(l));
    T.FollowTwice(l, TO_ASKING, TO_RESENT);
    assert TO_ASKING + TO_RESENT == HANDSHAKE;
  }

  /** The whole handshake, and where it leaves the stream. */
  lemma HandshakeResends(l: Link, more: seq<Event>)
    requires Parted(l)
    ensures Rewound(l).tx.Valid() && Orderly(Resent(l))
    ensures T.Run(l, HANDSHAKE + more) == T.Run(Resent(l), more)
  {
    HandshakeFollows(l);
    T.RunFollows(l, HANDSHAKE);
    T.OrderlyRun(l, HANDSHAKE);
    T.RunTwice(l, HANDSHAKE, more);
  }

  // ---- The helper takes what was resent ----

  /** fs, carrying the history from what the helper has up to an offset, are next on the channel. */
  predicate Incoming(l: Link, fs: seq<Frame>, to: nat)
  {
    && l.online && l.c.CLive? && l.h.HLive?
    && fs <= l.up && Carries(fs, l.id, |HelperGot(l)|, to, l.c.st.tx.hist)
  }

  /** The next bytes in order, delivered. */
  lemma DataArrives(l: Link, f: Frame)
    requires Shaped(l) && l.online && l.h.HLive? && l.up != [] && l.up[0] == f
    requires f.Data? && f.id == l.id && f.offset == |HelperGot(l)| && f.data != []
    ensures CanHappen(l, DELIVER)
    ensures var r := Next(l, DELIVER);
            && r.h.HLive? && HelperGot(r) == HelperGot(l) + f.data
            && r.up == l.up[1..] && r.c == l.c && r.online && r.id == l.id && Shaped(r)
  {
    assert f.data[|HelperGot(l)| - f.offset..] == f.data;
  }

  lemma OneArrives(l: Link, fs: seq<Frame>, to: nat) returns (r: Link)
    requires Shaped(l) && Incoming(l, fs, to) && fs != []
    ensures T.Leads(l, DELIVER, r) && Incoming(r, fs[1..], to) && Shaped(r)
    ensures r.c == l.c && r.up == l.up[1..] && r.id == l.id
  {
    assert l.up[0] == fs[0];
    DataArrives(l, fs[0]);
    assert fs[1..] <= l.up[1..];
    r := Next(l, DELIVER);
  }

  lemma OneDelivery(n: nat)
    requires 0 < n
    ensures Deliveries(n) == [DELIVER] + Deliveries(n - 1)
  {
  }

  lemma {:induction false} AllArrive(l: Link, fs: seq<Frame>, to: nat) returns (r: Link)
    requires Shaped(l) && Incoming(l, fs, to)
    ensures r == T.Follow(l, Deliveries(|fs|)) && Shaped(r)
    ensures Incoming(r, [], to) && r.c == l.c && r.up == l.up[|fs|..] && r.id == l.id
    decreases |fs|
  {
    if fs == [] {
      r := l;
    } else {
      var mid := OneArrives(l, fs, to);
      OneDelivery(|fs|);
      T.Follow1(l, DELIVER, mid, Deliveries(|fs| - 1));
      r := AllArrive(mid, fs[1..], to);
      assert l.up[1..][|fs| - 1..] == l.up[|fs|..];
    }
  }

  /** The helper then holds the client's history up to there. */
  lemma HoldsUpTo(l: Link, to: nat)
    requires Inv(l) && Incoming(l, [], to)
    ensures to <= |l.c.st.tx.hist| && HelperGot(l) == l.c.st.tx.hist[..to]
  {
    T.PrefixNow(l);
  }

  function Gap(l: Link): int
    requires l.c.CLive?
  {
    |l.c.st.tx.hist| - |HelperGot(l)|
  }

  lemma BatchTaken(tx: Window)
    requires tx.Valid()
    ensures M.Drained(tx, C.DRAIN_BATCH) == tx.(cursor := Min(tx.cursor + C.BATCH_BYTES, |tx.hist|))
  {
  }

  lemma ResentCarries(l: Link)
    requires l.c.CLive? && l.h.HLive? && Rewound(l).tx.Valid()
    ensures var to := Min(|HelperGot(l)| + C.BATCH_BYTES, |l.c.st.tx.hist|);
            Incoming(Resent(l), M.DataFrames(l.id, Rewound(l).tx, C.DRAIN_BATCH), to)
  {
    BatchTaken(Rewound(l).tx);
    DrainCarries(l.id, Rewound(l).tx, C.DRAIN_BATCH);
  }

  lemma ResentArrives(l: Link)
    requires l.c.CLive? && l.h.HLive? && Rewound(l).tx.Valid() && Orderly(Resent(l))
    ensures var n := |M.DataFrames(l.id, Rewound(l).tx, C.DRAIN_BATCH)|;
            HelperGot(T.Run(Resent(l), Deliveries(n)))
            == l.c.st.tx.hist[..Min(|HelperGot(l)| + C.BATCH_BYTES, |l.c.st.tx.hist|)]
  {
    var s, fs := Resent(l), M.DataFrames(l.id, Rewound(l).tx, C.DRAIN_BATCH);
    ResentCarries(l);
    var to := Min(|HelperGot(l)| + C.BATCH_BYTES, |l.c.st.tx.hist|);
    var r := AllArrive(s, fs, to);
    T.RunFollows(s, Deliveries(|fs|));
    HoldsUpTo(r, to);
  }

  lemma WholeExactly(hist: bytes, from: nat, n: nat)
    requires from <= |hist|
    ensures hist[..Min(from + n, |hist|)] == hist <==> |hist| - from <= n
  {
    assert hist[..|hist|] == hist;
  }

  lemma HandshakeRecovers(l: Link) returns (n: nat)
    requires Parted(l)
    ensures HelperGot(T.Run(l, HANDSHAKE + Deliveries(n)))
            == l.c.st.tx.hist[..Min(|HelperGot(l)| + C.BATCH_BYTES, |l.c.st.tx.hist|)]
  {
    RewoundValid(l);
    n := |M.DataFrames(l.id, Rewound(l).tx, C.DRAIN_BATCH)|;
    HandshakeResends(l, Deliveries(n));
    ResentArrives(l);
  }

  /** Whatever was lost before: reconnecting to the living helper and doing nothing but the handshake
      brings back the lost bytes in order, up to one batch. So the stream is whole again exactly when
      the gap fits a batch; with a larger window the rest waits for the next local command. */
  lemma OneReconnectionRecovers(l: Link)
    requires Parted(l)
    ensures exists n :: var r := T.Run(l, HANDSHAKE + Deliveries(n));
              && HelperGot(r) == l.c.st.tx.hist[..Min(|HelperGot(l)| + C.BATCH_BYTES, |l.c.st.tx.hist|)]
              && (HelperGot(r) == l.c.st.tx.hist <==> Gap(l) <= C.BATCH_BYTES)
  {
    var n := HandshakeRecovers(l);
    T.PrefixNow(l);
    WholeExactly(l.c.st.tx.hist, |HelperGot(l)|, C.BATCH_BYTES);
  }

  // ---- The rest comes with the next local writes ----

  /** Everything sent has arrived, and the local side has not ended its input. */
  predicate CaughtUp(l: Link)
  {
    && Shaped(l) && l.online && l.c.CLive? && l.h.HLive? && l.up == [] && !l.c.st.localFin
    && |HelperGot(l)| == l.c.st.tx.cursor
  }

  function Writes(id: StreamId, w: bytes): Event { Command(C.LocalData(id, w)) }

  /** A write, and deliveries until r. */
  ghost predicate OneRound(l: Link, w: bytes, r: Link)
  {
    exists n :: r == T.Follow(l, [Writes(l.id, w)] + Deliveries(n))
  }

  /** Each of ws in turn, with the deliveries that follow it. */
  ghost predicate Rounds(l: Link, ws: seq<bytes>, r: Link)
    decreases |ws|
  {
    if ws == [] then r == l else exists mid :: OneRound(l, ws[0], mid) && Rounds(mid, ws[1..], r)
  }

  /** How far the helper gets from c, with t bytes written before, by one batch for each of ws. */
  function Level(c: nat, t: nat, ws: seq<bytes>): nat
    decreases |ws|
  {
    if ws == [] then c else Level(Min(c + C.BATCH_BYTES, t + |ws[0]|), t + |ws[0]|, ws[1..])
  }

  /** The client's window after a write that fits it, and after the drain. */
  function Pushed(w: Window, data: bytes): Window { w.(hist := w.hist + data) }

  lemma WriteSends(st: M.StreamState, id: StreamId, w: bytes)
    requires st.tx.Valid() && !st.localFin && |w| <= st.tx.Writable()
    ensures Pushed(st.tx, w).Valid()
    ensures var tx := Pushed(st.tx, w);
            C.OnlineOutcome(st, C.LocalData(id, w))
            == C.Outcome(st.(tx := M.Drained(tx, C.DRAIN_BATCH)), true, M.DataFrames(id, tx, C.DRAIN_BATCH))
  {
    assert w[..|w|] == w;
  }

  /** What a write sends, from a helper that has caught up. */
  lemma WriteNext(l: Link, w: bytes) returns (r: Link)
    requires CaughtUp(l) && |w| <= l.c.st.tx.Writable()
    ensures T.Leads(l, Writes(l.id, w), r) && Shaped(r) && r.id == l.id
    ensures var tx := Pushed(l.c.st.tx, w);
            && tx.Valid() && r.c == CLive(l.c.st.(tx := M.Drained(tx, C.DRAIN_BATCH)))
            && r.up == M.DataFrames(l.id, tx, C.DRAIN_BATCH)
            && Incoming(r, r.up, M.Drained(tx, C.DRAIN_BATCH).cursor)
  {
    var tx := Pushed(l.c.st.tx, w);
    WriteSends(l.c.st, l.id, w);
    DrainCarries(l.id, tx, C.DRAIN_BATCH);
    var out := M.DataFrames(l.id, tx, C.DRAIN_BATCH);
    assert [] + out == out;
    r := Next(l, Writes(l.id, w));
  }

  /** Everything on the channel is delivered. */
  lemma EmptiesChannel(l: Link, to: nat) returns (r: Link)
    requires Shaped(l) && Incoming(l, l.up, to) && !l.c.st.localFin && l.c.st.tx.cursor == to
    ensures r == T.Follow(l, Deliveries(|l.up|)) && CaughtUp(r) && r.c == l.c && r.id == l.id
  {
    r := AllArrive(l, l.up, to);
  }

  /** One write and its deliveries. */
  lemma WriteArrives(l: Link, w: bytes) returns (r: Link)
    requires CaughtUp(l) && |w| <= l.c.st.tx.Writable()
    ensures OneRound(l, w, r) && CaughtUp(r)
    ensures r.c.st.tx.hist == l.c.st.tx.hist + w && r.c.st.tx.Writable() == l.c.st.tx.Writable() - |w|
    ensures |HelperGot(r)| == Min(|HelperGot(l)| + C.BATCH_BYTES, |l.c.st.tx.hist| + |w|)
  {
    BatchTaken(Pushed(l.c.st.tx, w));
    var mid := WriteNext(l, w);
    T.Follow1(l, Writes(l.id, w), mid, Deliveries(|mid.up|));
    r := EmptiesChannel(mid, mid.c.st.tx.cursor);
  }

  lemma MoreWritten(hist: bytes, ws: seq<bytes>)
    ensures ws == [] ==> hist + Flat(ws) == hist
    ensures ws != [] ==> hist + Flat(ws) == (hist + ws[0]) + Flat(ws[1..]) && |Flat(ws)| == |ws[0]| + |Flat(ws[1..])|
  {
  }

  lemma LevelStep(c: nat, t: nat, ws: seq<bytes>, c': nat, t': nat)
    requires ws != [] && t' == t + |ws[0]| && c' == Min(c + C.BATCH_BYTES, t')
    ensures Level(c, t, ws) == Level(c', t', ws[1..])
  {
  }

  lemma {:induction false} WritesArrive(l: Link, ws: seq<bytes>) returns (r: Link)
    requires CaughtUp(l) && |Flat(ws)| <= l.c.st.tx.Writable()
    ensures Rounds(l, ws, r) && CaughtUp(r)
    ensures r.c.st.tx.hist == l.c.st.tx.hist + Flat(ws)
    ensures |HelperGot(r)| == Level(|HelperGot(l)|, |l.c.st.tx.hist|, ws)
    decreases |ws|
  {
    MoreWritten(l.c.st.tx.hist, ws);
    if ws == [] {
      r := l;
    } else {
      var mid := WriteArrives(l, ws[0]);
      r := WritesArrive(mid, ws[1..]);
      LevelStep(|HelperGot(l)|, |l.c.st.tx.hist|, ws, |HelperGot(mid)|, |mid.c.st.tx.hist|);
    }
  }

  lemma {:induction false} FlatBounded(ws: seq<bytes>)
    requires forall i :: 0 <= i < |ws| ==> |ws[i]| <= C.BATCH_BYTES
    ensures |Flat(ws)| <= |ws| * C.BATCH_BYTES
  {
    if ws != [] { FlatBounded(ws[1..]); }
  }

  /** Writes of at most a batch never slow the helper down: it gains a batch with each, or has everything. */
  lemma {:induction false} LevelExactly(c: nat, t: nat, ws: seq<bytes>)
    requires c <= t && forall i :: 0 <= i < |ws| ==> |ws[i]| <= C.BATCH_BYTES
    ensures Level(c, t, ws) == Min(c + |ws| * C.BATCH_BYTES, t + |Flat(ws)|)
    decreases |ws|
  {
    if ws != [] {
      FlatBounded(ws[1..]);
      LevelExactly(Min(c + C.BATCH_BYTES, t + |ws[0]|), t + |ws[0]|, ws[1..]);
    }
  }

  /** From g of t bytes, one batch and then one for each write. */
  lemma WritesEnoughExactly(g: nat, t: nat, ws: seq<bytes>)
    requires g <= t && forall i :: 0 <= i < |ws| ==> |ws[i]| <= C.BATCH_BYTES
    ensures Level(Min(g + C.BATCH_BYTES, t), t, ws) == t + |Flat(ws)|
            <==> t - g + |Flat(ws)| <= (|ws| + 1) * C.BATCH_BYTES
  {
    FlatBounded(ws);
    LevelExactly(Min(g + C.BATCH_BYTES, t), t, ws);
  }

  lemma ResentQueue(l: Link)
    requires l.c.CLive? && l.h.HLive? && Rewound(l).tx.Valid() && !l.c.st.localFin
    ensures var fs, tx := M.DataFrames(l.id, Rewound(l).tx, C.DRAIN_BATCH), M.Drained(Rewound(l).tx, C.DRAIN_BATCH);
            && Resent(l).up == fs && Resent(l).c == CLive(l.c.st.(tx := tx)) && Resent(l).id == l.id
            && Incoming(Resent(l), fs, tx.cursor)
  {
    DrainCarries(l.id, Rewound(l).tx, C.DRAIN_BATCH);
  }

  /** Where the handshake and its deliveries leave a stream whose local side goes on writing. */
  lemma HandshakeCatchesUp(l: Link) returns (n: nat, r: Link)
    requires Parted(l) && !l.c.st.localFin
    ensures r == T.Run(l, HANDSHAKE + Deliveries(n)) && CaughtUp(r)
    ensures r.c.st.tx.hist == l.c.st.tx.hist && r.c.st.tx.Writable() == l.c.st.tx.capacity - Gap(l)
    ensures |HelperGot(r)| == Min(|HelperGot(l)| + C.BATCH_BYTES, |l.c.st.tx.hist|)
  {
    RewoundValid(l);
    BatchTaken(Rewound(l).tx);
    ResentQueue(l);
    n := |Resent(l).up|;
    HandshakeResends(l, Deliveries(n));
    r := EmptiesChannel(Resent(l), Resent(l).c.st.tx.cursor);
    T.RunFollows(Resent(l), Deliveries(n));
  }

  lemma HoldsAllExactly(l: Link)
    requires Inv(l) && CaughtUp(l)
    ensures HelperGot(l) == T.ClientWritten(l) <==> |HelperGot(l)| == |T.ClientWritten(l)|
  {
    T.PrefixNow(l);
  }

  /** Rounds are a run. */
  lemma {:induction false} RoundsKeep(l: Link, ws: seq<bytes>, r: Link)
    requires Inv(l) && Rounds(l, ws, r)
    ensures Inv(r)
    decreases |ws|
  {
    if ws != [] {
      var mid :| OneRound(l, ws[0], mid) && Rounds(mid, ws[1..], r);
      RoundKeeps(l, ws[0], mid);
      RoundsKeep(mid, ws[1..], r);
    }
  }

  lemma RoundKeeps(l: Link, w: bytes, r: Link)
    requires Inv(l) && OneRound(l, w, r)
    ensures Inv(r)
  {
    var n :| r == T.Follow(l, [Writes(l.id, w)] + Deliveries(n));
    T.RunFollows(l, [Writes(l.id, w)] + Deliveries(n));
  }

  /** After the handshake every further local write, of at most a batch, brings another batch. So with their
      deliveries the helper holds everything, old and new, if and only if there were writes enough. */
  lemma WritesBringTheRest(l: Link, ws: seq<bytes>) returns (n: nat, r: Link)
    requires Parted(l) && !l.c.st.localFin && Gap(l) + |Flat(ws)| <= l.c.st.tx.capacity
    requires forall i :: 0 <= i < |ws| ==> |ws[i]| <= C.BATCH_BYTES
    ensures Rounds(T.Run(l, HANDSHAKE + Deliveries(n)), ws, r)
    ensures T.ClientWritten(r) == l.c.st.tx.hist + Flat(ws)
    ensures HelperGot(r) == T.ClientWritten(r) <==> Gap(l) + |Flat(ws)| <= (|ws| + 1) * C.BATCH_BYTES
  {
    var mid: Link;
    n, mid := HandshakeCatchesUp(l);
    T.OffsetsBracketed(l);
    r := WritesArrive(mid, ws);
    WritesEnoughExactly(|HelperGot(l)|, |l.c.st.tx.hist|, ws);
    RoundsKeep(mid, ws, r);
    HoldsAllExactly(r);
  }
}
