/** What holds in every run of one stream, over any number of disconnections and resumptions. */
module LinkTheorems {
  import opened Prelude
  import opened Frames
  import opened Lane
  import opened Link
  import opened LinkSafety
  import opened LinkOrder
  import C = Driver
  import H = HelperStream

  function NewLink(id: StreamId, window: nat, session: bytes): (l: Link)
    requires 0 < window
  {
    Link(id, window, session, CNone, HNone, [], [], false, false, false)
  }

  /** The link after a sequence of events; an event that cannot happen is skipped. */
  function Run(l: Link, es: seq<Event>): (r: Link)
    requires Inv(l)
    ensures Inv(r)
    decreases |es|
  {
    if es == [] then l
    else if !CanHappen(l, es[0]) then Run(l, es[1..])
    else
      InvKept(l, es[0]);
      Run(Next(l, es[0]), es[1..])
  }

  // ---- Runs given by the links they pass through ----

  predicate Leads(a: Link, e: Event, b: Link) { Shaped(a) && CanHappen(a, e) && Next(a, e) == b }

  /** A run of any link, whether or not the invariant holds of it. */
  function Follow(l: Link, es: seq<Event>): Link
    decreases |es|
  {
    if es == [] then l
    else if Shaped(l) && CanHappen(l, es[0]) then Follow(Next(l, es[0]), es[1..])
    else Follow(l, es[1..])
  }

  lemma {:induction false} RunFollows(l: Link, es: seq<Event>)
    requires Inv(l)
    ensures Run(l, es) == Follow(l, es)
    decreases |es|
  {
    if es != [] {
      if CanHappen(l, es[0]) {
        InvKept(l, es[0]);
        RunFollows(Next(l, es[0]), es[1..]);
      } else {
        RunFollows(l, es[1..]);
      }
    }
  }

  lemma Follow1(a: Link, e: Event, b: Link, es: seq<Event>)
    requires Leads(a, e, b)
    ensures Follow(a, [e] + es) == Follow(b, es)
  {
    assert ([e] + es)[1..] == es;
  }

  lemma Follow2(a: Link, e: Event, b: Link, f: Event, c: Link)
    requires Leads(a, e, b) && Leads(b, f, c)
    ensures Follow(a, [e, f]) == c
  {
    Follow1(a, e, b, [f]);
    Follow1(b, f, c, []);
    assert [e] + [f] == [e, f] && [f] + [] == [f];
  }

  lemma Follow3(a: Link, e: Event, b: Link, f: Event, c: Link, g: Event, d: Link)
    requires Leads(a, e, b) && Leads(b, f, c) && Leads(c, g, d)
    ensures Follow(a, [e, f, g]) == d
  {
    Follow1(a, e, b, [f, g]);
    Follow2(b, f, c, g, d);
    assert [e] + [f, g] == [e, f, g];
  }

  lemma {:induction false} FollowTwice(l: Link, es: seq<Event>, fs: seq<Event>)
    ensures Follow(l, es + fs) == Follow(Follow(l, es), fs)
    decreases |es|
  {
    if es == [] {
      assert es + fs == fs;
    } else {
      assert (es + fs)[0] == es[0] && (es + fs)[1..] == es[1..] + fs;
      FollowTwice(if Shaped(l) && CanHappen(l, es[0]) then Next(l, es[0]) else l, es[1..], fs);
    }
  }

  lemma RunTwice(l: Link, es: seq<Event>, fs: seq<Event>)
    requires Inv(l)
    ensures Run(l, es + fs) == Run(Run(l, es), fs)
  {
    RunFollows(l, es + fs);
    RunFollows(l, es);
    RunFollows(Run(l, es), fs);
    FollowTwice(l, es, fs);
  }

  // ---- What has been handed over ----

  /** Client to server: the bytes in the egress socket. Server to client: the bytes the endpoint was handed. */
  function EgressWritten(l: Link): bytes { if l.h.HNone? then [] else l.h.h.down.written }

  function Underway(l: Link): bytes { if l.h.HNone? then [] else H.Underway(l.h.h) }

  /** The egress socket is a prefix of what the client wrote however far the write in progress has got, and
      so also where a stream was dropped in the middle of one. */
  predicate SocketHonest(l: Link)
  {
    forall k: nat :: k <= |Underway(l)| ==> EgressWritten(l) + Underway(l)[..k] <= ClientWritten(l)
  }

  function ClientWritten(l: Link): bytes { if l.c.CNone? then [] else l.c.st.tx.hist }

  function EgressRead(l: Link): bytes { if l.h.HNone? then [] else l.h.h.up.readLog }

  lemma NewLinkInv(id: StreamId, window: nat, session: bytes)
    requires 0 < window
    ensures Orderly(NewLink(id, window, session))
  {
  }

  /** In every run the bytes handed to either side are exactly a prefix of the bytes the other side
      wrote: nothing is lost in the middle, duplicated or reordered. */
  lemma PrefixAlways(id: StreamId, window: nat, session: bytes, es: seq<Event>)
    requires 0 < window
    ensures Inv(NewLink(id, window, session))
    ensures var l := Run(NewLink(id, window, session), es);
            EgressWritten(l) <= ClientWritten(l) && SocketHonest(l) && ClientGot(l) <= EgressRead(l)
  {
    NewLinkInv(id, window, session);
    PrefixNow(Run(NewLink(id, window, session), es));
    SocketNow(Run(NewLink(id, window, session), es));
  }

  lemma SocketNow(l: Link)
    requires Inv(l)
    ensures SocketHonest(l)
  {
    PrefixNow(l);
    forall k: nat | k <= |Underway(l)| ensures EgressWritten(l) + Underway(l)[..k] <= ClientWritten(l) {
      if !l.h.HNone? { H.PartlyAccounted(l.h.h, k); }
    }
  }

  lemma PrefixNow(l: Link)
    requires Inv(l)
    ensures EgressWritten(l) <= HelperGot(l) <= ClientWritten(l)
    ensures ClientGot(l) <= HelperTx(l).hist <= EgressRead(l)
  {
    assert Sound(UpLane(l)) && Sound(DownLane(l));
  }

  /** Bytes are only ever added at the end: a later state extends what was handed over before. */
  lemma {:induction false} HandedOverGrows(l: Link, es: seq<Event>)
    requires Inv(l)
    ensures ClientGot(l) <= ClientGot(Run(l, es)) && EgressWritten(l) <= EgressWritten(Run(l, es))
    decreases |es|
  {
    if es != [] {
      if CanHappen(l, es[0]) {
        InvKept(l, es[0]);
        GotGrows(l, es[0]);
        WrittenGrows(l, es[0]);
        HandedOverGrows(Next(l, es[0]), es[1..]);
      } else {
        HandedOverGrows(l, es[1..]);
      }
    }
  }

  lemma RecvGotGrows(l: Link, localOk: bool)
    requires Inv(l) && CanHappen(l, ClientRecv(localOk))
    ensures ClientGot(l) <= ClientGot(Next(l, ClientRecv(localOk)))
  {
    if l.down[0].StreamOf() == Some(l.id) && l.c.CLive? { ClientReacts(l, localOk); }
  }

  lemma CommandLeavesGot(l: Link, cmd: C.Command)
    requires Shaped(l) && CanHappen(l, Command(cmd))
    ensures ClientGot(Next(l, Command(cmd))) == ClientGot(l)
  {
  }

  lemma GotGrows(l: Link, e: Event)
    requires Inv(l) && CanHappen(l, e)
    ensures ClientGot(l) <= ClientGot(Next(l, e))
  {
    match e {
      case Command(cmd) => CommandLeavesGot(l, cmd);
      case ClientRecv(localOk) => RecvGotGrows(l, localOk);
      case _ =>
    }
  }

  /** The main loop never writes to the socket itself. */
  lemma SocketUntouched(h: H.HStream, f: Frame, linked: bool)
    requires h.up.tx.Valid() && f.StreamOf().Some?
    ensures H.OnFrame(h, f, linked).st.down == h.down
  {
  }

  /** A frame for a stream the helper holds. */
  lemma LiveFrameWritesNothing(l: Link, keepAll: bool, gate: Gate, linked: bool)
    requires Shaped(l) && CanHappen(l, HelperRecv(keepAll, gate, linked))
    requires l.h.HLive? && l.up[0].StreamOf() == Some(l.id)
    ensures EgressWritten(Next(l, HelperRecv(keepAll, gate, linked))) == EgressWritten(l)
  {
    SocketUntouched(l.h.h, l.up[0], linked);
  }

  /** Any other frame; an Open comes only before the helper ever held the stream. */
  lemma OtherFrameWritesNothing(l: Link, keepAll: bool, gate: Gate, linked: bool)
    requires Shaped(l) && CanHappen(l, HelperRecv(keepAll, gate, linked))
    requires !l.h.HLive? || l.up[0].StreamOf() != Some(l.id)
    requires l.up[0].Open? ==> l.h.HNone?
    ensures EgressWritten(Next(l, HelperRecv(keepAll, gate, linked))) == EgressWritten(l)
  {
  }

  lemma TaskWritesMore(l: Link, t: H.TaskStep)
    requires Shaped(l) && CanHappen(l, HelperTask(t))
    ensures EgressWritten(l) <= EgressWritten(Next(l, HelperTask(t)))
  {
  }

  lemma WrittenGrows(l: Link, e: Event)
    requires Inv(l) && CanHappen(l, e)
    ensures EgressWritten(l) <= EgressWritten(Next(l, e))
  {
    match e {
      case HelperRecv(keepAll, gate, linked) =>
        if l.h.HLive? && l.up[0].StreamOf() == Some(l.id) {
          LiveFrameWritesNothing(l, keepAll, gate, linked);
        } else {
          assert l.up[0].Open? && l.up[0].StreamOf() == Some(l.id) ==> l.h.HNone?;
          assert l.up[0].Open? ==> l.up[0].StreamOf() == Some(l.id);
          OtherFrameWritesNothing(l, keepAll, gate, linked);
        }
      case HelperTask(t) => TaskWritesMore(l, t);
      case _ =>
    }
  }

  // ---- Honest peers never raise a false alarm ----

  /** The client's stream survives every ack and every resume answer; the gap fits the window. */
  lemma ClientAcceptsNotes(l: Link, localOk: bool)
    requires Orderly(l) && l.down != [] && l.c.CLive? && (l.down[0].Ack? || l.down[0].ResumeOk?)
    ensures C.FrameOutcome(l.c.st, l.down[0], localOk).live
    ensures l.down[0].ResumeOk? ==>
              var r := l.c.st.tx.Rewind(l.down[0].recvOffset);
              r.Ok? && r.value.Pending() <= r.value.capacity
  {
    assert l.down[0].StreamOf() == Some(l.id);
    ClientObeys(l);
  }

  /** The helper never answers an ack or a resume request with a refusal. */
  lemma HelperAcceptsNotes(l: Link, linked: bool)
    requires Orderly(l) && l.up != [] && l.h.HLive? && (l.up[0].Ack? || l.up[0].Resume?)
    ensures var o := H.OnFrame(l.h.h, l.up[0], linked);
            && (o.live || H.Finished(o.st))
            && o.out == (if l.up[0].Resume? then [ResumeOk(l.id, |l.h.h.recv.got|)] else [])
    ensures l.up[0].Resume? ==>
              var r := l.h.h.up.tx.Rewind(l.up[0].recvOffset);
              r.Ok? && r.value.Pending() <= r.value.capacity
  {
    assert l.up[0].StreamOf() == Some(l.id);
    HelperObeys(l);
  }

  /** Where frames may have been repeated: an ack is still never refused, and a resume answer is refused
      exactly when more has been released since than it names. */
  lemma ClientRefusesExactly(l: Link, localOk: bool)
    requires Inv(l) && l.down != [] && l.c.CLive? && (l.down[0].Ack? || l.down[0].ResumeOk?)
    ensures C.FrameOutcome(l.c.st, l.down[0], localOk).live
            <==> (l.down[0].ResumeOk? ==> l.c.st.tx.acked <= l.down[0].recvOffset)
  {
    assert l.down[0].StreamOf() == Some(l.id);
    DownHead(l);
    assert UpLane(l).notes[0] == NoteOf(l.down[0])[0];
    assert NotesBounded(UpLane(l).notes, |HelperGot(l)|) && HelperGot(l) <= ClientTx(l).hist;
    if l.down[0].ResumeOk? { ResumeOutcome(l.c.st, l.down[0], localOk); }
  }

  lemma HelperRefusesExactly(l: Link, linked: bool)
    requires Inv(l) && l.up != [] && l.h.HLive? && (l.up[0].Ack? || l.up[0].Resume?)
    ensures var o := H.OnFrame(l.h.h, l.up[0], linked);
            && (l.up[0].Ack? ==> o.out == [] && (o.live || H.Finished(o.st)))
            && (l.up[0].Resume? ==> (o.live <==> l.h.h.up.tx.acked <= l.up[0].recvOffset))
  {
    assert l.up[0].StreamOf() == Some(l.id);
    UpHead(l);
    assert DownLane(l).notes[0] == NoteOf(l.up[0])[0];
    assert NotesBounded(DownLane(l).notes, |ClientGot(l)|) && ClientGot(l) <= HelperTx(l).hist;
  }

  /** A run in which nothing is repeated. */
  predicate NoRepeats(es: seq<Event>) { forall i :: 0 <= i < |es| ==> !Repeats(es[i]) }

  /** So in every run without repetitions, however much is lost and however often the channel is cut,
      the next ack or resume offset is obeyed. */
  lemma OrderlyRun(l: Link, es: seq<Event>)
    requires Orderly(l) && NoRepeats(es)
    ensures Orderly(Run(l, es))
  {
    RunFollows(l, es);
    OrderlyFollows(l, es, Run(l, es));
  }

  lemma {:induction false} OrderlyFollows(l: Link, es: seq<Event>, r: Link)
    requires Orderly(l) && NoRepeats(es) && Follow(l, es) == r
    ensures Orderly(r)
    decreases |es|
  {
    if es != [] {
      if CanHappen(l, es[0]) {
        OrderlyKept(l, es[0]);
        OrderlyFollows(Next(l, es[0]), es[1..], r);
      } else {
        OrderlyFollows(l, es[1..], r);
      }
    }
  }

  /** Neither side ever believes more was received than was, nor releases what was not. */
  lemma OffsetsBracketed(l: Link)
    requires Inv(l)
    ensures ClientTx(l).acked <= |HelperGot(l)| <= |ClientTx(l).hist|
    ensures HelperTx(l).acked <= |ClientGot(l)| <= |HelperTx(l).hist|
  {
    assert Sound(UpLane(l)) && Sound(DownLane(l));
  }

  /** Frames of an honest peer never overflow the unchecked addition of offset and length. */
  lemma AcceptCannotOverflow(l: Link, i: nat)
    requires Inv(l) && i < |l.down| && l.down[i].Data? && |EgressRead(l)| < U64_SPACE
    ensures l.down[i].offset + |l.down[i].data| < U64_SPACE
  {
    DataInItems(l.down, i);
    var k :| 0 <= k < |Items(l.down)| && Items(l.down)[k] == Chunk(l.down[i].offset, l.down[i].data);
    assert Matches(DownLane(l).wire[k], HelperTx(l).hist);
  }

  /** The same at the helper. */
  lemma HelperAcceptCannotOverflow(l: Link, i: nat)
    requires Inv(l) && i < |l.up| && l.up[i].Data? && |ClientWritten(l)| < U64_SPACE
    ensures l.up[i].offset + |l.up[i].data| < U64_SPACE
  {
    DataInItems(l.up, i);
    var k :| 0 <= k < |Items(l.up)| && Items(l.up)[k] == Chunk(l.up[i].offset, l.up[i].data);
    assert Matches(UpLane(l).wire[k], ClientTx(l).hist);
  }

  lemma {:induction false} DataInItems(fs: seq<Frame>, i: nat)
    requires i < |fs| && fs[i].Data?
    ensures exists k :: 0 <= k < |Items(fs)| && Items(fs)[k] == Chunk(fs[i].offset, fs[i].data)
  {
    if i == 0 {
      assert Items(fs)[0] == Chunk(fs[0].offset, fs[0].data);
    } else {
      DataInItems(fs[1..], i - 1);
      var k :| 0 <= k < |Items(fs[1..])| && Items(fs[1..])[k] == Chunk(fs[i].offset, fs[i].data);
      assert Items(fs)[|ItemOf(fs[0])| + k] == Chunk(fs[i].offset, fs[i].data);
    }
  }

  // ---- Reclaiming ----

  /** A stream the helper may reclaim, or has reclaimed, has read its egress socket to the end, sent
      its Fin, and the client already has every byte ever read from that socket. */
  lemma ReclaimedMeansDelivered(l: Link)
    requires Inv(l) && !l.h.HNone? && H.Finished(l.h.h)
    ensures ClientGot(l) == EgressRead(l)
    ensures l.h.h.up.eof && l.h.h.up.finSent
  {
    assert Sound(DownLane(l));
  }

  /** The helper drops a live stream on an honest client's frame only because the stream is finished,
      the client gave it up, its local task is gone, or the data left a gap. */
  lemma HelperDropsOnlyFor(l: Link, linked: bool)
    requires Orderly(l) && l.up != [] && l.h.HLive? && l.up[0].StreamOf() == Some(l.id)
    requires !H.OnFrame(l.h.h, l.up[0], linked).live
    ensures || H.Finished(H.OnFrame(l.h.h, l.up[0], linked).st)
            || l.up[0].Reset?
            || !linked
            || (l.up[0].Data? && l.h.h.recv.Accept(l.up[0].offset, l.up[0].data).Err?)
  {
    if l.up[0].Ack? || l.up[0].Resume? { HelperAcceptsNotes(l, linked); }
  }
}
