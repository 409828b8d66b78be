/** When a lane cannot show a gap, and why one rewind recovers everything that was lost. */
module Alignment {
  import opened Prelude
  import opened Window
  import opened Lane

  /** How far an in-order receiver at offset d gets by consuming xs. */
  function Reach(xs: seq<Item>, d: nat): (r: nat)
    ensures d <= r
  {
    if xs == [] then d
    else if xs[0].FinMark? then Reach(xs[1..], d)
    else Reach(xs[1..], Max(d, xs[0].offset + |xs[0].data|))
  }

  /** Consuming xs from offset d never meets a gap. */
  predicate Linked(xs: seq<Item>, d: nat)
  {
    if xs == [] then true
    else if xs[0].FinMark? then Linked(xs[1..], d)
    else xs[0].offset <= d && Linked(xs[1..], Max(d, xs[0].offset + |xs[0].data|))
  }

  /** Every Fin in xs comes after the last of total bytes has been received. */
  predicate FinsLast(xs: seq<Item>, d: nat, total: nat)
  {
    if xs == [] then true
    else if xs[0].FinMark? then d == total && FinsLast(xs[1..], d, total)
    else FinsLast(xs[1..], Max(d, xs[0].offset + |xs[0].data|), total)
  }

  /** The frames in flight form a gap-free chain from what was received to the send cursor. */
  predicate Aligned(l: Lane)
  {
    Linked(l.Queue(), |l.got|) && l.tx.cursor <= Reach(l.Queue(), |l.got|)
  }

  /** A Fin in flight closes a complete stream, and nothing is written after it. */
  predicate FinFaithful(l: Lane)
  {
    && FinsLast(l.Queue(), |l.got|, |l.tx.hist|)
    && (FinMark in l.Queue() ==> l.tx.fin)
  }

  lemma {:induction false} QueueAppend(xs: seq<Item>, ys: seq<Item>, d: nat, total: nat)
    ensures Reach(xs + ys, d) == Reach(ys, Reach(xs, d))
    ensures Linked(xs + ys, d) <==> Linked(xs, d) && Linked(ys, Reach(xs, d))
    ensures FinsLast(xs + ys, d, total) <==> FinsLast(xs, d, total) && FinsLast(ys, Reach(xs, d), total)
  {
    if xs == [] {
      assert xs + ys == ys;
    } else {
      assert (xs + ys)[1..] == xs[1..] + ys;
      QueueAppend(xs[1..], ys, if xs[0].FinMark? then d else Max(d, xs[0].offset + |xs[0].data|), total);
    }
  }

  /** Matching frames never reach beyond the history. */
  lemma {:induction false} ReachWithinHistory(xs: seq<Item>, d: nat, hist: bytes)
    requires AllMatch(xs, hist) && d <= |hist|
    ensures Reach(xs, d) <= |hist|
  {
    if xs != [] {
      assert Matches(xs[0], hist);
      assert AllMatch(xs[1..], hist) by {
        assert forall i :: 0 <= i < |xs[1..]| ==> xs[1..][i] == xs[i + 1];
      }
      ReachWithinHistory(xs[1..], if xs[0].FinMark? then d else Max(d, xs[0].offset + |xs[0].data|), hist);
    }
  }

  lemma {:induction false} NoFinTotalFree(xs: seq<Item>, d: nat, total: nat)
    requires FinMark !in xs
    ensures FinsLast(xs, d, total)
  {
    if xs != [] {
      assert xs[0] in xs;
      NoFinTotalFree(xs[1..], Max(d, xs[0].offset + |xs[0].data|), total);
    }
  }

  /** Nothing sent is lost, and nothing is repeated. */
  predicate Lossless(st: LaneStep) { !st.LoseItem? && !st.RepeatItem? && !st.RepeatNote? && !st.Cut? }

  /** Delivering the head of an aligned queue never reports a gap and keeps the lane aligned. */
  lemma AlignedDeliver(l: Lane)
    requires Safe(l) && Aligned(l) && l.wire != []
    ensures Receive(l.got, l.wire[0]).Ok?
    ensures Aligned(Step(l, Deliver))
  {
    assert l.Queue()[0] == l.wire[0] && l.Queue()[1..] == l.wire[1..] + l.held;
    ReceiveKeepsPrefix(l.got, l.wire[0], l.tx.hist);
  }

  lemma AlignedTake(l: Lane, max: nat)
    requires Safe(l) && Aligned(l) && l.held == []
    ensures Aligned(Step(l, Take(max)))
  {
    var l' := Step(l, Take(max));
    assert l.Queue() == l.wire;
    QueueAppend(l.wire, l'.held, |l.got|, 0);
  }

  /** Alignment survives every step that loses nothing; so from one rewind to the next
      disconnection no frame can arrive ahead of a gap. */
  lemma AlignedStep(l: Lane, st: LaneStep)
    requires Safe(l) && Aligned(l) && Enabled(l, st) && Lossless(st)
    ensures Aligned(Step(l, st))
    ensures st.Deliver? ==> Receive(l.got, l.wire[0]).Ok?
  {
    match st {
      case Deliver => AlignedDeliver(l);
      case Take(max) => AlignedTake(l, max);
      case Send => assert (l.wire + l.held) + [] == l.Queue();
      case SendFin =>
        assert (l.wire + [FinMark]) + [] == l.Queue() + [FinMark];
        QueueAppend(l.Queue(), [FinMark], |l.got|, 0);
      case RecvNote =>
        HonestNotesAccepted(l);
      case Push(_) =>
      case EmitAck(_) =>
      case EmitRewind =>
      case LoseNote(_) =>
    }
  }

  /** A Fin sent once everything has been taken announces a complete stream; one sent earlier does not. */
  lemma FinStep(l: Lane, st: LaneStep)
    requires Safe(l) && FinFaithful(l) && Enabled(l, st) && Lossless(st)
    requires !st.SendFin?
    requires st.Deliver? ==> Receive(l.got, l.wire[0]).Ok?
    ensures FinFaithful(Step(l, st))
    ensures st.Deliver? && l.wire[0].FinMark? ==> l.got == l.tx.hist
  {
    match st {
      case Deliver =>
        assert l.Queue()[0] == l.wire[0] && l.Queue()[1..] == l.wire[1..] + l.held;
        ReceiveKeepsPrefix(l.got, l.wire[0], l.tx.hist);
      case Take(max) =>
        var l' := Step(l, st);
        assert l.Queue() == l.wire;
        QueueAppend(l.wire, l'.held, |l.got|, |l.tx.hist|);
        assert FinMark !in l'.held;
      case Send => assert (l.wire + l.held) + [] == l.Queue();
      case Push(data) => NoFinTotalFree(l.Queue(), |l.got|, |Step(l, st).tx.hist|);
      case RecvNote => HonestNotesAccepted(l);
      case EmitAck(_) =>
      case EmitRewind =>
      case LoseNote(_) =>
    }
  }

  /** Exactly when sending Fin now keeps its promise: the queue already carries the whole history. */
  lemma FinFaithfulExactly(l: Lane)
    requires Safe(l) && FinFaithful(l) && l.held == []
    ensures FinFaithful(Step(l, SendFin)) <==> Reach(l.Queue(), |l.got|) == |l.tx.hist|
    ensures Aligned(l) && !l.tx.HasPending() ==> FinFaithful(Step(l, SendFin))
  {
    assert (l.wire + [FinMark]) + [] == l.Queue() + [FinMark];
    QueueAppend(l.Queue(), [FinMark], |l.got|, |l.tx.hist|);
    assert AllMatch(l.Queue(), l.tx.hist) by { assert l.Queue() == l.wire; }
    ReachWithinHistory(l.Queue(), |l.got|, l.tx.hist);
  }

  // ---- Losing frames, and recovering ----

  /** After a disconnection the next frame gaps exactly when it is taken before the rewind
      and the cursor had run ahead of the receiver. */
  lemma EarlySendGapsExactly(l: Lane, max: nat)
    requires Safe(l) && l.held == [] && l.wire == [] && l.tx.HasPending() && 0 < max
    ensures var sent := Step(Step(l, Take(max)), Send);
            sent.wire != [] && (Receive(sent.got, sent.wire[0]).Err? <==> |l.got| < l.tx.cursor)
  {
    var taken := Step(l, Take(max));
    assert Step(taken, Send).wire == taken.held;
  }

  /** The same race in the helper: a frame taken before the rewind and put on the wire after it. */
  lemma HeldSendGapsExactly(l: Lane)
    requires Safe(l) && l.wire == [] && |l.held| == 1 && l.held[0].Chunk? && l.held[0].data != []
    ensures var sent := Step(l, Send);
            sent.wire != [] && (Receive(sent.got, sent.wire[0]).Err? <==> |l.got| < l.held[0].offset)
  {
    assert Step(l, Send).wire == l.held;
  }

  /** One byte written, sent, and lost with its channel. */
  function OneByteLost(): (l: Lane)
    ensures Safe(l) && l == Lane(Window([7], 0, 1, 8, false), [], [], [], [])
  {
    var pushed := Step(NewLane(8), Push([7]));
    Step(Step(Step(pushed, Take(1)), Send), Cut)
  }

  /** What may follow before the rewind is heard: a new byte arrives ahead of a gap, and a Fin, due
      because nothing is pending, arrives at a receiver that lacks the lost byte. */
  lemma BeforeTheRewind()
    ensures var early := Step(Step(Step(OneByteLost(), Push([8])), Take(1)), Send);
            early.wire == [Chunk(1, [8])] && Receive(early.got, early.wire[0]).Err?
    ensures !OneByteLost().tx.HasPending()
    ensures var closed := Step(OneByteLost(), SendFin);
            closed.wire == [FinMark] && closed.got < closed.tx.hist && !FinFaithful(closed)
  {
    var pushed := Step(OneByteLost(), Push([8]));
    assert pushed.tx == Window([7, 8], 0, 1, 8, false);
    assert pushed.tx.hist[1..2] == [8];
    var lost := OneByteLost();
    var closed := Step(lost, SendFin);
    assert closed.Queue() == [FinMark];
    assert !FinsLast(closed.Queue(), 0, 1);
  }

  /** Processing a rewind while nothing is queued on the channel aligns the lane,
      however much was lost before. */
  lemma RewindAligns(l: Lane)
    requires Safe(l) && l.Queue() == [] && l.notes != [] && l.notes[0].RewindNote?
    ensures Aligned(Step(l, RecvNote))
  {
    HonestNotesAccepted(l);
  }

  function DrainAll(l: Lane, max: nat): (r: Lane)
    requires Safe(l) && l.held == [] && 0 < max
    decreases |l.tx.hist| - l.tx.cursor
  {
    if !l.tx.HasPending() then l
    else
      SafeStep(l, Take(max));
      SafeStep(Step(l, Take(max)), Send);
      DrainAll(Step(Step(l, Take(max)), Send), max)
  }

  function DeliverAll(l: Lane): (r: Lane)
    requires Safe(l)
    decreases |l.wire|
  {
    if l.wire == [] then l
    else
      SafeStep(l, Deliver);
      DeliverAll(Step(l, Deliver))
  }

  lemma {:induction false} DrainAllSends(l: Lane, max: nat)
    requires Safe(l) && Aligned(l) && l.held == [] && 0 < max
    ensures var r := DrainAll(l, max);
            Safe(r) && Aligned(r) && r.held == [] && r.got == l.got && r.tx.hist == l.tx.hist && !r.tx.HasPending()
    decreases |l.tx.hist| - l.tx.cursor
  {
    if l.tx.HasPending() {
      var a := Step(l, Take(max));
      SafeStep(l, Take(max));
      AlignedStep(l, Take(max));
      SafeStep(a, Send);
      AlignedStep(a, Send);
      DrainAllSends(Step(a, Send), max);
    }
  }

  lemma {:induction false} DeliverAllReceives(l: Lane)
    requires Safe(l) && Aligned(l) && l.held == [] && !l.tx.HasPending()
    ensures DeliverAll(l).got == l.tx.hist
    decreases |l.wire|
  {
    if l.wire == [] {
      assert l.Queue() == [];
    } else {
      SafeStep(l, Deliver);
      AlignedStep(l, Deliver);
      DeliverAllReceives(Step(l, Deliver));
    }
  }

  function Reconnect(l: Lane): (r: Lane)
    requires Safe(l)
  {
    SafeStep(l, Cut);
    SafeStep(Step(l, Cut), EmitRewind);
    Step(Step(Step(l, Cut), EmitRewind), RecvNote)
  }

  /** Whatever happened before, one disconnection, one rewind, a drain and an in-order delivery
      leave the receiver with every byte ever written, exactly once and in order. */
  lemma ReconnectRecoversEverything(l: Lane, max: nat)
    requires Safe(l) && l.held == [] && 0 < max
    ensures Safe(Reconnect(l)) && Reconnect(l).held == []
    ensures Safe(DrainAll(Reconnect(l), max))
    ensures DeliverAll(DrainAll(Reconnect(l), max)).got == l.tx.hist
  {
    var cut := Step(l, Cut);
    SafeStep(l, Cut);
    SafeStep(cut, EmitRewind);
    var asked := Step(cut, EmitRewind);
    SafeStep(asked, RecvNote);
    RewindAligns(asked);
    assert Reconnect(l) == Step(asked, RecvNote);
    HonestNotesAccepted(asked);
    DrainAllSends(Reconnect(l), max);
    DeliverAllReceives(DrainAll(Reconnect(l), max));
  }

  // ---- Whole runs ----

  /** The lane after a sequence of steps; a step that is not enabled does nothing. Whatever the channel
      loses, repeats or cuts, what was received is a prefix of what was written. */
  function Run(l: Lane, sts: seq<LaneStep>): (r: Lane)
    requires Sound(l)
    ensures Sound(r)
    ensures l.got <= r.got <= r.tx.hist && l.tx.hist <= r.tx.hist
    decreases |sts|
  {
    if sts == [] then l
    else if !Enabled(l, sts[0]) then Run(l, sts[1..])
    else
      SoundStep(l, sts[0]);
      Run(Step(l, sts[0]), sts[1..])
  }

  /** Between two disconnections an aligned lane stays aligned, whatever is interleaved. */
  lemma {:induction false} AlignedRun(l: Lane, sts: seq<LaneStep>)
    requires Safe(l) && Aligned(l)
    requires forall i :: 0 <= i < |sts| ==> Lossless(sts[i])
    ensures Safe(Run(l, sts)) && Aligned(Run(l, sts))
    decreases |sts|
  {
    if sts != [] {
      if Enabled(l, sts[0]) {
        SafeStep(l, sts[0]);
        AlignedStep(l, sts[0]);
        AlignedRun(Step(l, sts[0]), sts[1..]);
      } else {
        AlignedRun(l, sts[1..]);
      }
    }
  }
}
