/** The helper task that writes accepted bytes to the egress socket and acknowledges them. */
module Downlink {
  import opened Prelude

  const ACK_BYTES: nat := 64 * 1024

  /** What the main loop hands over, and the expiry of the ack timer. at is the number of bytes
      accepted so far. */
  datatype Input =
    | Write(data: bytes, at: nat)
    | Duplicate(at: nat)
    | Shutdown
    | Tick

  /** An ack as sent, beside the number of bytes that were in the egress socket at that moment. */
  datatype Receipt = Receipt(offset: nat, written: nat)

  datatype Downlink = Downlink(
    pending: nat,
    delivered: nat,
    written: bytes,
    acks: seq<Receipt>,
    shut: bool)

  const NEW_DOWNLINK := Downlink(0, 0, [], [], false)

  function SendAck(d: Downlink): Downlink
  {
    d.(acks := d.acks + [Receipt(d.delivered, |d.written|)], pending := 0)
  }

  /** The offset the peer last heard. */
  function LastAck(acks: seq<Receipt>): nat { if acks == [] then 0 else acks[|acks| - 1].offset }

  /** Writing to a socket whose write half has been shut down fails. */
  predicate CanStep(d: Downlink, i: Input) { i.Write? ==> !d.shut }

  function Step(d: Downlink, i: Input): (d': Downlink)
    requires CanStep(d, i)
  {
    match i
    case Tick => if d.pending > 0 then SendAck(d) else d
    case Write(data, at) =>
      var w := d.(pending := d.pending + |data|, delivered := at, written := d.written + data);
      if w.pending >= ACK_BYTES then SendAck(w) else w
    case Duplicate(at) => SendAck(d.(delivered := at))
    case Shutdown => (if d.pending > 0 then SendAck(d) else d).(shut := true)
  }

  /** What the main loop guarantees of the queue: each message carries the running total. */
  predicate Honest(queue: seq<Input>, total: nat)
  {
    if queue == [] then true
    else
      match queue[0]
      case Write(data, at) => at == total + |data| && Honest(queue[1..], at)
      case Duplicate(at) => at == total && Honest(queue[1..], total)
      case _ => Honest(queue[1..], total)
  }

  function Total(queue: seq<Input>): bytes
  {
    if queue == [] then []
    else News(queue[0]) + Total(queue[1..])
  }

  /** The bytes one message adds. */
  function News(m: Input): bytes { if m.Write? then m.data else [] }

  function TotalAfter(total: nat, m: Input): nat { if m.Write? then m.at else total }

  lemma {:induction false} TotalSnoc(queue: seq<Input>, m: Input)
    ensures Total(queue + [m]) == Total(queue) + News(m)
  {
    if queue == [] {
      assert [] + [m] == [m];
      assert [m][1..] == [];
      assert News(m) + [] == News(m);
    } else {
      assert (queue + [m])[1..] == queue[1..] + [m] && (queue + [m])[0] == queue[0];
      TotalSnoc(queue[1..], m);
      assert News(queue[0]) + (Total(queue[1..]) + News(m)) == (News(queue[0]) + Total(queue[1..])) + News(m);
    }
  }

  lemma {:induction false} HonestSnoc(queue: seq<Input>, total: nat, m: Input)
    requires Honest(queue, total) && Honest([m], total + |Total(queue)|)
    ensures Honest(queue + [m], total)
  {
    if queue == [] {
      assert queue + [m] == [m];
    } else {
      assert (queue + [m])[1..] == queue[1..] + [m] && (queue + [m])[0] == queue[0];
      assert |Total(queue)| == |News(queue[0])| + |Total(queue[1..])|;
      HonestSnoc(queue[1..], TotalAfter(total, queue[0]), m);
    }
  }

  /** Every ack named exactly the bytes written when it was sent. */
  predicate AcksExact(acks: seq<Receipt>)
  {
    forall k :: 0 <= k < |acks| ==> acks[k].offset == acks[k].written
  }

  /** Acks never decrease. */
  predicate AcksGrow(acks: seq<Receipt>)
  {
    forall j, k :: 0 <= j < k < |acks| ==> acks[j].offset <= acks[k].offset
  }

  /** Every ack emitted is exact, acks never decrease, and what is written but not yet acknowledged is
      what is pending, less than the threshold. */
  predicate Inv(d: Downlink)
  {
    && AcksExact(d.acks) && AcksGrow(d.acks)
    && d.delivered == |d.written|
    && d.pending == |d.written| - LastAck(d.acks)
    && d.pending < ACK_BYTES
  }

  /** One input from an honest queue keeps the ack discipline and extends what was written. */
  lemma StepKeepsDiscipline(d: Downlink, i: Input)
    requires Inv(d) && CanStep(d, i) && Honest([i], d.delivered)
    ensures Inv(Step(d, i)) && d.acks <= Step(d, i).acks
    ensures Step(d, i).written == d.written + News(i)
    // a duplicate is answered at once, and so are a shutdown and a timer that find something pending
    ensures i.Duplicate? || (!i.Write? && d.pending > 0) ==> LastAck(Step(d, i).acks) == |d.written|
    ensures i.Duplicate? ==> |Step(d, i).acks| == |d.acks| + 1
  {
    AckKeepsInv(d);
    if i.Write? {
      var w := d.(pending := d.pending + |i.data|, delivered := i.at, written := d.written + i.data);
      if w.pending >= ACK_BYTES { AckKeepsInv(w); }
    }
  }

  /** An ack leaves for a duplicate, when a write brings what is pending to the threshold, and for a shutdown
      or a timer that finds something pending, and only then; only a shutdown shuts the write half. */
  lemma AcksExactlyThen(d: Downlink, i: Input)
    requires CanStep(d, i)
    ensures var d' := Step(d, i);
            && |d'.acks| == |d.acks|
               + (if i.Duplicate? || (i.Write? && d.pending + |i.data| >= ACK_BYTES)
                     || ((i.Shutdown? || i.Tick?) && d.pending > 0) then 1 else 0)
            && (|d'.acks| > |d.acks| ==> d'.pending == 0 && LastAck(d'.acks) == d'.delivered)
            && d'.delivered == (if i.Write? || i.Duplicate? then i.at else d.delivered)
            && (d'.shut <==> d.shut || i.Shutdown?)
  {
  }

  /** An ack of everything written settles what was pending, however much that was. */
  lemma AckKeepsInv(d: Downlink)
    requires AcksExact(d.acks) && AcksGrow(d.acks) && d.delivered == |d.written|
    requires d.pending == |d.written| - LastAck(d.acks)
    ensures Inv(SendAck(d)) && LastAck(SendAck(d).acks) == |d.written|
  {
    forall j | 0 <= j < |d.acks| ensures d.acks[j].offset <= LastAck(d.acks) {
      if j < |d.acks| - 1 { assert d.acks[j].offset <= d.acks[|d.acks| - 1].offset; }
    }
  }

  /** What was written and what is still to come make up the whole, with honest totals throughout. */
  predicate OnCourse(d: Downlink, rest: seq<Input>, whole: bytes)
  {
    && Inv(d) && Honest(rest, d.delivered)
    && d.written <= whole && Total(rest) == whole[|d.written|..]
  }

  lemma StaysOnCourse(d: Downlink, rest: seq<Input>, whole: bytes)
    requires rest != [] && OnCourse(d, rest, whole) && CanStep(d, rest[0])
    ensures OnCourse(Step(d, rest[0]), rest[1..], whole)
  {
    assert Honest([rest[0]], d.delivered) by { assert [rest[0]][1..] == []; }
    StepKeepsDiscipline(d, rest[0]);
    assert Total(rest) == News(rest[0]) + Total(rest[1..]);
  }

  /** When the queue closes, a last ack covers whatever is still pending. */
  lemma LastAckCovers(d: Downlink, whole: bytes)
    requires OnCourse(d, [], whole)
    ensures var e := if d.pending > 0 then SendAck(d) else d;
            Inv(e) && e.written == whole && LastAck(e.acks) == |whole|
  {
    assert |d.written| == |whole|;
    AckKeepsInv(d);
  }

  lemma StartsOnCourse(inputs: seq<Input>)
    requires Honest(inputs, 0)
    ensures OnCourse(NEW_DOWNLINK, inputs, Total(inputs))
  {
  }

  /** One turn of the loop: write first, acknowledge afterwards. */
  method HandleInput(d: Downlink, input: Input) returns (d': Downlink)
    requires CanStep(d, input)
    ensures d' == Step(d, input)
  {
    d' := d;
    match input {
      case Tick =>
        if d'.pending > 0 {
          d' := SendAck(d');
        }
      case Write(data, at) =>
        d' := d'.(written := d'.written + data, pending := d'.pending + |data|, delivered := at);
        if d'.pending >= ACK_BYTES {
          d' := SendAck(d');
        }
      case Duplicate(at) =>
        d' := SendAck(d'.(delivered := at));
      case Shutdown =>
        if d'.pending > 0 {
          d' := SendAck(d');
        }
        d' := d'.(shut := true);
    }
  }

  /** The write half was shut down by one of the first k inputs. */
  predicate ShutBefore(inputs: seq<Input>, k: nat)
  {
    exists j :: 0 <= j < k && j < |inputs| && inputs[j].Shutdown?
  }

  /** The socket operation of input k fails: by itself, or as a write after the shutdown. */
  predicate FailsAt(inputs: seq<Input>, broken: set<nat>, k: nat)
  {
    k < |inputs| && ((!inputs[k].Tick? && !inputs[k].Duplicate? && k in broken)
                     || (inputs[k].Write? && ShutBefore(inputs, k)))
  }

  /** A failing write may have put a part of its bytes into the socket. */
  lemma PartlyWritten(d: Downlink, rest: seq<Input>, whole: bytes, part: nat)
    requires rest != [] && rest[0].Write? && OnCourse(d, rest, whole) && part <= |rest[0].data|
    ensures d.written <= d.written + rest[0].data[..part] <= whole
  {
    var data := rest[0].data;
    assert Total(rest) == data + Total(rest[1..]);
  }

  /** The task has handled the first i inputs and none of their operations failed. */
  predicate AtTurn(d: Downlink, inputs: seq<Input>, i: nat)
  {
    && i <= |inputs|
    && OnCourse(d, inputs[i..], Total(inputs))
    && (d.shut <==> ShutBefore(inputs, i))
  }

  lemma StartsAtTurn(inputs: seq<Input>)
    requires Honest(inputs, 0)
    ensures AtTurn(NEW_DOWNLINK, inputs, 0)
  {
    StartsOnCourse(inputs);
    assert inputs[0..] == inputs;
  }

  lemma OneTurn(d: Downlink, inputs: seq<Input>, i: nat)
    requires i < |inputs| && AtTurn(d, inputs, i) && CanStep(d, inputs[i])
    ensures AtTurn(Step(d, inputs[i]), inputs, i + 1) && Step(d, inputs[i]).written <= Total(inputs)
  {
    assert inputs[i..][0] == inputs[i];
    StaysOnCourse(d, inputs[i..], Total(inputs));
    assert inputs[i..][1..] == inputs[i + 1..];
    ShutOneLater(inputs, i);
  }

  lemma ShutOneLater(inputs: seq<Input>, i: nat)
    requires i < |inputs|
    ensures ShutBefore(inputs, i + 1) <==> ShutBefore(inputs, i) || inputs[i].Shutdown?
  {
  }

  lemma LastTurn(d: Downlink, inputs: seq<Input>)
    requires AtTurn(d, inputs, |inputs|)
    ensures var e := if d.pending > 0 then SendAck(d) else d;
            && Inv(e) && e.written == Total(inputs) && LastAck(e.acks) == |Total(inputs)|
            && (e.shut <==> ShutBefore(inputs, |inputs|))
  {
    assert inputs[|inputs|..] == [];
    LastAckCovers(d, Total(inputs));
  }

  /** The task's loop over messages and timer ticks, until the queue is closed or a socket operation
      fails. Over any honest queue every ack equals the bytes then in the socket; when the queue closes
      every byte has been written and the last ack sent names them all. broken: the inputs whose write
      or shutdown fails; part: how much of a failing write still reached the socket. */
  method DownlinkLoop(inputs: seq<Input>, broken: set<nat>, part: nat)
    returns (d: Downlink, socket: bytes, failed: bool)
    requires Honest(inputs, 0)
    ensures Inv(d) && d.written <= socket <= Total(inputs)
    ensures failed <==> exists k :: FailsAt(inputs, broken, k)
    ensures !failed ==> d.written == socket == Total(inputs) && LastAck(d.acks) == |Total(inputs)|
    ensures !failed ==> (d.shut <==> ShutBefore(inputs, |inputs|))
  {
    d := NEW_DOWNLINK;
    var i := 0;
    StartsAtTurn(inputs);
    while i < |inputs|
      invariant AtTurn(d, inputs, i)
      invariant forall k :: 0 <= k < i ==> !FailsAt(inputs, broken, k)
    {
      var input := inputs[i];
      if input.Write? && (d.shut || i in broken) {
        assert FailsAt(inputs, broken, i);
        PartlyWritten(d, inputs[i..], Total(inputs), Min(part, |input.data|));
        return d, d.written + input.data[..Min(part, |input.data|)], true;
      }
      OneTurn(d, inputs, i);
      d := HandleInput(d, input);
      if input.Shutdown? && i in broken {
        assert FailsAt(inputs, broken, i);
        return d, d.written, true;
      }
      i := i + 1;
    }
    LastTurn(d, inputs);
    if d.pending > 0 {
      d := SendAck(d);
    }
    return d, d.written, false;
  }
}
