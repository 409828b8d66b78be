/** One stream on the helper's side: how the main loop reacts to a frame for it. */
module HelperStream {
  import opened Prelude
  import opened Window
  import opened Frames
  import U = Uplink
  import D = Downlink

  /** queue: what the main loop has accepted and the downlink task has not yet handled.
      egressDone: the task reported that the egress side is finished. */
  datatype HStream = HStream(
    recv: Inbox,
    queue: seq<D.Input>,
    up: U.Uplink,
    down: D.Downlink,
    egressDone: bool,
    ingressFin: bool)

  function NewHStream(window: nat): HStream
    requires 0 < window
  {
    HStream(NEW_INBOX, [], U.NewUplink(window), D.NEW_DOWNLINK, false, false)
  }

  /** What becomes of the stream: its state, whether it is kept, and the frames sent at once. */
  datatype Outcome = Outcome(st: HStream, live: bool, out: seq<Frame>)

  /** Reclaimed once both directions have ended and nothing is left unacknowledged. */
  predicate Finished(h: HStream) { h.ingressFin && h.egressDone && h.up.tx.FullyAcked() }

  function Cleaned(o: Outcome): Outcome { if o.live && Finished(o.st) then o.(live := false) else o }

  /** Change the shared buffer, then wake the task. */
  function Woken(u: U.Uplink, tx: Window): U.Uplink { u.(tx := tx, permit := true) }

  function Enqueue(h: HStream, m: D.Input, id: StreamId, linked: bool): (o: Outcome)
  {
    if linked then Outcome(h.(queue := h.queue + [m]), true, [])
    else Outcome(h, false, [Reset(id, Internal)])
  }

  /** linked: the stream's task still takes messages. */
  function OnFrame(h: HStream, f: Frame, linked: bool): (o: Outcome)
    requires h.up.tx.Valid() && f.StreamOf().Some?
  {
    match f
    case Data(id, offset, data) => (
      match h.recv.Accept(offset, data)
      case Ok((recv, Some(news))) => Enqueue(h.(recv := recv), D.Write(news, |recv.got|), id, linked)
      case Ok((recv, None)) => Enqueue(h, D.Duplicate(|recv.got|), id, linked)
      case Err(_) => Outcome(h, false, [Reset(id, Internal)]))
    case Ack(id, offset) => (
      match h.up.tx.Ack(offset)
      case Ok(tx) => Cleaned(Outcome(h.(up := Woken(h.up, tx)), true, []))
      case Err(_) => Outcome(h, false, [Reset(id, Internal)]))
    case Fin(id) =>
      if h.ingressFin then Cleaned(Outcome(h, true, []))
      else Cleaned(Enqueue(h.(ingressFin := true, recv := h.recv.MarkFin()), D.Shutdown, id, linked))
    case Reset(_, _) => Outcome(h, false, [])
    case Resume(id, recvOffset) => (
      match h.up.tx.Rewind(recvOffset)
      case Ok(tx) => Outcome(h.(up := Woken(h.up, tx)), true, [ResumeOk(id, |h.recv.got|)])
      case Err(_) => Outcome(h, false, [ResumeErr(id, ResumeImpossible)]))
    case Open(id, _) => Outcome(h, true, [OpenErr(id, Internal, DUPLICATE_ID)])
    case _ => Outcome(h, true, [])
  }

  /** The answer to a frame, other than Open, for a stream the helper does not hold. */
  function OnUnknown(f: Frame): (out: seq<Frame>)
  {
    match f
    case Data(id, _, _) => [Reset(id, UnknownStream)]
    case Fin(id) => [Reset(id, UnknownStream)]
    case Resume(id, _) => [ResumeErr(id, UnknownStream)]
    case _ => []
  }

  const DUPLICATE_ID := Ascii("duplicate stream id")
  const TOO_MANY := Ascii("too many streams")
  const NOT_ALLOWED := Ascii("target rejected by allow list")

  /** Why an Open is refused, in order of precedence; empty when it is granted. */
  function Refusal(id: StreamId, taken: bool, full: bool, permitted: bool): seq<Frame>
  {
    if taken then [OpenErr(id, Internal, DUPLICATE_ID)]
    else if full then [OpenErr(id, Internal, TOO_MANY)]
    else if !permitted then [OpenErr(id, Forbidden, NOT_ALLOWED)]
    else []
  }

  // ---- What every action keeps ----

  /** The two tasks keep their own invariants, no wake-up is outstanding, and every accepted byte is in
      the egress socket or queued, in order. */
  predicate Good(h: HStream)
  {
    && U.Inv(h.up) && !h.up.owed && D.Inv(h.down)
    && D.Honest(h.queue, h.down.delivered)
    && h.recv.got == h.down.written + D.Total(h.queue)
  }

  /** What was written and what is queued has been accepted. */
  predicate Accounted(h: HStream) { h.down.written + D.Total(h.queue) <= h.recv.got }

  /** The bytes that the egress socket may already have taken some of: those of the write in progress, which
      stopping the task cuts short. */
  function Underway(h: HStream): bytes
  {
    if h.queue != [] && h.queue[0].Write? && !h.down.shut then h.queue[0].data else []
  }

  /** However far that write has got, only accepted bytes are in the socket, in order. */
  lemma PartlyAccounted(h: HStream, k: nat)
    requires Accounted(h) && k <= |Underway(h)|
    ensures h.down.written + Underway(h)[..k] <= h.recv.got
  {
    if h.queue != [] {
      assert h.down.written + D.Total(h.queue) == (h.down.written + D.News(h.queue[0])) + D.Total(h.queue[1..]);
    }
  }

  /** The egress side is reported finished only once this stream's own task has finished. */
  predicate Reported(h: HStream) { h.egressDone ==> h.up.pc.Done? }

  lemma NewIsGood(window: nat)
    requires 0 < window
    ensures Good(NewHStream(window))
  {
    assert D.Total([]) == [];
  }

  lemma WokenIsGood(u: U.Uplink, e: U.Event)
    requires U.Inv(u) && (e.MainAck? || e.MainRewind?) && U.CanHappen(u, e)
    ensures U.Inv(Woken(u, U.Next(u, e).tx))
  {
    U.InvStep(u, e);
  }

  lemma EnqueueIsGood(h: HStream, recv: Inbox, m: D.Input, id: StreamId, linked: bool)
    requires Good(h)
    requires recv.got == h.recv.got + (if m.Write? then m.data else [])
    requires (m.Write? ==> m.at == |recv.got|) && (m.Duplicate? ==> m.at == |recv.got|)
    ensures Good(Enqueue(h, m, id, linked).st.(recv := if linked then recv else h.recv))
  {
    if linked {
      assert D.Honest([m], h.down.delivered + |D.Total(h.queue)|) by { assert [m][1..] == []; }
      D.HonestSnoc(h.queue, h.down.delivered, m);
      D.TotalSnoc(h.queue, m);
      var news := D.News(m);
      assert (h.down.written + D.Total(h.queue)) + news == h.down.written + (D.Total(h.queue) + news);
    }
  }

  /** What is left of a stream after a frame: good if it is kept. */
  predicate LeftGood(h: HStream, o: Outcome)
  {
    && (o.live ==> Good(o.st)) && (!o.live ==> Accounted(o.st)) && U.Inv(o.st.up)
    && o.st.egressDone == h.egressDone && o.st.up.pc == h.up.pc
  }

  lemma DataIsGood(h: HStream, f: Frame, linked: bool)
    requires Good(h) && f.Data?
    ensures LeftGood(h, OnFrame(h, f, linked))
  {
    match h.recv.Accept(f.offset, f.data) {
      case Ok((recv, Some(news))) => EnqueueIsGood(h, recv, D.Write(news, |recv.got|), f.id, linked);
      case Ok((recv, None)) => EnqueueIsGood(h, h.recv, D.Duplicate(|h.recv.got|), f.id, linked);
      case Err(_) =>
    }
  }

  lemma FinIsGood(h: HStream, f: Frame, linked: bool)
    requires Good(h) && f.Fin?
    ensures LeftGood(h, OnFrame(h, f, linked))
  {
    if !h.ingressFin { EnqueueIsGood(h, h.recv, D.Shutdown, f.id, linked); }
  }

  /** Whatever the frame, a stream that is kept stays good. */
  lemma OnFrameIsGood(h: HStream, f: Frame, linked: bool)
    requires Good(h) && f.StreamOf().Some?
    ensures LeftGood(h, OnFrame(h, f, linked))
  {
    match f {
      case Data(_, _, _) => DataIsGood(h, f, linked);
      case Fin(_) => FinIsGood(h, f, linked);
      case Ack(_, offset) => if h.up.tx.Ack(offset).Ok? { WokenIsGood(h.up, U.MainAck(offset)); }
      case Resume(_, offset) => if h.up.tx.Rewind(offset).Ok? { WokenIsGood(h.up, U.MainRewind(offset)); }
      case _ =>
    }
  }

  /** The offset a resume answer names counts written bytes only exactly when nothing accepted is still queued. */
  lemma AnswerNamesWrittenExactly(h: HStream)
    requires Good(h)
    ensures |h.recv.got| == |h.down.written| <==> D.Total(h.queue) == []
  {
  }

  /** What the stream's task may do on its own. */
  datatype TaskStep = Up(e: U.Event) | Down | Timer | Report

  predicate CanTask(h: HStream, t: TaskStep)
    requires h.up.tx.Valid()
  {
    match t
    case Up(e) => (e.Advance? || e.ReadBytes? || e.ReadEof?) && U.CanHappen(h.up, e)
    case Down => h.queue != [] && D.CanStep(h.down, h.queue[0])
    case Timer => true
    case Report => h.up.pc.Done?
  }

  /** Acks that a task step has newly emitted. */
  function NewAcks(id: StreamId, before: D.Downlink, after: D.Downlink): seq<Frame>
  {
    if |after.acks| <= |before.acks| then [] else [Ack(id, after.delivered)]
  }

  function Task(id: StreamId, h: HStream, t: TaskStep): (o: Outcome)
    requires h.up.tx.Valid() && CanTask(h, t)
  {
    match t
    case Up(e) =>
      var out := if e.Advance? && h.up.pc.Sending? then [Data(id, h.up.pc.seg.offset, h.up.pc.seg.data)]
                 else if e.Advance? && h.up.pc.SendingFin? then [Fin(id)]
                 else [];
      Outcome(h.(up := U.Next(h.up, e)), true, out)
    case Down =>
      var d := D.Step(h.down, h.queue[0]);
      Outcome(h.(down := d, queue := h.queue[1..]), true, NewAcks(id, h.down, d))
    case Timer =>
      var d := D.Step(h.down, D.Tick);
      Outcome(h.(down := d), true, NewAcks(id, h.down, d))
    case Report => Cleaned(Outcome(h.(egressDone := true), true, []))
  }

  lemma TaskIsGood(id: StreamId, h: HStream, t: TaskStep)
    requires Good(h) && CanTask(h, t)
    ensures Good(Task(id, h, t).st) && (Reported(h) ==> Reported(Task(id, h, t).st))
    // an ack leaves only for bytes that are in the egress socket
    ensures forall i :: 0 <= i < |Task(id, h, t).out| && Task(id, h, t).out[i].Ack? ==>
              Task(id, h, t).out[i].offset == |Task(id, h, t).st.down.written|
  {
    match t {
      case Up(e) => U.InvStep(h.up, e);
      case Down =>
        D.StaysOnCourse(h.down, h.queue, h.recv.got);
      case Timer =>
        assert D.Honest([D.Tick], h.down.delivered) by { assert [D.Tick][1..] == []; }
        D.StepKeepsDiscipline(h.down, D.Tick);
        assert h.down.written + [] == h.down.written;
      case Report =>
    }
  }

  // ---- The end of input goes on to the egress socket ----

  function Shutdowns(queue: seq<D.Input>): nat
  {
    if queue == [] then 0 else (if queue[0].Shutdown? then 1 else 0) + Shutdowns(queue[1..])
  }

  lemma {:induction false} ShutdownsSnoc(queue: seq<D.Input>, m: D.Input)
    ensures Shutdowns(queue + [m]) == Shutdowns(queue) + if m.Shutdown? then 1 else 0
  {
    if queue == [] {
      assert queue + [m] == [m] && [m][1..] == [];
    } else {
      assert (queue + [m])[0] == queue[0] && (queue + [m])[1..] == queue[1..] + [m];
      ShutdownsSnoc(queue[1..], m);
    }
  }

  /** Once the client's end of input was taken, exactly one shutdown is queued, or the write half is shut
      down; before, neither. */
  predicate Forwarded(h: HStream)
  {
    Shutdowns(h.queue) + (if h.down.shut then 1 else 0) == if h.ingressFin then 1 else 0
  }

  lemma NewIsForwarded(window: nat)
    requires 0 < window
    ensures Forwarded(NewHStream(window))
  {
  }

  /** Whatever the frame. The shutdown goes behind every byte accepted so far. */
  lemma FrameForwards(h: HStream, f: Frame, linked: bool)
    requires Forwarded(h) && h.up.tx.Valid() && f.StreamOf().Some?
    ensures var o := OnFrame(h, f, linked);
            && (o.live ==> Forwarded(o.st))
            && (o.st.ingressFin <==> h.ingressFin || f.Fin?)
            && (f.Fin? && !h.ingressFin && linked ==> o.st.queue == h.queue + [D.Shutdown])
  {
    if f.Data? {
      match h.recv.Accept(f.offset, f.data) {
        case Ok((recv, Some(news))) => ShutdownsSnoc(h.queue, D.Write(news, |recv.got|));
        case Ok((recv, None)) => ShutdownsSnoc(h.queue, D.Duplicate(|recv.got|));
        case Err(_) =>
      }
    } else if f.Fin? {
      ShutdownsSnoc(h.queue, D.Shutdown);
    }
  }

  lemma TaskForwards(id: StreamId, h: HStream, t: TaskStep)
    requires Forwarded(h) && h.up.tx.Valid() && CanTask(h, t)
    ensures Forwarded(Task(id, h, t).st) && Task(id, h, t).st.ingressFin == h.ingressFin
  {
  }

  /** So when the queue has been handled, the write half is shut down exactly if the client has ended. */
  lemma HandledIsShut(h: HStream)
    requires Forwarded(h) && h.queue == []
    ensures h.down.shut <==> h.ingressFin
  {
  }
}
