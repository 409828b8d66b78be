/** One stream of the whole system: its client side, its helper side, the frames on the channel that
    concern it, and everything that can happen to them. */
module Link {
  import opened Prelude
  import opened Window
  import opened Frames
  import opened Lane
  import M = Mux
  import C = Driver
  import H = HelperStream
  import U = Uplink

  /** Before the stream exists, while it is held, and after it was dropped (with its last state). */
  datatype ClientSide = CNone | CLive(st: M.StreamState) | CGone(st: M.StreamState)
  datatype HelperSide = HNone | HLive(h: H.HStream) | HGone(h: H.HStream)

  /** up and down hold the frames of this stream and the handshake, in order; online: a channel is up;
      greeted: the client has seen HelloAck on it; resuming: the client asked to resume. */
  datatype Link = Link(
    id: StreamId,
    window: nat,
    session: bytes,
    c: ClientSide,
    h: HelperSide,
    up: seq<Frame>,
    down: seq<Frame>,
    online: bool,
    greeted: bool,
    resuming: bool)

  /** What the directory says to an Open: whether it is full, and whether the target is allowed. */
  datatype Gate = Gate(full: bool, permitted: bool)

  datatype Event =
    | ClientOpens(addr: TargetAddr)
    | Command(cmd: C.Command)
    | ClientRecv(localOk: bool)
    | HelperRecv(keepAll: bool, gate: Gate, linked: bool)
    | HelperTask(t: H.TaskStep)
    | HelperFails(reset: Option<ResetCode>)
    | Connect(newProcess: bool, resume: bool)
    | Disconnect
    | DropUp(k: nat)
    | DropDown(k: nat)
    | RepeatUp(k: nat, at: nat)
    | RepeatDown(k: nat, at: nat)

  predicate Shaped(l: Link)
  {
    && 0 < l.window
    && (l.c.CLive? ==> l.c.st.tx.Valid())
    && (l.h.HLive? ==> l.h.h.up.tx.Valid())
  }

  /** Frames that may turn up twice: all but the handshake and Open, which would start another incarnation. */
  predicate Repeatable(f: Frame) { !f.Hello? && !f.HelloAck? && !f.Open? }

  predicate CanHappen(l: Link, e: Event)
    requires Shaped(l)
  {
    match e
    case ClientOpens(_) => l.online && l.c.CNone?
    case Command(cmd) => l.c.CLive? && cmd.id == l.id && (cmd.LocalData? ==> !l.c.st.localFin)
    case ClientRecv(_) => l.online && l.down != [] && (l.down[0].HelloAck? || l.greeted)
    case HelperRecv(keepAll, _, _) => l.online && l.up != [] && (l.up[0].Hello? && keepAll ==> l.up[0].resume)
    case HelperTask(t) => l.h.HLive? && H.CanTask(l.h.h, t)
    case HelperFails(_) => l.h.HLive?
    case Connect(_, _) => !l.online
    case Disconnect => l.online
    case DropUp(k) => k < |l.up|
    case DropDown(k) => k < |l.down|
    case RepeatUp(k, at) => k < |l.up| && at <= |l.up| && Repeatable(l.up[k])
    case RepeatDown(k, at) => k < |l.down| && at <= |l.down| && Repeatable(l.down[k])
  }

  // ---- The two endpoints' moves ----

  function CSettle(o: C.Outcome): ClientSide { if o.live then CLive(o.st) else CGone(o.st) }

  function HSettle(o: H.Outcome): HelperSide { if o.live then HLive(o.st) else HGone(o.st) }

  function HDrop(h: HelperSide): HelperSide { if h.HLive? then HGone(h.h) else h }

  /** Frames put out while no channel is up are lost. */
  function SendUp(l: Link, fs: seq<Frame>): Link { if l.online then l.(up := l.up + fs) else l }

  function SendDown(l: Link, fs: seq<Frame>): Link { if l.online then l.(down := l.down + fs) else l }

  function ClientTakes(l: Link, f: Frame, localOk: bool): Link
    requires Shaped(l)
  {
    if f.HelloAck? then
      var l1 := l.(greeted := true);
      if !l.resuming || !l.c.CLive? then l1
      else if f.resumed then SendUp(l1, [Resume(l.id, |l.c.st.rx.got|)])
      else l1.(c := CGone(l.c.st))
    else if f.StreamOf() != Some(l.id) then l
    else if l.c.CLive? then
      var o := C.FrameOutcome(l.c.st, f, localOk);
      SendUp(l.(c := CSettle(o)), o.out)
    else SendUp(l, if f.Data? then [Reset(l.id, UnknownStream)] else [])
  }

  function HelperTakes(l: Link, f: Frame, keepAll: bool, gate: Gate, linked: bool): Link
    requires Shaped(l)
  {
    if f.Hello? then
      SendDown(l.(h := if keepAll then l.h else HDrop(l.h)), [HelloAck(PROTO_VERSION, f.session, keepAll)])
    else if f.StreamOf() != Some(l.id) then l
    else if l.h.HLive? then
      var o := H.OnFrame(l.h.h, f, linked);
      SendDown(l.(h := HSettle(o)), o.out)
    else if f.Open? then
      var refusal := H.Refusal(l.id, false, gate.full, gate.permitted);
      if refusal == [] then l.(h := HLive(H.NewHStream(l.window))) else SendDown(l, refusal)
    else SendDown(l, H.OnUnknown(f))
  }

  function Next(l: Link, e: Event): (l': Link)
    requires Shaped(l) && CanHappen(l, e)
  {
    match e
    case ClientOpens(addr) => SendUp(l.(c := CLive(M.NewStream(l.window))), [Open(l.id, addr)])
    case Command(cmd) =>
      var o := if l.online then C.OnlineOutcome(l.c.st, cmd) else C.OfflineOutcome(l.c.st, cmd);
      SendUp(l.(c := CSettle(o)), o.out)
    case ClientRecv(localOk) => ClientTakes(l.(down := l.down[1..]), l.down[0], localOk)
    case HelperRecv(keepAll, gate, linked) =>
      HelperTakes(l.(up := l.up[1..]), l.up[0], keepAll, gate, linked)
    case HelperTask(t) =>
      var o := H.Task(l.id, l.h.h, t);
      SendDown(l.(h := HSettle(o)), o.out)
    case HelperFails(reset) =>
      SendDown(l.(h := HDrop(l.h)), if reset.Some? then [Reset(l.id, reset.value)] else [])
    case Connect(newProcess, resume) =>
      l.(online := true, greeted := false, resuming := resume, down := [],
         up := [Hello(PROTO_VERSION, l.session, resume)], h := if newProcess then HDrop(l.h) else l.h)
    case Disconnect => l.(online := false, up := [], down := [])
    case DropUp(k) => l.(up := Without(l.up, k))
    case DropDown(k) => l.(down := Without(l.down, k))
    case RepeatUp(k, at) => l.(up := WithCopy(l.up, k, at))
    case RepeatDown(k, at) => l.(down := WithCopy(l.down, k, at))
  }

  // ---- The two lanes of a link ----

  function ItemOf(f: Frame): seq<Item>
  {
    match f
    case Data(_, offset, data) => [Chunk(offset, data)]
    case Fin(_) => [FinMark]
    case _ => []
  }

  function NoteOf(f: Frame): seq<Note>
  {
    match f
    case Ack(_, offset) => [AckNote(offset)]
    case Resume(_, offset) => [RewindNote(offset)]
    case ResumeOk(_, offset) => [RewindNote(offset)]
    case _ => []
  }

  function Items(fs: seq<Frame>): seq<Item>
  {
    if fs == [] then [] else ItemOf(fs[0]) + Items(fs[1..])
  }

  function Notes(fs: seq<Frame>): seq<Note>
  {
    if fs == [] then [] else NoteOf(fs[0]) + Notes(fs[1..])
  }

  lemma {:induction false} ItemsAppend(fs: seq<Frame>, gs: seq<Frame>)
    ensures Items(fs + gs) == Items(fs) + Items(gs)
  {
    if fs == [] {
      assert fs + gs == gs;
    } else {
      assert (fs + gs)[1..] == fs[1..] + gs && (fs + gs)[0] == fs[0];
      ItemsAppend(fs[1..], gs);
    }
  }

  lemma {:induction false} NotesAppend(fs: seq<Frame>, gs: seq<Frame>)
    ensures Notes(fs + gs) == Notes(fs) + Notes(gs)
  {
    if fs == [] {
      assert fs + gs == gs;
    } else {
      assert (fs + gs)[1..] == fs[1..] + gs && (fs + gs)[0] == fs[0];
      NotesAppend(fs[1..], gs);
    }
  }

  function ClientTx(l: Link): Window requires 0 < l.window { if l.c.CNone? then NewWindow(l.window) else l.c.st.tx }

  function ClientGot(l: Link): bytes { if l.c.CNone? then [] else l.c.st.rx.got }

  function HelperTx(l: Link): Window requires 0 < l.window { if l.h.HNone? then NewWindow(l.window) else l.h.h.up.tx }

  function HelperGot(l: Link): bytes { if l.h.HNone? then [] else l.h.h.recv.got }

  /** What the egress task has taken from its buffer and not yet sent. */
  function TakenBy(u: U.Uplink): seq<Item>
  {
    if u.pc.Sending? then [Chunk(u.pc.seg.offset, u.pc.seg.data)] else []
  }

  function HeldBy(h: HelperSide): seq<Item> { if h.HLive? then TakenBy(h.h.up) else [] }

  /** Client to helper. */
  function UpLane(l: Link): Lane
    requires 0 < l.window
  {
    Lane(ClientTx(l), [], Items(l.up), HelperGot(l), Notes(l.down))
  }

  /** Helper to client. */
  function DownLane(l: Link): Lane
    requires 0 < l.window
  {
    Lane(HelperTx(l), HeldBy(l.h), Items(l.down), ClientGot(l), Notes(l.up))
  }

  /** The channel of this link carries its own frames and the handshake, nothing else. */
  predicate Own(fs: seq<Frame>, id: StreamId)
  {
    forall i :: 0 <= i < |fs| ==> fs[i].StreamOf() == Some(id) || fs[i].StreamOf().None?
  }

  predicate NoneOf(fs: seq<Frame>, id: StreamId)
  {
    forall i :: 0 <= i < |fs| ==> fs[i].StreamOf() != Some(id)
  }

  predicate NoOpen(fs: seq<Frame>) { forall i :: 0 <= i < |fs| ==> !fs[i].Open? }

  /** An Open is on its way at most once, and only to a helper that never had the stream. */
  predicate OpenOnce(l: Link)
  {
    && (l.c.CNone? ==> l.h.HNone? && NoneOf(l.up, l.id) && NoneOf(l.down, l.id))
    && (!l.h.HNone? ==> NoOpen(l.up))
    && (forall i, j :: 0 <= i < j < |l.up| ==> !(l.up[i].Open? && l.up[j].Open?))
  }

  /** The frames on the channel are in order as far as opening goes. */
  predicate Tidy(l: Link)
  {
    && OpenOnce(l) && Own(l.up, l.id) && Own(l.down, l.id)
    && (!l.online ==> l.up == [] && l.down == [])
  }

  /** Both lanes are sound. */
  predicate SoundLanes(l: Link)
    requires 0 < l.window
  {
    Sound(UpLane(l)) && Sound(DownLane(l))
  }

  /** In both directions the acks and resume offsets in flight are in the order in which they were sent. */
  predicate OrderedLanes(l: Link)
    requires 0 < l.window
  {
    Ordered(ClientTx(l).acked, Notes(l.down)) && Ordered(HelperTx(l).acked, Notes(l.up))
  }

  predicate ClientOk(c: ClientSide)
  {
    c.CLive? ==> c.st.tx.Valid() && c.st.reset.None? && (c.st.tx.fin ==> c.st.localFin)
  }

  predicate HelperOk(h: HelperSide)
  {
    && (!h.HNone? ==>
          && U.Inv(h.h.up) && H.Reported(h.h)
          && h.h.down.written <= h.h.recv.got)
    && (h.HLive? ==> H.Good(h.h)) && (h.HGone? ==> H.Accounted(h.h))
  }

  /** What holds in every run, whatever the channel drops, repeats, overtakes or cuts. */
  predicate Inv(l: Link)
  {
    0 < l.window && SoundLanes(l) && ClientOk(l.c) && HelperOk(l.h) && Tidy(l)
  }

  /** What holds besides as long as nothing is repeated. */
  predicate Orderly(l: Link) { Inv(l) && OrderedLanes(l) }
}
