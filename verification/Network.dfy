/** The whole system: one client, one helper, any number of streams over one channel. Seen through any
    single stream it is a link, so whatever holds of every link holds of every stream of the system. */
module Network {
  import opened Prelude
  import opened Frames
  import opened Lane
  import Link
  import S = SessionDriver
  import M = Mux
  import C = Driver
  import H = HelperStream
  import T = LinkTheorems
  import Safety = LinkSafety

  type Clients = map<StreamId, Link.ClientSide>
  type Helpers = map<StreamId, Link.HelperSide>

  /** clients and helpers keep the last state of a stream that was dropped. */
  datatype Network = Network(
    window: nat,
    session: bytes,
    maxStreams: nat,
    clients: Clients,
    helpers: Helpers,
    helperSession: Option<bytes>,
    up: seq<Frame>,
    down: seq<Frame>,
    online: bool,
    greeted: bool,
    resuming: bool)

  /** The streams the client's mux holds, and those in the helper's directory. */
  function Held(m: Clients): map<StreamId, M.StreamState> { map id | id in m && m[id].CLive? :: m[id].st }

  function Directory(m: Helpers): map<StreamId, H.HStream> { map id | id in m && m[id].HLive? :: m[id].h }

  function ClientSide(m: Clients, id: StreamId): Link.ClientSide { if id in m then m[id] else Link.CNone }

  function HelperSide(m: Helpers, id: StreamId): Link.HelperSide { if id in m then m[id] else Link.HNone }

  function LoseClients(m: Clients): Clients
  {
    map id | id in m :: if m[id].CLive? then Link.CGone(m[id].st) else m[id]
  }

  function LoseHelpers(m: Helpers): Helpers { map id | id in m :: Link.HDrop(m[id]) }

  datatype Event =
    | Opens(id: StreamId, addr: TargetAddr)
    | Command(cmd: C.Command)
    | ClientRecv(localOk: bool, resumes: seq<Frame>)
    | HelperRecv(permitted: bool, linked: bool)
    | HelperTask(id: StreamId, t: H.TaskStep)
    | HelperFails(id: StreamId, reset: Option<ResetCode>)
    | Connect(newProcess: bool)
    | Disconnect
    | DropUp(k: nat)
    | DropDown(k: nat)
    | RepeatUp(k: nat, at: nat)
    | RepeatDown(k: nat, at: nat)

  predicate Shaped(s: Network)
  {
    && 0 < s.window
    && (forall id :: id in s.clients && s.clients[id].CLive? ==> s.clients[id].st.tx.Valid())
    && (forall id :: id in s.helpers && s.helpers[id].HLive? ==> s.helpers[id].h.up.tx.Valid())
  }

  /** An identifier is opened once: this is a run before the 32-bit identifiers wrap around.
      resumes: the resume requests in the order in which the table yields the streams. */
  ghost predicate CanHappen(s: Network, e: Event)
    requires Shaped(s)
  {
    match e
    case Opens(id, _) => s.online && id !in s.clients
    case Command(cmd) =>
      && cmd.id in s.clients && s.clients[cmd.id].CLive?
      && (cmd.LocalData? ==> !s.clients[cmd.id].st.localFin)
    case ClientRecv(_, resumes) =>
      && s.online && s.down != [] && (s.down[0].HelloAck? || s.greeted)
      && (s.down[0].HelloAck? && s.resuming ==> S.ResumesAll(resumes, Held(s.clients)))
    case HelperRecv(_, _) => s.online && s.up != []
    case HelperTask(id, t) => id in s.helpers && s.helpers[id].HLive? && H.CanTask(s.helpers[id].h, t)
    case HelperFails(id, _) => id in s.helpers && s.helpers[id].HLive?
    case Connect(_) => !s.online
    case Disconnect => s.online
    case DropUp(k) => k < |s.up|
    case DropDown(k) => k < |s.down|
    case RepeatUp(k, at) => k < |s.up| && at <= |s.up| && Link.Repeatable(s.up[k])
    case RepeatDown(k, at) => k < |s.down| && at <= |s.down| && Link.Repeatable(s.down[k])
  }

  function SendUp(s: Network, fs: seq<Frame>): Network { if s.online then s.(up := s.up + fs) else s }

  function SendDown(s: Network, fs: seq<Frame>): Network { if s.online then s.(down := s.down + fs) else s }

  function ClientSettles(s: Network, id: StreamId, o: C.Outcome): Network
  {
    SendUp(s.(clients := s.clients[id := Link.CSettle(o)]), o.out)
  }

  function HelperSettles(s: Network, id: StreamId, o: H.Outcome): Network
  {
    SendDown(s.(helpers := s.helpers[id := Link.HSettle(o)]), o.out)
  }

  function ClientTakes(s: Network, f: Frame, localOk: bool, resumes: seq<Frame>): Network
    requires Shaped(s)
  {
    if f.HelloAck? then
      var s1 := s.(greeted := true);
      if !s.resuming then s1
      else if f.resumed then SendUp(s1, resumes)
      else s1.(clients := LoseClients(s.clients))
    else if f.StreamOf().None? then SendUp(s, if f.Ping? then [Pong(f.nonce)] else [])
    else if f.id in Held(s.clients) then
      ClientSettles(s, f.id, C.FrameOutcome(Held(s.clients)[f.id], f, localOk))
    else SendUp(s, if f.Data? then [Reset(f.id, UnknownStream)] else [])
  }

  /** What the helper answers to Hello, and so whether it keeps its streams. */
  function Resumed(s: Network, f: Frame): bool
    requires f.Hello?
  {
    f.resume && s.helperSession == Some(f.session) && Directory(s.helpers) != map[]
  }

  function HelperTakes(s: Network, f: Frame, permitted: bool, linked: bool): Network
    requires Shaped(s)
  {
    if f.Hello? then
      var keep := Resumed(s, f);
      SendDown(if keep then s else s.(helpers := LoseHelpers(s.helpers), helperSession := Some(f.session)),
               [HelloAck(PROTO_VERSION, f.session, keep)])
    else if f.StreamOf().None? then SendDown(s, if f.Ping? then [Pong(f.nonce)] else [])
    else if f.id in Directory(s.helpers) then
      HelperSettles(s, f.id, H.OnFrame(Directory(s.helpers)[f.id], f, linked))
    else if f.Open? then
      var refusal := H.Refusal(f.id, false, Full(s), permitted);
      if refusal == [] then s.(helpers := s.helpers[f.id := Link.HLive(H.NewHStream(s.window))])
      else SendDown(s, refusal)
    else SendDown(s, H.OnUnknown(f))
  }

  predicate Full(s: Network) { |Directory(s.helpers)| >= s.maxStreams }

  function Next(s: Network, e: Event): (s': Network)
    requires Shaped(s) && CanHappen(s, e)
  {
    match e
    case Opens(id, addr) =>
      SendUp(s.(clients := s.clients[id := Link.CLive(M.NewStream(s.window))]), [Open(id, addr)])
    case Command(cmd) =>
      var st := s.clients[cmd.id].st;
      ClientSettles(s, cmd.id, if s.online then C.OnlineOutcome(st, cmd) else C.OfflineOutcome(st, cmd))
    case ClientRecv(localOk, resumes) => ClientTakes(s.(down := s.down[1..]), s.down[0], localOk, resumes)
    case HelperRecv(permitted, linked) => HelperTakes(s.(up := s.up[1..]), s.up[0], permitted, linked)
    case HelperTask(id, t) => HelperSettles(s, id, H.Task(id, s.helpers[id].h, t))
    case HelperFails(id, reset) =>
      SendDown(s.(helpers := s.helpers[id := Link.HDrop(s.helpers[id])]),
               if reset.Some? then [Reset(id, reset.value)] else [])
    case Connect(newProcess) =>
      var resume := Held(s.clients) != map[];
      s.(online := true, greeted := false, resuming := resume, down := [],
         up := [Hello(PROTO_VERSION, s.session, resume)],
         helpers := if newProcess then LoseHelpers(s.helpers) else s.helpers,
         helperSession := if newProcess then None else s.helperSession)
    case Disconnect => s.(online := false, up := [], down := [])
    case DropUp(k) => s.(up := Without(s.up, k))
    case DropDown(k) => s.(down := Without(s.down, k))
    case RepeatUp(k, at) => s.(up := WithCopy(s.up, k, at))
    case RepeatDown(k, at) => s.(down := WithCopy(s.down, k, at))
  }

  // ---- One stream's view ----

  predicate Concerns(f: Frame, id: StreamId) { f.StreamOf() == Some(id) || f.Hello? || f.HelloAck? }

  /** The frames that concern one stream: its own and the handshake. */
  function Mine(fs: seq<Frame>, id: StreamId): seq<Frame>
  {
    if fs == [] then [] else (if Concerns(fs[0], id) then [fs[0]] else []) + Mine(fs[1..], id)
  }

  /** Where position k of the channel is in the stream's own view of it. */
  function Place(fs: seq<Frame>, k: nat, id: StreamId): nat
    requires k <= |fs|
  {
    |Mine(fs[..k], id)|
  }

  function View(s: Network, id: StreamId): Link.Link
  {
    Link.Link(id, s.window, s.session, ClientSide(s.clients, id), HelperSide(s.helpers, id),
              Mine(s.up, id), Mine(s.down, id), s.online, s.greeted, s.resuming)
  }

  /** What an event of the system is for one stream; None when it does not notice. */
  function Seen(s: Network, e: Event, id: StreamId): Option<Link.Event>
    requires Shaped(s) && CanHappen(s, e)
  {
    match e
    case Opens(i, addr) => if i == id then Some(Link.ClientOpens(addr)) else None
    case Command(cmd) => if cmd.id == id then Some(Link.Command(cmd)) else None
    case ClientRecv(localOk, _) => if Concerns(s.down[0], id) then Some(Link.ClientRecv(localOk)) else None
    case HelperRecv(permitted, linked) =>
      if Concerns(s.up[0], id) then
        Some(Link.HelperRecv(s.up[0].Hello? && Resumed(s, s.up[0]), Link.Gate(Full(s), permitted), linked))
      else None
    case HelperTask(i, t) => if i == id then Some(Link.HelperTask(t)) else None
    case HelperFails(i, reset) => if i == id then Some(Link.HelperFails(reset)) else None
    case Connect(newProcess) => Some(Link.Connect(newProcess, Held(s.clients) != map[]))
    case Disconnect => Some(Link.Disconnect)
    case DropUp(k) => if Concerns(s.up[k], id) then Some(Link.DropUp(Place(s.up, k, id))) else None
    case DropDown(k) => if Concerns(s.down[k], id) then Some(Link.DropDown(Place(s.down, k, id))) else None
    case RepeatUp(k, at) =>
      if Concerns(s.up[k], id) then Some(Link.RepeatUp(Place(s.up, k, id), Place(s.up, at, id))) else None
    case RepeatDown(k, at) =>
      if Concerns(s.down[k], id) then Some(Link.RepeatDown(Place(s.down, k, id), Place(s.down, at, id))) else None
  }

  lemma {:induction false} MineAppend(fs: seq<Frame>, gs: seq<Frame>, id: StreamId)
    ensures Mine(fs + gs, id) == Mine(fs, id) + Mine(gs, id)
  {
    if fs == [] {
      assert fs + gs == gs;
    } else {
      assert (fs + gs)[1..] == fs[1..] + gs && (fs + gs)[0] == fs[0];
      MineAppend(fs[1..], gs, id);
      var head := if Concerns(fs[0], id) then [fs[0]] else [];
      assert head + (Mine(fs[1..], id) + Mine(gs, id)) == (head + Mine(fs[1..], id)) + Mine(gs, id);
    }
  }

  lemma MineCut(fs: seq<Frame>, k: nat, id: StreamId)
    requires k <= |fs|
    ensures Mine(fs, id) == Mine(fs[..k], id) + Mine(fs[k..], id)
  {
    var a, b := fs[..k], fs[k..];
    assert fs == a + b;
    MineAppend(a, b, id);
  }

  /** The k-th frame, if it concerns the stream, and the rest. */
  lemma MineAt(fs: seq<Frame>, k: nat, id: StreamId)
    requires k < |fs|
    ensures Concerns(fs[k], id) ==> Mine(fs, id) == Mine(fs[..k], id) + ([fs[k]] + Mine(fs[k + 1..], id))
    ensures Concerns(fs[k], id) ==> Place(fs, k, id) < |Mine(fs, id)| && Mine(fs, id)[Place(fs, k, id)] == fs[k]
    ensures !Concerns(fs[k], id) ==> Mine(fs, id) == Mine(fs[..k], id) + Mine(fs[k + 1..], id)
  {
    MineCut(fs, k, id);
    MineHead(fs[k..], id);
    assert fs[k..][0] == fs[k] && fs[k..][1..] == fs[k + 1..];
  }

  lemma WithoutMiddle(a: seq<Frame>, f: Frame, c: seq<Frame>)
    ensures |a| < |a + ([f] + c)| && Without(a + ([f] + c), |a|) == a + c
  {
  }

  lemma MineWithout(fs: seq<Frame>, k: nat, id: StreamId)
    requires k < |fs|
    ensures Concerns(fs[k], id) ==> Place(fs, k, id) < |Mine(fs, id)|
                                    && Mine(Without(fs, k), id) == Without(Mine(fs, id), Place(fs, k, id))
    ensures !Concerns(fs[k], id) ==> Mine(Without(fs, k), id) == Mine(fs, id)
  {
    MineAt(fs, k, id);
    MineAppend(fs[..k], fs[k + 1..], id);
    if Concerns(fs[k], id) { WithoutMiddle(Mine(fs[..k], id), fs[k], Mine(fs[k + 1..], id)); }
  }

  lemma CopyBetween(a: seq<Frame>, c: seq<Frame>, k: nat)
    requires k < |a + c|
    ensures WithCopy(a + c, k, |a|) == a + ([(a + c)[k]] + c)
  {
    assert (a + c)[..|a|] == a && (a + c)[|a|..] == c;
  }

  lemma MineInserted(fs: seq<Frame>, at: nat, f: Frame, id: StreamId)
    requires at <= |fs|
    ensures Concerns(f, id) ==> Mine(fs[..at] + [f] + fs[at..], id) == Mine(fs[..at], id) + ([f] + Mine(fs[at..], id))
    ensures !Concerns(f, id) ==> Mine(fs[..at] + [f] + fs[at..], id) == Mine(fs[..at], id) + Mine(fs[at..], id)
  {
    var tail := [f] + fs[at..];
    assert fs[..at] + [f] + fs[at..] == fs[..at] + tail;
    MineAppend(fs[..at], tail, id);
    MineHead(tail, id);
    assert tail[0] == f && tail[1..] == fs[at..];
  }

  lemma MineWithCopy(fs: seq<Frame>, k: nat, at: nat, id: StreamId)
    requires k < |fs| && at <= |fs|
    ensures Place(fs, at, id) <= |Mine(fs, id)|
    ensures Concerns(fs[k], id) ==>
              && Place(fs, k, id) < |Mine(fs, id)|
              && Mine(WithCopy(fs, k, at), id) == WithCopy(Mine(fs, id), Place(fs, k, id), Place(fs, at, id))
    ensures !Concerns(fs[k], id) ==> Mine(WithCopy(fs, k, at), id) == Mine(fs, id)
  {
    MineAt(fs, k, id);
    MineCut(fs, at, id);
    MineInserted(fs, at, fs[k], id);
    if Concerns(fs[k], id) { CopyBetween(Mine(fs[..at], id), Mine(fs[at..], id), Place(fs, k, id)); }
  }

  /** Every frame belongs to stream i. */
  predicate AllOf(fs: seq<Frame>, i: StreamId) { forall k :: 0 <= k < |fs| ==> fs[k].StreamOf() == Some(i) }

  lemma {:induction false} MineOfOne(fs: seq<Frame>, i: StreamId, id: StreamId)
    requires AllOf(fs, i)
    ensures Mine(fs, id) == if i == id then fs else []
  {
    if fs != [] {
      MineOfOne(fs[1..], i, id);
      assert fs == [fs[0]] + fs[1..];
    }
  }

  lemma {:induction false} MineOfStreams(fs: seq<Frame>, id: StreamId)
    requires forall k :: 0 <= k < |fs| ==> fs[k].Resume?
    ensures Mine(fs, id) == OnStream(fs, id)
  {
    if fs != [] { MineOfStreams(fs[1..], id); }
  }

  /** What is sent for stream i is seen by i alone. */
  lemma SentBy(s: Network, fs: seq<Frame>, i: StreamId, id: StreamId)
    requires AllOf(fs, i)
    ensures View(SendUp(s, fs), id) == if i == id then Link.SendUp(View(s, id), fs) else View(s, id)
    ensures View(SendDown(s, fs), id) == if i == id then Link.SendDown(View(s, id), fs) else View(s, id)
  {
    MineAppend(s.up, fs, id);
    MineAppend(s.down, fs, id);
    MineOfOne(fs, i, id);
    assert Mine(s.up, id) + [] == Mine(s.up, id) && Mine(s.down, id) + [] == Mine(s.down, id);
  }

  // ---- Everything sent on behalf of a stream carries its identifier ----

  lemma DrainIsOwn(id: StreamId, st: M.StreamState, k: nat)
    requires st.tx.Valid()
    ensures AllOf(M.Drain(id, st, k).1, id)
  {
    var fs := M.DataFrames(id, st.tx, k);
    forall i | 0 <= i < |fs| ensures fs[i].StreamOf() == Some(id) { M.FrameCountCovers(st.tx.Pending(), i); }
  }

  lemma ClientOutIsOwn(st: M.StreamState, f: Frame, localOk: bool)
    requires st.tx.Valid() && f.StreamOf().Some?
    ensures AllOf(C.FrameOutcome(st, f, localOk).out, f.id)
  {
    if f.ResumeOk? && st.tx.Rewind(f.recvOffset).Ok? {
      DrainIsOwn(f.id, st.(tx := st.tx.Rewind(f.recvOffset).value), C.DRAIN_BATCH);
    }
  }

  lemma CommandOutIsOwn(st: M.StreamState, cmd: C.Command)
    requires st.tx.Valid()
    ensures AllOf(C.OnlineOutcome(st, cmd).out, cmd.id) && AllOf(C.OfflineOutcome(st, cmd).out, cmd.id)
  {
    match cmd {
      case LocalData(id, data) => DrainIsOwn(id, st.(tx := st.tx.Push(data)), C.DRAIN_BATCH);
      case LocalEof(id) => DrainIsOwn(id, st.(localFin := true), C.DRAIN_BATCH);
      case LocalClose(_) =>
    }
  }

  lemma HelperOutIsOwn(h: H.HStream, f: Frame, linked: bool)
    requires h.up.tx.Valid() && f.StreamOf().Some?
    ensures AllOf(H.OnFrame(h, f, linked).out, f.id) && AllOf(H.OnUnknown(f), f.id)
  {
  }

  // ---- The projection, event by event ----

  /** The event a stream sees is one its link allows. */
  ghost predicate Allowed(s: Network, e: Event, id: StreamId)
    requires Shaped(s) && CanHappen(s, e)
  {
    && Link.Shaped(View(s, id))
    && (Seen(s, e, id).Some? ==> Link.CanHappen(View(s, id), Seen(s, e, id).value))
  }

  /** One event of the system is one event of the link, or nothing. */
  function Follows(s: Network, e: Event, id: StreamId): Link.Link
    requires Shaped(s) && CanHappen(s, e) && Allowed(s, e, id)
  {
    match Seen(s, e, id)
    case None => View(s, id)
    case Some(le) => Link.Next(View(s, id), le)
  }

  lemma MineHead(fs: seq<Frame>, id: StreamId)
    requires fs != []
    ensures Mine(fs, id) == (if Concerns(fs[0], id) then [fs[0]] else []) + Mine(fs[1..], id)
    ensures Concerns(fs[0], id) ==>
              Mine(fs, id) != [] && Mine(fs, id)[0] == fs[0] && Mine(fs, id)[1..] == Mine(fs[1..], id)
    ensures !Concerns(fs[0], id) ==> Mine(fs, id) == Mine(fs[1..], id)
  {
  }

  lemma CommandProjects(s: Network, cmd: C.Command, id: StreamId)
    requires Shaped(s) && CanHappen(s, Command(cmd))
    requires Allowed(s, Command(cmd), id)
    ensures View(Next(s, Command(cmd)), id) == Follows(s, Command(cmd), id)
  {
    var st := s.clients[cmd.id].st;
    var o := if s.online then C.OnlineOutcome(st, cmd) else C.OfflineOutcome(st, cmd);
    CommandOutIsOwn(st, cmd);
    SentBy(s.(clients := s.clients[cmd.id := Link.CSettle(o)]), o.out, cmd.id, id);
  }

  lemma OpensProjects(s: Network, i: StreamId, addr: TargetAddr, id: StreamId)
    requires Shaped(s) && CanHappen(s, Opens(i, addr))
    requires Allowed(s, Opens(i, addr), id)
    ensures View(Next(s, Opens(i, addr)), id) == Follows(s, Opens(i, addr), id)
  {
    SentBy(s.(clients := s.clients[i := Link.CLive(M.NewStream(s.window))]), [Open(i, addr)], i, id);
  }

  lemma GreetingProjects(s: Network, localOk: bool, resumes: seq<Frame>, id: StreamId)
    requires Shaped(s) && CanHappen(s, ClientRecv(localOk, resumes)) && s.down[0].HelloAck?
    requires Allowed(s, ClientRecv(localOk, resumes), id)
    ensures View(Next(s, ClientRecv(localOk, resumes)), id) == Follows(s, ClientRecv(localOk, resumes), id)
  {
    MineHead(s.down, id);
    MineAppend(s.up, resumes, id);
    if s.resuming { MineOfStreams(resumes, id); }
    if s.resuming { assert S.ResumesOne(resumes, Held(s.clients), id); }
    assert Mine(s.up, id) + [] == Mine(s.up, id);
  }

  lemma ClientLiveProjects(s: Network, localOk: bool, resumes: seq<Frame>, id: StreamId)
    requires Shaped(s) && CanHappen(s, ClientRecv(localOk, resumes))
    requires s.down[0].StreamOf().Some? && s.down[0].id in Held(s.clients)
    requires Allowed(s, ClientRecv(localOk, resumes), id)
    ensures View(Next(s, ClientRecv(localOk, resumes)), id) == Follows(s, ClientRecv(localOk, resumes), id)
  {
    var f := s.down[0];
    var st := Held(s.clients)[f.id];
    var o := C.FrameOutcome(st, f, localOk);
    MineHead(s.down, id);
    ClientOutIsOwn(st, f, localOk);
    var s1 := s.(down := s.down[1..], clients := s.clients[f.id := Link.CSettle(o)]);
    ClientSettledNext(s, localOk, resumes);
    SentBy(s1, o.out, f.id, id);
    if f.id == id { ClientSettledLink(View(s, id), localOk); }
  }

  lemma ClientSettledNext(s: Network, localOk: bool, resumes: seq<Frame>)
    requires Shaped(s) && CanHappen(s, ClientRecv(localOk, resumes))
    requires s.down[0].StreamOf().Some? && s.down[0].id in Held(s.clients)
    ensures var f := s.down[0];
            var o := C.FrameOutcome(Held(s.clients)[f.id], f, localOk);
            Next(s, ClientRecv(localOk, resumes))
            == SendUp(s.(down := s.down[1..], clients := s.clients[f.id := Link.CSettle(o)]), o.out)
  {
  }

  lemma ClientSettledLink(l: Link.Link, localOk: bool)
    requires Link.Shaped(l) && Link.CanHappen(l, Link.ClientRecv(localOk)) && l.c.CLive?
    requires l.down[0].StreamOf() == Some(l.id)
    ensures var o := C.FrameOutcome(l.c.st, l.down[0], localOk);
            Link.Next(l, Link.ClientRecv(localOk))
            == Link.SendUp(l.(down := l.down[1..], c := Link.CSettle(o)), o.out)
  {
  }

  lemma HelperSettledNext(s: Network, permitted: bool, linked: bool)
    requires Shaped(s) && CanHappen(s, HelperRecv(permitted, linked))
    requires s.up[0].StreamOf().Some? && s.up[0].id in Directory(s.helpers)
    ensures var f := s.up[0];
            var o := H.OnFrame(Directory(s.helpers)[f.id], f, linked);
            Next(s, HelperRecv(permitted, linked))
            == SendDown(s.(up := s.up[1..], helpers := s.helpers[f.id := Link.HSettle(o)]), o.out)
  {
  }

  lemma HelperSettledLink(l: Link.Link, keepAll: bool, gate: Link.Gate, linked: bool)
    requires Link.Shaped(l) && Link.CanHappen(l, Link.HelperRecv(keepAll, gate, linked)) && l.h.HLive?
    requires l.up[0].StreamOf() == Some(l.id)
    ensures var o := H.OnFrame(l.h.h, l.up[0], linked);
            Link.Next(l, Link.HelperRecv(keepAll, gate, linked))
            == Link.SendDown(l.(up := l.up[1..], h := Link.HSettle(o)), o.out)
  {
  }

  lemma ClientStrangerProjects(s: Network, localOk: bool, resumes: seq<Frame>, id: StreamId)
    requires Shaped(s) && CanHappen(s, ClientRecv(localOk, resumes))
    requires s.down[0].StreamOf().Some? && s.down[0].id !in Held(s.clients)
    requires Allowed(s, ClientRecv(localOk, resumes), id)
    ensures View(Next(s, ClientRecv(localOk, resumes)), id) == Follows(s, ClientRecv(localOk, resumes), id)
  {
    var f := s.down[0];
    MineHead(s.down, id);
    SentBy(s.(down := s.down[1..]), if f.Data? then [Reset(f.id, UnknownStream)] else [], f.id, id);
  }

  lemma ClientPingProjects(s: Network, localOk: bool, resumes: seq<Frame>, id: StreamId)
    requires Shaped(s) && CanHappen(s, ClientRecv(localOk, resumes))
    requires s.down[0].StreamOf().None? && !s.down[0].HelloAck?
    requires Allowed(s, ClientRecv(localOk, resumes), id)
    ensures View(Next(s, ClientRecv(localOk, resumes)), id) == Follows(s, ClientRecv(localOk, resumes), id)
  {
    var f := s.down[0];
    MineHead(s.down, id);
    MineAppend(s.up, if f.Ping? then [Pong(f.nonce)] else [], id);
    assert Mine(s.up, id) + [] == Mine(s.up, id);
  }

  lemma LostView(s: Network, session: Option<bytes>, id: StreamId)
    ensures var lost := s.(helpers := LoseHelpers(s.helpers), helperSession := session);
            View(lost, id) == View(s, id).(h := Link.HDrop(View(s, id).h))
  {
  }

  lemma HelloProjects(s: Network, permitted: bool, linked: bool, id: StreamId)
    requires Shaped(s) && CanHappen(s, HelperRecv(permitted, linked)) && s.up[0].Hello?
    requires Allowed(s, HelperRecv(permitted, linked), id)
    ensures View(Next(s, HelperRecv(permitted, linked)), id) == Follows(s, HelperRecv(permitted, linked), id)
  {
    var f, s1 := s.up[0], s.(up := s.up[1..]);
    MineHead(s.up, id);
    var ack := [HelloAck(PROTO_VERSION, f.session, Resumed(s, f))];
    assert Mine(ack, id) == ack by { assert ack[1..] == []; }
    MineAppend(s.down, ack, id);
    LostView(s1, Some(f.session), id);
  }

  lemma HelperOtherUnseen(s: Network, permitted: bool, linked: bool, id: StreamId)
    requires Shaped(s) && CanHappen(s, HelperRecv(permitted, linked))
    requires s.up[0].StreamOf().Some? && s.up[0].id in Directory(s.helpers) && s.up[0].id != id
    ensures View(Next(s, HelperRecv(permitted, linked)), id) == View(s, id)
  {
    var f := s.up[0];
    var h := Directory(s.helpers)[f.id];
    var o := H.OnFrame(h, f, linked);
    MineHead(s.up, id);
    HelperOutIsOwn(h, f, linked);
    HelperSettledNext(s, permitted, linked);
    SentBy(s.(up := s.up[1..], helpers := s.helpers[f.id := Link.HSettle(o)]), o.out, f.id, id);
  }

  lemma HelperOwnSeen(s: Network, permitted: bool, linked: bool)
    requires Shaped(s) && CanHappen(s, HelperRecv(permitted, linked))
    requires s.up[0].StreamOf().Some? && s.up[0].id in Directory(s.helpers)
    ensures var f := s.up[0];
            var l, o := View(s, f.id), H.OnFrame(Directory(s.helpers)[f.id], f, linked);
            && l.up != [] && l.up[0] == f && l.h == Link.HLive(Directory(s.helpers)[f.id])
            && View(Next(s, HelperRecv(permitted, linked)), f.id)
               == Link.SendDown(l.(up := l.up[1..], h := Link.HSettle(o)), o.out)
  {
    var f := s.up[0];
    var h := Directory(s.helpers)[f.id];
    var o := H.OnFrame(h, f, linked);
    MineHead(s.up, f.id);
    HelperOutIsOwn(h, f, linked);
    HelperSettledNext(s, permitted, linked);
    SentBy(s.(up := s.up[1..], helpers := s.helpers[f.id := Link.HSettle(o)]), o.out, f.id, f.id);
  }

  lemma HelperLiveProjects(s: Network, permitted: bool, linked: bool, id: StreamId)
    requires Shaped(s) && CanHappen(s, HelperRecv(permitted, linked))
    requires s.up[0].StreamOf().Some? && s.up[0].id in Directory(s.helpers)
    requires Allowed(s, HelperRecv(permitted, linked), id)
    ensures View(Next(s, HelperRecv(permitted, linked)), id) == Follows(s, HelperRecv(permitted, linked), id)
  {
    if s.up[0].id == id {
      HelperOwnSeen(s, permitted, linked);
      HelperSettledLink(View(s, id), false, Link.Gate(Full(s), permitted), linked);
    } else {
      HelperOtherUnseen(s, permitted, linked, id);
    }
  }

  lemma HelperGrantsProjects(s: Network, permitted: bool, linked: bool, id: StreamId)
    requires Shaped(s) && CanHappen(s, HelperRecv(permitted, linked))
    requires s.up[0].Open? && s.up[0].id !in Directory(s.helpers)
    requires H.Refusal(s.up[0].id, false, Full(s), permitted) == []
    requires Allowed(s, HelperRecv(permitted, linked), id)
    ensures View(Next(s, HelperRecv(permitted, linked)), id) == Follows(s, HelperRecv(permitted, linked), id)
  {
    MineHead(s.up, id);
    OpenGrantedNext(s, permitted, linked);
    if s.up[0].id == id { OpenGrantedLink(View(s, id), false, Link.Gate(Full(s), permitted), linked); }
  }

  lemma OpenGrantedNext(s: Network, permitted: bool, linked: bool)
    requires Shaped(s) && CanHappen(s, HelperRecv(permitted, linked))
    requires s.up[0].Open? && s.up[0].id !in Directory(s.helpers)
    requires H.Refusal(s.up[0].id, false, Full(s), permitted) == []
    ensures Next(s, HelperRecv(permitted, linked))
            == s.(up := s.up[1..], helpers := s.helpers[s.up[0].id := Link.HLive(H.NewHStream(s.window))])
  {
  }

  lemma OpenGrantedLink(l: Link.Link, keepAll: bool, gate: Link.Gate, linked: bool)
    requires Link.Shaped(l) && Link.CanHappen(l, Link.HelperRecv(keepAll, gate, linked)) && !l.h.HLive?
    requires l.up[0].Open? && l.up[0].id == l.id && H.Refusal(l.id, false, gate.full, gate.permitted) == []
    ensures Link.Next(l, Link.HelperRecv(keepAll, gate, linked))
            == l.(up := l.up[1..], h := Link.HLive(H.NewHStream(l.window)))
  {
  }

  lemma RefusalIsOwn(id: StreamId, taken: bool, full: bool, permitted: bool)
    ensures AllOf(H.Refusal(id, taken, full, permitted), id)
  {
  }

  lemma RefusedNext(s: Network, permitted: bool, linked: bool)
    requires Shaped(s) && CanHappen(s, HelperRecv(permitted, linked))
    requires s.up[0].Open? && s.up[0].id !in Directory(s.helpers)
    ensures var refusal := H.Refusal(s.up[0].id, false, Full(s), permitted);
            refusal != [] ==> Next(s, HelperRecv(permitted, linked)) == SendDown(s.(up := s.up[1..]), refusal)
  {
  }

  lemma RefusedLinkNext(l: Link.Link, keepAll: bool, gate: Link.Gate, linked: bool)
    requires Link.Shaped(l) && Link.CanHappen(l, Link.HelperRecv(keepAll, gate, linked))
    requires l.up[0].Open? && l.up[0].id == l.id && !l.h.HLive?
    ensures var refusal := H.Refusal(l.id, false, gate.full, gate.permitted);
            refusal != [] ==>
              Link.Next(l, Link.HelperRecv(keepAll, gate, linked)) == Link.SendDown(l.(up := l.up[1..]), refusal)
  {
  }

  lemma HelperRefusesProjects(s: Network, permitted: bool, linked: bool, id: StreamId)
    requires Shaped(s) && CanHappen(s, HelperRecv(permitted, linked))
    requires s.up[0].Open? && s.up[0].id !in Directory(s.helpers)
    requires H.Refusal(s.up[0].id, false, Full(s), permitted) != []
    requires Allowed(s, HelperRecv(permitted, linked), id)
    ensures View(Next(s, HelperRecv(permitted, linked)), id) == Follows(s, HelperRecv(permitted, linked), id)
  {
    var i, refusal := s.up[0].id, H.Refusal(s.up[0].id, false, Full(s), permitted);
    RefusedNext(s, permitted, linked);
    RefusalIsOwn(i, false, Full(s), permitted);
    MineHead(s.up, id);
    SentBy(s.(up := s.up[1..]), refusal, i, id);
    if id == i { RefusedLinkNext(View(s, id), false, Link.Gate(Full(s), permitted), linked); }
  }

  lemma HelperStrangerProjects(s: Network, permitted: bool, linked: bool, id: StreamId)
    requires Shaped(s) && CanHappen(s, HelperRecv(permitted, linked))
    requires s.up[0].StreamOf().Some? && !s.up[0].Open? && s.up[0].id !in Directory(s.helpers)
    requires Allowed(s, HelperRecv(permitted, linked), id)
    ensures View(Next(s, HelperRecv(permitted, linked)), id) == Follows(s, HelperRecv(permitted, linked), id)
  {
    var f := s.up[0];
    MineHead(s.up, id);
    SentBy(s.(up := s.up[1..]), H.OnUnknown(f), f.id, id);
  }

  /** A frame that concerns no stream is seen by none. */
  lemma PongUnseen(s: Network, f: Frame, id: StreamId)
    requires f.Pong?
    ensures View(SendDown(s, [f]), id) == View(s, id) && View(SendUp(s, [f]), id) == View(s, id)
  {
    MineAppend(s.down, [f], id);
    MineAppend(s.up, [f], id);
    assert Mine([f], id) == [] by { assert [f][1..] == []; }
    assert Mine(s.down, id) + [] == Mine(s.down, id) && Mine(s.up, id) + [] == Mine(s.up, id);
  }

  lemma HelperPingProjects(s: Network, permitted: bool, linked: bool, id: StreamId)
    requires Shaped(s) && CanHappen(s, HelperRecv(permitted, linked))
    requires s.up[0].StreamOf().None? && !s.up[0].Hello?
    requires Allowed(s, HelperRecv(permitted, linked), id)
    ensures View(Next(s, HelperRecv(permitted, linked)), id) == Follows(s, HelperRecv(permitted, linked), id)
  {
    var f, s1 := s.up[0], s.(up := s.up[1..]);
    MineHead(s.up, id);
    if f.Ping? { PongUnseen(s1, Pong(f.nonce), id); } else { assert s.down + [] == s.down; }
  }

  lemma TaskProjects(s: Network, i: StreamId, t: H.TaskStep, id: StreamId)
    requires Shaped(s) && CanHappen(s, HelperTask(i, t))
    requires Allowed(s, HelperTask(i, t), id)
    ensures View(Next(s, HelperTask(i, t)), id) == Follows(s, HelperTask(i, t), id)
  {
    var o := H.Task(i, s.helpers[i].h, t);
    SentBy(s.(helpers := s.helpers[i := Link.HSettle(o)]), o.out, i, id);
  }

  lemma FailProjects(s: Network, i: StreamId, reset: Option<ResetCode>, id: StreamId)
    requires Shaped(s) && CanHappen(s, HelperFails(i, reset))
    requires Allowed(s, HelperFails(i, reset), id)
    ensures View(Next(s, HelperFails(i, reset)), id) == Follows(s, HelperFails(i, reset), id)
  {
    var out := if reset.Some? then [Reset(i, reset.value)] else [];
    SentBy(s.(helpers := s.helpers[i := Link.HDrop(s.helpers[i])]), out, i, id);
  }

  lemma ConnectProjects(s: Network, newProcess: bool, id: StreamId)
    requires Shaped(s) && CanHappen(s, Connect(newProcess))
    requires Allowed(s, Connect(newProcess), id)
    ensures View(Next(s, Connect(newProcess)), id) == Follows(s, Connect(newProcess), id)
  {
    var hello := [Hello(PROTO_VERSION, s.session, Held(s.clients) != map[])];
    assert Mine(hello, id) == hello by { assert hello[1..] == []; }
  }

  predicate Mess(e: Event) { e.DropUp? || e.DropDown? || e.RepeatUp? || e.RepeatDown? }

  lemma DropProjects(s: Network, e: Event, id: StreamId)
    requires Shaped(s) && CanHappen(s, e) && (e.DropUp? || e.DropDown?) && Allowed(s, e, id)
    ensures View(Next(s, e), id) == Follows(s, e, id)
  {
    if e.DropUp? { MineWithout(s.up, e.k, id); } else { MineWithout(s.down, e.k, id); }
  }

  lemma RepeatProjects(s: Network, e: Event, id: StreamId)
    requires Shaped(s) && CanHappen(s, e) && (e.RepeatUp? || e.RepeatDown?) && Allowed(s, e, id)
    ensures View(Next(s, e), id) == Follows(s, e, id)
  {
    if e.RepeatUp? { MineWithCopy(s.up, e.k, e.at, id); } else { MineWithCopy(s.down, e.k, e.at, id); }
  }

  /** What the channel drops or repeats, it drops or repeats for one stream, or for the handshake. */
  lemma MessProjects(s: Network, e: Event, id: StreamId)
    requires Shaped(s) && CanHappen(s, e) && Mess(e) && Allowed(s, e, id)
    ensures View(Next(s, e), id) == Follows(s, e, id)
  {
    if e.DropUp? || e.DropDown? { DropProjects(s, e, id); } else { RepeatProjects(s, e, id); }
  }

  lemma MessAllowed(s: Network, e: Event, id: StreamId)
    requires Shaped(s) && CanHappen(s, e) && Mess(e)
    ensures Allowed(s, e, id)
  {
    match e {
      case DropUp(k) => MineAt(s.up, k, id);
      case DropDown(k) => MineAt(s.down, k, id);
      case RepeatUp(k, at) =>
        MineAt(s.up, k, id);
        MineWithCopy(s.up, k, at, id);
      case RepeatDown(k, at) =>
        MineAt(s.down, k, id);
        MineWithCopy(s.down, k, at, id);
    }
  }

  lemma RecvAllowed(s: Network, e: Event, id: StreamId)
    requires Shaped(s) && CanHappen(s, e) && (e.ClientRecv? || e.HelperRecv?)
    ensures Allowed(s, e, id)
  {
    if e.ClientRecv? { MineHead(s.down, id); } else { MineHead(s.up, id); }
  }

  lemma IsAllowed(s: Network, e: Event, id: StreamId)
    requires Shaped(s) && CanHappen(s, e)
    ensures Allowed(s, e, id)
  {
    if Mess(e) {
      MessAllowed(s, e, id);
    } else if e.ClientRecv? || e.HelperRecv? {
      RecvAllowed(s, e, id);
    }
  }

  /** Whatever happens in the system, each stream sees one step of its own link, or nothing at all. */
  lemma EveryEventProjects(s: Network, e: Event, id: StreamId)
    requires Shaped(s) && CanHappen(s, e)
    ensures Allowed(s, e, id)
    ensures View(Next(s, e), id) == Follows(s, e, id)
  {
    IsAllowed(s, e, id);
    match e {
      case Opens(i, addr) => OpensProjects(s, i, addr, id);
      case Command(cmd) => CommandProjects(s, cmd, id);
      case ClientRecv(localOk, resumes) =>
        if s.down[0].HelloAck? {
          GreetingProjects(s, localOk, resumes, id);
        } else if s.down[0].StreamOf().None? {
          ClientPingProjects(s, localOk, resumes, id);
        } else if s.down[0].id in Held(s.clients) {
          ClientLiveProjects(s, localOk, resumes, id);
        } else {
          ClientStrangerProjects(s, localOk, resumes, id);
        }
      case HelperRecv(permitted, linked) =>
        if s.up[0].Hello? {
          HelloProjects(s, permitted, linked, id);
        } else if s.up[0].StreamOf().None? {
          HelperPingProjects(s, permitted, linked, id);
        } else if s.up[0].id in Directory(s.helpers) {
          HelperLiveProjects(s, permitted, linked, id);
        } else if s.up[0].Open? && H.Refusal(s.up[0].id, false, Full(s), permitted) == [] {
          HelperGrantsProjects(s, permitted, linked, id);
        } else if s.up[0].Open? {
          HelperRefusesProjects(s, permitted, linked, id);
        } else {
          HelperStrangerProjects(s, permitted, linked, id);
        }
      case HelperTask(i, t) => TaskProjects(s, i, t, id);
      case HelperFails(i, reset) => FailProjects(s, i, reset, id);
      case Connect(newProcess) => ConnectProjects(s, newProcess, id);
      case Disconnect =>
      case _ => MessProjects(s, e, id);
    }
  }

  // ---- Safety of the whole ----

  ghost predicate Safe(s: Network)
  {
    Shaped(s) && forall id: StreamId :: Link.Inv(View(s, id))
  }

  function NewNetwork(window: nat, session: bytes, maxStreams: nat): (s: Network)
    requires 0 < window
  {
    Network(window, session, maxStreams, map[], map[], None, [], [], false, false, false)
  }

  lemma NewIsSafe(window: nat, session: bytes, maxStreams: nat)
    requires 0 < window
    ensures Safe(NewNetwork(window, session, maxStreams))
  {
    forall id: StreamId ensures Link.Inv(View(NewNetwork(window, session, maxStreams), id)) {
      T.NewLinkInv(id, window, session);
    }
  }

  lemma ViewsShape(s: Network)
    requires forall id: StreamId :: Link.Inv(View(s, id))
    ensures Shaped(s)
  {
    assert Link.Inv(View(s, 0));
    forall id | id in s.clients && s.clients[id].CLive? ensures s.clients[id].st.tx.Valid() {
      assert Link.Inv(View(s, id));
    }
    forall id | id in s.helpers && s.helpers[id].HLive? ensures s.helpers[id].h.up.tx.Valid() {
      assert Link.Inv(View(s, id));
    }
  }

  lemma ViewStaysSafe(s: Network, e: Event, id: StreamId)
    requires Shaped(s) && CanHappen(s, e) && Link.Inv(View(s, id))
    ensures Link.Inv(View(Next(s, e), id))
  {
    EveryEventProjects(s, e, id);
    var seen := Seen(s, e, id);
    if seen.Some? { Safety.InvKept(View(s, id), seen.value); }
  }

  lemma SafeStep(s: Network, e: Event)
    requires Safe(s) && CanHappen(s, e)
    ensures Safe(Next(s, e))
  {
    forall id: StreamId ensures Link.Inv(View(Next(s, e), id)) {
      assert Link.Inv(View(s, id));
      ViewStaysSafe(s, e, id);
    }
    ViewsShape(Next(s, e));
  }

  ghost function Run(s: Network, es: seq<Event>): (r: Network)
    requires Safe(s)
    ensures Safe(r)
    decreases |es|
  {
    if es == [] then s
    else if !CanHappen(s, es[0]) then Run(s, es[1..])
    else
      SafeStep(s, es[0]);
      Run(Next(s, es[0]), es[1..])
  }

  /** In every run of the whole system, with any number of streams, disconnections and resumptions, and
      for every stream in both directions: the bytes handed over are a prefix of the bytes written,
      neither side releases a byte the other has not received, and a stream the helper reclaims has
      delivered every byte ever read from its socket. */
  lemma NothingLostAnywhere(window: nat, session: bytes, maxStreams: nat, es: seq<Event>, id: StreamId)
    requires 0 < window
    ensures Safe(NewNetwork(window, session, maxStreams))
    ensures var l := View(Run(NewNetwork(window, session, maxStreams), es), id);
            && 0 < l.window
            && T.EgressWritten(l) <= T.ClientWritten(l) && T.SocketHonest(l) && Link.ClientGot(l) <= T.EgressRead(l)
            && Link.ClientTx(l).acked <= |Link.HelperGot(l)| <= |Link.ClientTx(l).hist|
            && Link.HelperTx(l).acked <= |Link.ClientGot(l)| <= |Link.HelperTx(l).hist|
            && (!l.h.HNone? && H.Finished(l.h.h) ==> Link.ClientGot(l) == T.EgressRead(l))
  {
    NewIsSafe(window, session, maxStreams);
    var l := View(Run(NewNetwork(window, session, maxStreams), es), id);
    assert Link.Inv(l);
    T.PrefixNow(l);
    T.SocketNow(l);
    T.OffsetsBracketed(l);
    if !l.h.HNone? && H.Finished(l.h.h) { T.ReclaimedMeansDelivered(l); }
  }

  // ---- When the handshake keeps the streams ----

  /** Connecting, the helper's answer to the greeting, and the client's reaction to it. */
  lemma HandshakeKeepsExactly(s: Network, newProcess: bool, permitted: bool, linked: bool, localOk: bool,
                              resumes: seq<Frame>)
    requires Shaped(s) && CanHappen(s, Connect(newProcess)) && S.ResumesAll(resumes, Held(s.clients))
    ensures var s1 := Next(s, Connect(newProcess));
            && Shaped(s1) && CanHappen(s1, HelperRecv(permitted, linked))
            && var s2 := Next(s1, HelperRecv(permitted, linked));
               && Shaped(s2) && CanHappen(s2, ClientRecv(localOk, resumes))
               && var s3 := Next(s2, ClientRecv(localOk, resumes));
                  // kept exactly when there was nothing to keep, or the same process still holds streams of the session
                  && (Held(s3.clients) == Held(s.clients)
                      <==> Held(s.clients) == map[] || (!newProcess && s.helperSession == Some(s.session)
                                                        && Directory(s.helpers) != map[]))
                  && (Held(s3.clients) != Held(s.clients) ==> Held(s3.clients) == map[])
  {
    var s1, s2 := Greeted(s, newProcess), Answered(s, newProcess);
    GreetingAnswered(s, newProcess, permitted, linked);
    AnswerHeard(s2, localOk, resumes);
  }

  function Greeted(s: Network, newProcess: bool): Network
    requires Shaped(s) && !s.online
    ensures Shaped(Greeted(s, newProcess))
  {
    Next(s, Connect(newProcess))
  }

  /** Whether the helper's process can resume what the client asks for. */
  function Keeps(s: Network, newProcess: bool): bool
  {
    Held(s.clients) != map[] && !newProcess && s.helperSession == Some(s.session) && Directory(s.helpers) != map[]
  }

  function Answered(s: Network, newProcess: bool): Network
    requires Shaped(s) && !s.online
    ensures Shaped(Answered(s, newProcess))
  {
    var s1, keep := Greeted(s, newProcess), Keeps(s, newProcess);
    s1.(up := [], down := [HelloAck(PROTO_VERSION, s.session, keep)],
        helpers := if keep then s1.helpers else LoseHelpers(s1.helpers), helperSession := Some(s.session))
  }

  lemma LostDirectory(m: Helpers)
    ensures Directory(LoseHelpers(m)) == map[]
  {
  }

  lemma GreetingAnswered(s: Network, newProcess: bool, permitted: bool, linked: bool)
    requires Shaped(s) && !s.online
    ensures CanHappen(Greeted(s, newProcess), HelperRecv(permitted, linked))
    ensures Next(Greeted(s, newProcess), HelperRecv(permitted, linked)) == Answered(s, newProcess)
  {
    var s1 := Greeted(s, newProcess);
    LostDirectory(s.helpers);
    assert s1.up[1..] == [];
    var ack := HelloAck(PROTO_VERSION, s.session, Keeps(s, newProcess));
    assert [] + [ack] == [ack];
    assert Resumed(s1.(up := []), s1.up[0]) == Keeps(s, newProcess);
  }

  lemma AnswerHeard(s: Network, localOk: bool, resumes: seq<Frame>)
    requires Shaped(s) && s.online && s.down != [] && s.down[0].HelloAck? && S.ResumesAll(resumes, Held(s.clients))
    ensures CanHappen(s, ClientRecv(localOk, resumes))
    ensures Held(Next(s, ClientRecv(localOk, resumes)).clients)
            == if s.resuming && !s.down[0].resumed then map[] else Held(s.clients)
  {
  }
}
