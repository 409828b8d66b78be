/** The driver and the directory, as objects, take the steps of the system: run side by side with it,
    each call keeps the object and the system in agreement and sends the same frames. */
module Refinement {
  import opened Prelude
  import opened Frames
  import N = Network
  import Link
  import M = Mux
  import C = Driver
  import S = SessionDriver
  import H = HelperStream
  import Helper

  // ---- What settling does to either side's table ----

  /** Settling a stream of the system settles it in the driver's table, and nothing else. */
  lemma SettlesTable(m: N.Clients, id: StreamId, o: C.Outcome)
    ensures N.Held(m[id := Link.CSettle(o)]) == if o.live then N.Held(m)[id := o.st] else N.Held(m) - {id}
  {
  }

  /** The same in the helper's directory. */
  lemma SettlesDirectory(m: N.Helpers, id: StreamId, o: H.Outcome)
    ensures N.Directory(m[id := Link.HSettle(o)])
            == if o.live then N.Directory(m)[id := o.st] else N.Directory(m) - {id}
  {
  }

  lemma LostAll(m: N.Clients, n: N.Helpers)
    ensures N.Held(N.LoseClients(m)) == map[] && N.Directory(N.LoseHelpers(n)) == map[]
  {
  }

  lemma AddsOne(m: N.Clients, id: StreamId, st: M.StreamState, n: N.Helpers, h: H.HStream)
    ensures N.Held(m[id := Link.CLive(st)]) == N.Held(m)[id := st]
    ensures N.Directory(n[id := Link.HLive(h)]) == N.Directory(n)[id := h]
  {
  }

  lemma DropsOne(n: N.Helpers, id: StreamId)
    requires id in n
    ensures N.Directory(n[id := Link.HDrop(n[id])]) == N.Directory(n) - {id}
  {
  }

  // ---- The client ----

  /** The driver holds the streams of the system and stands where the system says in the handshake. */
  ghost predicate Drives(d: S.Session, s: N.Network)
    reads d, d.mux
  {
    && d.Valid() && N.Shaped(s)
    && d.mux.window == s.window && d.sessionId == s.session
    && d.mux.streams == N.Held(s.clients)
    && d.handshakeDone == s.greeted && d.resuming == s.resuming
  }

  /** The driver's counter is above every identifier that the system has ever used. */
  ghost predicate Ahead(d: S.Session, s: N.Network)
    reads d, d.mux
  {
    0 < d.mux.nextId && forall i :: i in s.clients ==> i < d.mux.nextId
  }

  /** What the system's client puts on the channel when it takes a frame. */
  function ClientSends(s: N.Network, f: Frame, localOk: bool, resumes: seq<Frame>): seq<Frame>
    requires N.Shaped(s)
  {
    if f.HelloAck? then (if s.resuming && f.resumed then resumes else [])
    else if f.StreamOf().None? then (if f.Ping? then [Pong(f.nonce)] else [])
    else if f.id in N.Held(s.clients) then C.FrameOutcome(N.Held(s.clients)[f.id], f, localOk).out
    else if f.Data? then [Reset(f.id, UnknownStream)]
    else []
  }

  /** And what becomes of its streams. */
  function ClientKeeps(s: N.Network, f: Frame, localOk: bool): map<StreamId, M.StreamState>
    requires N.Shaped(s)
  {
    var held := N.Held(s.clients);
    if f.HelloAck? then (if s.resuming && !f.resumed then map[] else held)
    else if f.StreamOf().None? || f.id !in held then held
    else
      var o := C.FrameOutcome(held[f.id], f, localOk);
      if o.live then held[f.id := o.st] else held - {f.id}
  }

  lemma TakesAre(s: N.Network, f: Frame, localOk: bool, resumes: seq<Frame>)
    requires N.Shaped(s) && s.online
    ensures var s' := N.ClientTakes(s, f, localOk, resumes);
            && s' == s.(up := s.up + ClientSends(s, f, localOk, resumes), clients := s'.clients,
                        greeted := s.greeted || f.HelloAck?)
            && N.Held(s'.clients) == ClientKeeps(s, f, localOk)
  {
    NothingAdded(s.up);
    if f.HelloAck? {
      LostAll(s.clients, s.helpers);
    } else if f.StreamOf().Some? && f.id in N.Held(s.clients) {
      SettlesTable(s.clients, f.id, C.FrameOutcome(N.Held(s.clients)[f.id], f, localOk));
    }
  }

  /** Nor does it open a stream. */
  lemma TakesOpensNone(s: N.Network, f: Frame, localOk: bool, resumes: seq<Frame>)
    requires N.Shaped(s)
    ensures N.ClientTakes(s, f, localOk, resumes).clients.Keys == s.clients.Keys
  {
    if f.HelloAck? {
      assert N.LoseClients(s.clients).Keys == s.clients.Keys;
    } else if f.StreamOf().Some? && f.id in N.Held(s.clients) {
      SettlesOld(s, f.id, C.FrameOutcome(N.Held(s.clients)[f.id], f, localOk));
    }
  }

  lemma SettlesOld(s: N.Network, id: StreamId, o: C.Outcome)
    requires id in s.clients
    ensures N.ClientSettles(s, id, o).clients.Keys == s.clients.Keys
  {
  }

  /** A new driver drives the new system. */
  method Begins(window: nat, session: bytes, maxStreams: nat) returns (d: S.Session, ghost s: N.Network)
    requires 0 < window
    ensures fresh(d) && fresh(d.mux) && s == N.NewNetwork(window, session, maxStreams)
    ensures Drives(d, s) && Ahead(d, s) && d.outbound == s.up
  {
    d := new S.Session(window, session);
    s := N.NewNetwork(window, session, maxStreams);
  }

  /** A new channel. */
  method Connects(d: S.Session, ghost s: N.Network, newProcess: bool) returns (ghost s': N.Network)
    requires Drives(d, s) && N.CanHappen(s, N.Connect(newProcess))
    modifies d
    ensures s' == N.Next(s, N.Connect(newProcess)) && Drives(d, s') && d.outbound == s'.up
    ensures old(Ahead(d, s)) ==> Ahead(d, s')
  {
    d.Start();
    s' := N.Next(s, N.Connect(newProcess));
  }

  /** What the driver promises of one frame, as a relation between its tables. */
  ghost predicate Effect(t: C.Table, t': C.Table, f: Frame, localOk: bool, resuming: bool)
    requires C.Consistent(t)
  {
    if f.HelloAck? then
      && (!resuming ==> t' == t)
      && (resuming && !f.resumed ==> t'.streams == map[] && t'.outbound == t.outbound)
      && (resuming && f.resumed ==>
            && t'.streams == t.streams && t.outbound <= t'.outbound
            && S.ResumesAll(t'.outbound[|t.outbound|..], t.streams))
    else if f.StreamOf().None? then t' == t.(outbound := t.outbound + (if f.Ping? then [Pong(f.nonce)] else []))
    else if f.id in t.streams then t' == C.Settle(t, f.id, C.FrameOutcome(t.streams[f.id], f, localOk))
    else t' == t.(outbound := t.outbound + (if f.Data? then [Reset(f.id, UnknownStream)] else []))
  }

  /** That relation is the system's step. */
  lemma AnswerAgrees(t: C.Table, t': C.Table, s: N.Network, f: Frame, localOk: bool) returns (resumes: seq<Frame>)
    requires C.Consistent(t) && t.streams == N.Held(s.clients) && N.Shaped(s) && f.HelloAck?
    requires Effect(t, t', f, localOk, s.resuming)
    ensures f.resumed && s.resuming ==> S.ResumesAll(resumes, N.Held(s.clients))
    ensures t'.streams == ClientKeeps(s, f, localOk)
    ensures t'.outbound == t.outbound + ClientSends(s, f, localOk, resumes)
  {
    NothingAdded(t.outbound);
    resumes := if f.resumed && s.resuming then t'.outbound[|t.outbound|..] else [];
  }

  lemma FrameAgrees(t: C.Table, t': C.Table, s: N.Network, f: Frame, localOk: bool)
    requires C.Consistent(t) && t.streams == N.Held(s.clients) && N.Shaped(s) && !f.HelloAck?
    requires Effect(t, t', f, localOk, s.resuming)
    ensures t'.streams == ClientKeeps(s, f, localOk)
    ensures t'.outbound == t.outbound + ClientSends(s, f, localOk, [])
  {
    NothingAdded(t.outbound);
  }

  lemma EffectAgrees(t: C.Table, t': C.Table, s: N.Network, f: Frame, localOk: bool) returns (resumes: seq<Frame>)
    requires C.Consistent(t) && t.streams == N.Held(s.clients) && N.Shaped(s)
    requires Effect(t, t', f, localOk, s.resuming)
    ensures f.HelloAck? && f.resumed && s.resuming ==> S.ResumesAll(resumes, N.Held(s.clients))
    ensures t'.streams == ClientKeeps(s, f, localOk)
    ensures t'.outbound == t.outbound + ClientSends(s, f, localOk, resumes)
  {
    if f.HelloAck? {
      resumes := AnswerAgrees(t, t', s, f, localOk);
    } else {
      FrameAgrees(t, t', s, f, localOk);
      resumes := [];
    }
  }

  /** Streams that a consistent table holds have valid windows. */
  lemma StaysShaped(t: C.Table, s: N.Network, s': N.Network)
    requires C.Consistent(t) && t.streams == N.Held(s'.clients)
    requires N.Shaped(s) && s'.window == s.window && s'.helpers == s.helpers
    ensures N.Shaped(s')
  {
    forall id | id in s'.clients && s'.clients[id].CLive? ensures s'.clients[id].st.tx.Valid() {
      assert id in t.streams && t.streams[id] == s'.clients[id].st;
    }
  }

  /** One frame, handled by the driver. */
  method Handle(d: S.Session, f: Frame, localOk: bool) returns (keep: bool)
    requires d.Valid() && (f.HelloAck? || d.handshakeDone) && (f.HelloAck? ==> f.version == PROTO_VERSION)
    modifies d, d.mux
    ensures keep && d.Valid() && d.resuming == old(d.resuming) && d.mux.nextId == old(d.mux.nextId)
    ensures d.handshakeDone == (old(d.handshakeDone) || f.HelloAck?)
    ensures C.Consistent(old(d.Abs())) && Effect(old(d.Abs()), d.Abs(), f, localOk, old(d.resuming))
  {
    keep := d.HandleInbound(f, localOk);
  }

  /** One frame from the helper, as the system's client takes it. */
  method Inbound(d: S.Session, ghost s: N.Network, f: Frame, localOk: bool)
    returns (keep: bool, ghost s': N.Network, ghost resumes: seq<Frame>, ghost sent: seq<Frame>)
    requires Drives(d, s) && s.online && (f.HelloAck? || s.greeted) && (f.HelloAck? ==> f.version == PROTO_VERSION)
    modifies d, d.mux
    ensures keep && (f.HelloAck? && f.resumed && s.resuming ==> S.ResumesAll(resumes, N.Held(s.clients)))
    ensures s' == N.ClientTakes(s, f, localOk, resumes) && Drives(d, s') && (old(Ahead(d, s)) ==> Ahead(d, s'))
    ensures d.outbound == old(d.outbound) + sent && s'.up == s.up + sent
  {
    ghost var before := d.Abs();
    keep := Handle(d, f, localOk);
    resumes := EffectAgrees(before, d.Abs(), s, f, localOk);
    s', sent := N.ClientTakes(s, f, localOk, resumes), ClientSends(s, f, localOk, resumes);
    TakesAre(s, f, localOk, resumes);
    TakesOpensNone(s, f, localOk, resumes);
    StaysShaped(d.Abs(), s, s');
  }

  /** A command with a channel up is one event of the system. */
  lemma CommandAgrees(t: C.Table, s: N.Network, c: C.Command)
    requires t.streams == N.Held(s.clients) && N.Shaped(s) && c.id in t.streams && N.CanHappen(s, N.Command(c))
    ensures var st := t.streams[c.id];
            var o := if s.online then C.OnlineOutcome(st, c) else C.OfflineOutcome(st, c);
            var s' := N.Next(s, N.Command(c));
            && N.Held(s'.clients) == C.Settle(t, c.id, o).streams && s'.clients.Keys == s.clients.Keys
            && s' == s.(up := if s.online then s.up + o.out else s.up, clients := s'.clients)
  {
    var st := t.streams[c.id];
    SettlesTable(s.clients, c.id, if s.online then C.OnlineOutcome(st, c) else C.OfflineOutcome(st, c));
  }

  /** A command for a stream the driver holds; the local side writes nothing after its end of input. */
  method Commands(d: S.Session, ghost s: N.Network, c: C.Command) returns (ghost s': N.Network, ghost sent: seq<Frame>)
    requires Drives(d, s) && s.online && c.id in d.mux.streams
    requires c.LocalData? ==> !d.mux.streams[c.id].localFin
    modifies d, d.mux
    ensures N.CanHappen(s, N.Command(c)) && s' == N.Next(s, N.Command(c)) && Drives(d, s')
    ensures old(Ahead(d, s)) ==> Ahead(d, s')
    ensures d.outbound == old(d.outbound) + sent && s'.up == s.up + sent
  {
    CommandAgrees(d.Abs(), s, c);
    s', sent := N.Next(s, N.Command(c)), C.OnlineOutcome(d.mux.streams[c.id], c).out;
    d.HandleCommand(c);
    StaysShaped(d.Abs(), s, s');
  }

  /** The same while no channel is up: nothing is sent. */
  method CommandsOffline(d: S.Session, ghost s: N.Network, c: C.Command) returns (ghost s': N.Network)
    requires Drives(d, s) && !s.online && c.id in d.mux.streams
    requires c.LocalData? ==> !d.mux.streams[c.id].localFin
    modifies d, d.mux
    ensures N.CanHappen(s, N.Command(c)) && s' == N.Next(s, N.Command(c)) && Drives(d, s')
    ensures old(Ahead(d, s)) ==> Ahead(d, s')
    ensures d.outbound == old(d.outbound) && s'.up == s.up
  {
    CommandAgrees(d.Abs(), s, c);
    s' := N.Next(s, N.Command(c));
    assert d.outbound + [] == d.outbound;
    d.BufferOffline(c);
    StaysShaped(d.Abs(), s, s');
  }

  lemma NextIsFree(ids: set<StreamId>, next: StreamId, id: StreamId)
    requires 0 < next && next !in ids && M.AllTaken(ids, next, id)
    ensures id == next
  {
    assert M.Distance(next, id) <= M.Distance(next, next);
  }

  /** A new stream, always under an identifier that the system has never used. */
  method Opens(d: S.Session, ghost s: N.Network, addr: TargetAddr) returns (id: StreamId, ghost s': N.Network)
    requires Drives(d, s) && Ahead(d, s) && s.online && |d.mux.streams| < ID_SPACE - 1
    modifies d, d.mux
    ensures id == old(d.mux.nextId) && N.CanHappen(s, N.Opens(id, addr)) && s' == N.Next(s, N.Opens(id, addr))
    ensures d.outbound == old(d.outbound) + [Open(id, addr)] && s'.up == s.up + [Open(id, addr)]
    ensures Drives(d, s') && (id + 1 < ID_SPACE ==> Ahead(d, s'))
  {
    id := d.OpenStream(addr);
    NextIsFree(N.Held(s.clients).Keys, old(d.mux.nextId), id);
    s' := N.Next(s, N.Opens(id, addr));
    AddsOne(s.clients, id, M.NewStream(s.window), s.helpers, H.NewHStream(s.window));
    StaysShaped(d.Abs(), s, s');
  }

  // ---- The helper ----

  /** The directory holds the streams of the system and remembers the same session. */
  ghost predicate Serves(dir: Helper.Directory, s: N.Network)
    reads dir
  {
    && dir.Valid() && N.Shaped(s)
    && dir.window == s.window && dir.maxStreams == s.maxStreams
    && dir.streams == N.Directory(s.helpers) && dir.session == s.helperSession
  }

  /** What the system's helper answers, and what becomes of its streams. */
  function HelperSends(s: N.Network, f: Frame, permitted: bool, linked: bool): seq<Frame>
    requires N.Shaped(s)
  {
    var dir := N.Directory(s.helpers);
    if f.Hello? then [HelloAck(PROTO_VERSION, f.session, N.Resumed(s, f))]
    else if f.StreamOf().None? then (if f.Ping? then [Pong(f.nonce)] else [])
    else if f.id in dir then H.OnFrame(dir[f.id], f, linked).out
    else if f.Open? then H.Refusal(f.id, false, N.Full(s), permitted)
    else H.OnUnknown(f)
  }

  function HelperKeeps(s: N.Network, f: Frame, permitted: bool, linked: bool): map<StreamId, H.HStream>
    requires N.Shaped(s)
  {
    var dir := N.Directory(s.helpers);
    if f.Hello? then (if N.Resumed(s, f) then dir else map[])
    else if f.StreamOf().None? then dir
    else if f.id in dir then
      var o := H.OnFrame(dir[f.id], f, linked);
      if o.live then dir[f.id := o.st] else dir - {f.id}
    else if f.Open? && H.Refusal(f.id, false, N.Full(s), permitted) == [] then dir[f.id := H.NewHStream(s.window)]
    else dir
  }

  /** The system's helper changes nothing but its streams, its session and the channel. */
  predicate HelperTook(s: N.Network, s': N.Network, f: Frame, permitted: bool, linked: bool)
    requires N.Shaped(s)
  {
    s' == s.(down := s.down + HelperSends(s, f, permitted, linked), helpers := s'.helpers,
             helperSession := if f.Hello? && !N.Resumed(s, f) then Some(f.session) else s.helperSession)
  }

  lemma HelloTaken(s: N.Network, f: Frame, permitted: bool, linked: bool)
    requires N.Shaped(s) && s.online && f.Hello?
    ensures var s' := N.HelperTakes(s, f, permitted, linked);
            HelperTook(s, s', f, permitted, linked) && N.Directory(s'.helpers) == HelperKeeps(s, f, permitted, linked)
  {
    LostAll(s.clients, s.helpers);
  }

  lemma LiveTaken(s: N.Network, f: Frame, permitted: bool, linked: bool)
    requires N.Shaped(s) && s.online && f.StreamOf().Some? && f.id in N.Directory(s.helpers)
    ensures var s' := N.HelperTakes(s, f, permitted, linked);
            HelperTook(s, s', f, permitted, linked) && N.Directory(s'.helpers) == HelperKeeps(s, f, permitted, linked)
  {
    SettlesDirectory(s.helpers, f.id, H.OnFrame(N.Directory(s.helpers)[f.id], f, linked));
  }

  lemma OtherTaken(s: N.Network, f: Frame, permitted: bool, linked: bool)
    requires N.Shaped(s) && s.online && !f.Hello? && (f.StreamOf().Some? ==> f.id !in N.Directory(s.helpers))
    ensures var s' := N.HelperTakes(s, f, permitted, linked);
            HelperTook(s, s', f, permitted, linked) && N.Directory(s'.helpers) == HelperKeeps(s, f, permitted, linked)
  {
    NothingAdded(s.down);
    if f.Open? { AddsOne(s.clients, f.id, M.NewStream(s.window), s.helpers, H.NewHStream(s.window)); }
  }

  lemma HelperTakesAre(s: N.Network, f: Frame, permitted: bool, linked: bool)
    requires N.Shaped(s) && s.online
    ensures var s' := N.HelperTakes(s, f, permitted, linked);
            HelperTook(s, s', f, permitted, linked) && N.Directory(s'.helpers) == HelperKeeps(s, f, permitted, linked)
  {
    if f.Hello? {
      HelloTaken(s, f, permitted, linked);
    } else if f.StreamOf().Some? && f.id in N.Directory(s.helpers) {
      LiveTaken(s, f, permitted, linked);
    } else {
      OtherTaken(s, f, permitted, linked);
    }
  }

  lemma ServesShaped(streams: map<StreamId, H.HStream>, s: N.Network, s': N.Network)
    requires N.Shaped(s) && s'.window == s.window && s'.clients == s.clients
    requires streams == N.Directory(s'.helpers) && forall id :: id in streams ==> H.Good(streams[id])
    ensures N.Shaped(s')
  {
    forall id | id in s'.helpers && s'.helpers[id].HLive? ensures s'.helpers[id].h.up.tx.Valid() {
      assert id in streams && streams[id] == s'.helpers[id].h;
    }
  }

  /** What a live stream makes of an Open for its identifier is the directory's refusal of it. */
  lemma DuplicateOpen(h: H.HStream, f: Frame, linked: bool, full: bool, permitted: bool)
    requires h.up.tx.Valid() && f.Open?
    ensures H.OnFrame(h, f, linked) == H.Outcome(h, true, H.Refusal(f.id, true, full, permitted))
  {
  }

  /** An Open handled by the directory of the system s: its streams and answers. */
  method OpenFor(dir: Helper.Directory, ghost s: N.Network, f: Frame, permitted: bool, linked: bool)
    returns (keep: bool)
    requires Serves(dir, s) && f.Open?
    modifies dir
    ensures keep && dir.Valid() && dir.streams == HelperKeeps(s, f, permitted, linked)
    ensures dir.out == old(dir.out) + HelperSends(s, f, permitted, linked) && dir.session == s.helperSession
  {
    if f.id in dir.streams {
      DuplicateOpen(dir.streams[f.id], f, linked, |dir.streams| >= dir.maxStreams, permitted);
      assert dir.streams[f.id := dir.streams[f.id]] == dir.streams;
    }
    keep := dir.HandleFrame(f, permitted, linked);
  }

  /** One frame handled by the directory of the system s: its streams, session and answers. */
  method HandleFor(dir: Helper.Directory, ghost s: N.Network, f: Frame, permitted: bool, linked: bool)
    returns (keep: bool)
    requires Serves(dir, s) && (f.Hello? ==> f.version == PROTO_VERSION)
    modifies dir
    ensures keep && dir.Valid() && dir.streams == HelperKeeps(s, f, permitted, linked)
    ensures dir.out == old(dir.out) + HelperSends(s, f, permitted, linked)
    ensures dir.session == if f.Hello? && !N.Resumed(s, f) then Some(f.session) else s.helperSession
  {
    if f.Open? {
      keep := OpenFor(dir, s, f, permitted, linked);
    } else {
      keep := dir.HandleFrame(f, permitted, linked);
    }
  }

  /** One frame from the client, as the system's helper takes it. */
  method HelperInbound(dir: Helper.Directory, ghost s: N.Network, f: Frame, permitted: bool, linked: bool)
    returns (keep: bool, ghost s': N.Network, ghost sent: seq<Frame>)
    requires Serves(dir, s) && s.online && (f.Hello? ==> f.version == PROTO_VERSION)
    modifies dir
    ensures keep && s' == N.HelperTakes(s, f, permitted, linked) && Serves(dir, s')
    ensures dir.out == old(dir.out) + sent && s'.down == s.down + sent
  {
    s', sent := N.HelperTakes(s, f, permitted, linked), HelperSends(s, f, permitted, linked);
    HelperTakesAre(s, f, permitted, linked);
    keep := HandleFor(dir, s, f, permitted, linked);
    ServesShaped(dir.streams, s, s');
  }

  /** The report of a stream's task that it has finished. */
  method Reports(dir: Helper.Directory, ghost s: N.Network, id: StreamId) returns (ghost s': N.Network)
    requires Serves(dir, s) && id in dir.streams && dir.streams[id].up.pc.Done?
    modifies dir
    ensures N.CanHappen(s, N.HelperTask(id, H.Report)) && s' == N.Next(s, N.HelperTask(id, H.Report))
    ensures Serves(dir, s') && dir.out == old(dir.out) && s'.down == s.down
  {
    s' := N.Next(s, N.HelperTask(id, H.Report));
    SettlesDirectory(s.helpers, id, H.Task(id, dir.streams[id], H.Report));
    assert s.down + [] == s.down;
    ghost var others := dir.streams - {id};
    dir.HandleStreamEvent(Helper.EgressDone(id));
    assert dir.streams - {id} == others;
    ServesShaped(dir.streams, s, s');
  }

  /** The report that it failed. */
  method Fails(dir: Helper.Directory, ghost s: N.Network, id: StreamId, reset: Option<ResetCode>)
    returns (ghost s': N.Network, ghost sent: seq<Frame>)
    requires Serves(dir, s) && s.online && id in dir.streams
    modifies dir
    ensures N.CanHappen(s, N.HelperFails(id, reset)) && s' == N.Next(s, N.HelperFails(id, reset))
    ensures Serves(dir, s') && dir.out == old(dir.out) + sent && s'.down == s.down + sent
  {
    s' := N.Next(s, N.HelperFails(id, reset));
    sent := if reset.Some? then [Reset(id, reset.value)] else [];
    DropsOne(s.helpers, id);
    dir.HandleStreamEvent(Helper.Failed(id, reset));
    ServesShaped(dir.streams, s, s');
  }
}
