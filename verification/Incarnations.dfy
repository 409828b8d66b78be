/** Reports of stream tasks carry an identifier and nothing else, so the main loop may take the report of
    an earlier stream for one about the stream that now has the identifier. Here every stream ever opened
    has a number of its own, which the program does not see, and reports wait in a queue while frames are
    handled. */
module Incarnations {
  import opened Prelude
  import opened Frames
  import H = HelperStream
  import U = Uplink
  import Helper

  /** What a task reports: that its egress side is done, or that it failed. */
  datatype Kind = Over | Broken

  /** born: the stream whose task reports, out of all streams ever opened. */
  datatype Report = Report(id: StreamId, born: nat, kind: Kind)

  /** How a stream left the directory: in its last state, or because some stream reported a failure. */
  datatype End = Left(h: H.HStream) | Failed(teller: nat)

  /** In the directory; out of it, while its task may still report before the abort reaches it; silent. */
  datatype Place = Held | Stopped(end: End) | Silent(end: End)

  datatype Life = Life(id: StreamId, h: H.HStream, place: Place)

  /** lives: every stream ever opened, in order. at: which of them the directory holds. */
  datatype House = House(
    window: nat,
    maxStreams: nat,
    lives: seq<Life>,
    at: map<StreamId, nat>,
    reports: seq<Report>)

  datatype Move =
    | Greet(resumed: bool)
    | Take(f: Frame, permitted: bool, linked: bool)
    | Act(id: StreamId, t: H.TaskStep)
    | Tell(born: nat, kind: Kind)
    | Quiet(born: nat)
    | Handle

  function NewHouse(window: nat, maxStreams: nat): House { House(window, maxStreams, [], map[], []) }

  /** The directory holds exactly the streams marked as held, each under its own identifier. */
  predicate Indexed(s: House)
  {
    && (forall id :: id in s.at ==> s.at[id] < |s.lives| && s.lives[s.at[id]].id == id && s.lives[s.at[id]].place.Held?)
    && (forall b :: 0 <= b < |s.lives| && s.lives[b].place.Held? ==> s.lives[b].id in s.at && s.at[s.lives[b].id] == b)
  }

  predicate Known(s: House)
  {
    forall i :: 0 <= i < |s.reports| ==>
      s.reports[i].born < |s.lives| && s.lives[s.reports[i].born].id == s.reports[i].id
  }

  predicate Inv(s: House)
  {
    && 0 < s.window && Indexed(s) && Known(s)
    && (forall b :: 0 <= b < |s.lives| && s.lives[b].place.Held? ==> H.Good(s.lives[b].h))
  }

  /** What the directory sees. */
  function Streams(s: House): map<StreamId, H.HStream>
    requires Indexed(s)
  {
    map id | id in s.at :: s.lives[s.at[id]].h
  }

  predicate CanHappen(s: House, m: Move)
    requires Inv(s)
  {
    match m
    case Greet(_) => true
    case Take(f, _, _) => f.StreamOf().Some?
    case Act(id, t) => id in s.at && !t.Report? && H.CanTask(s.lives[s.at[id]].h, t)
    case Tell(born, kind) =>
      && born < |s.lives| && !s.lives[born].place.Silent?
      && (kind.Over? ==> s.lives[born].h.up.pc.Done?)
    case Quiet(born) => born < |s.lives| && s.lives[born].place.Stopped?
    case Handle => s.reports != []
  }

  /** A stream leaves the directory and its task is stopped. */
  function Leaves(s: House, id: StreamId, end: End): House
    requires Indexed(s) && id in s.at
  {
    s.(at := s.at - {id}, lives := s.lives[s.at[id] := s.lives[s.at[id]].(place := Stopped(end))])
  }

  function Settles(s: House, id: StreamId, o: H.Outcome): House
    requires Indexed(s) && id in s.at
  {
    if o.live then s.(lives := s.lives[s.at[id] := s.lives[s.at[id]].(h := o.st)])
    else Leaves(s, id, Left(o.st))
  }

  function Closed(x: Life): Life { if x.place.Held? then x.(place := Stopped(Left(x.h))) else x }

  function CloseAll(s: House): House
  {
    s.(at := map[], lives := seq(|s.lives|, b requires 0 <= b < |s.lives| => Closed(s.lives[b])))
  }

  predicate Granted(s: House, id: StreamId, permitted: bool)
  {
    H.Refusal(id, id in s.at, |s.at| >= s.maxStreams, permitted) == []
  }

  function Opened(s: House, id: StreamId): House
    requires 0 < s.window
  {
    s.(at := s.at[id := |s.lives|], lives := s.lives + [Life(id, H.NewHStream(s.window), Held)])
  }

  /** The main loop takes a report for one about whatever stream has the identifier now. */
  function Heard(s: House, r: Report): House
    requires Inv(s)
  {
    if r.id !in s.at then s
    else if r.kind.Broken? then Leaves(s, r.id, Failed(r.born))
    else Settles(s, r.id, H.Cleaned(H.Outcome(s.lives[s.at[r.id]].h.(egressDone := true), true, [])))
  }

  function Next(s: House, m: Move): (s': House)
    requires Inv(s) && CanHappen(s, m)
  {
    match m
    case Greet(resumed) => if resumed then s else CloseAll(s)
    case Take(f, permitted, linked) =>
      if f.Open? then (if Granted(s, f.id, permitted) then Opened(s, f.id) else s)
      else if f.id in s.at then Settles(s, f.id, H.OnFrame(s.lives[s.at[f.id]].h, f, linked))
      else s
    case Act(id, t) => Settles(s, id, H.Task(id, s.lives[s.at[id]].h, t))
    case Tell(born, kind) => s.(reports := s.reports + [Report(s.lives[born].id, born, kind)])
    case Quiet(born) => s.(lives := s.lives[born := s.lives[born].(place := Silent(s.lives[born].place.end))])
    case Handle => Heard(s.(reports := s.reports[1..]), s.reports[0])
  }

  // ---- What every move keeps ----

  lemma SettlesKeeps(s: House, id: StreamId, o: H.Outcome)
    requires Inv(s) && id in s.at && (o.live ==> H.Good(o.st))
    ensures Inv(Settles(s, id, o))
  {
  }

  lemma LeavesKeeps(s: House, id: StreamId, end: End)
    requires Inv(s) && id in s.at
    ensures Inv(Leaves(s, id, end))
  {
  }

  lemma HeardKeeps(s: House, r: Report)
    requires Inv(s)
    ensures Inv(Heard(s, r))
  {
    if r.id in s.at {
      if r.kind.Broken? {
        LeavesKeeps(s, r.id, Failed(r.born));
      } else {
        SettlesKeeps(s, r.id, H.Cleaned(H.Outcome(s.lives[s.at[r.id]].h.(egressDone := true), true, [])));
      }
    }
  }

  lemma OpenedKeeps(s: House, id: StreamId)
    requires Inv(s) && id !in s.at
    ensures Inv(Opened(s, id))
  {
    H.NewIsGood(s.window);
  }

  lemma ClosedKeeps(s: House)
    requires Inv(s)
    ensures Inv(CloseAll(s))
  {
  }

  lemma TakeKeeps(s: House, f: Frame, permitted: bool, linked: bool)
    requires Inv(s) && CanHappen(s, Take(f, permitted, linked))
    ensures Inv(Next(s, Take(f, permitted, linked)))
  {
    if f.Open? {
      if Granted(s, f.id, permitted) { OpenedKeeps(s, f.id); }
    } else if f.id in s.at {
      H.OnFrameIsGood(s.lives[s.at[f.id]].h, f, linked);
      SettlesKeeps(s, f.id, H.OnFrame(s.lives[s.at[f.id]].h, f, linked));
    }
  }

  lemma ActKeeps(s: House, id: StreamId, t: H.TaskStep)
    requires Inv(s) && CanHappen(s, Act(id, t))
    ensures Inv(Next(s, Act(id, t)))
  {
    H.TaskIsGood(id, s.lives[s.at[id]].h, t);
    SettlesKeeps(s, id, H.Task(id, s.lives[s.at[id]].h, t));
  }

  lemma InvKept(s: House, m: Move)
    requires Inv(s) && CanHappen(s, m)
    ensures Inv(Next(s, m))
  {
    match m {
      case Greet(resumed) => if !resumed { ClosedKeeps(s); }
      case Take(f, permitted, linked) => TakeKeeps(s, f, permitted, linked);
      case Act(id, t) => ActKeeps(s, id, t);
      case Handle => HeardKeeps(s.(reports := s.reports[1..]), s.reports[0]);
      case _ =>
    }
  }

  /** A run; moves that cannot happen are skipped. */
  function Run(s: House, ms: seq<Move>): (r: House)
    requires Inv(s)
    ensures Inv(r)
    decreases |ms|
  {
    if ms == [] then s
    else if !CanHappen(s, ms[0]) then Run(s, ms[1..])
    else
      InvKept(s, ms[0]);
      Run(Next(s, ms[0]), ms[1..])
  }

  // ---- What may go wrong ----

  /** Everything read from the egress socket was sent, closed and acknowledged. */
  predicate Whole(h: H.HStream) { h.up.eof && h.up.finSent && h.up.tx.acked == |h.up.readLog| }

  /** A stream was reclaimed although something of it was missing, or dropped for another's failure. */
  predicate Wronged(s: House, b: nat)
  {
    && b < |s.lives| && !s.lives[b].place.Held?
    && match s.lives[b].place.end
       case Left(h) => H.Finished(h) && !Whole(h)
       case Failed(teller) => teller != b
  }

  /** A report for an identifier is waiting, or the stopped task of an earlier stream may still send one. */
  predicate Pending(s: House, id: StreamId)
  {
    || (exists i :: 0 <= i < |s.reports| && s.reports[i].id == id)
    || (exists c :: 0 <= c < |s.lives| && s.lives[c].place.Stopped? && s.lives[c].id == id)
  }

  // ---- With nothing pending a stream is never wronged ----

  /** Every report that may reach the stream is its own, and true. */
  predicate Alone(s: House, b: nat)
    requires b < |s.lives|
  {
    var x := s.lives[b];
    && H.Reported(x.h)
    && (forall i :: 0 <= i < |s.reports| && s.reports[i].id == x.id ==>
          s.reports[i].born == b && (s.reports[i].kind.Over? ==> x.h.up.pc.Done?))
    && (forall c :: 0 <= c < |s.lives| && s.lives[c].place.Stopped? ==> s.lives[c].id != x.id)
  }

  predicate Fine(s: House, b: nat)
  {
    b < |s.lives| && (if s.lives[b].place.Held? then Alone(s, b) else !Wronged(s, b))
  }

  lemma FinishedIsWhole(h: H.HStream)
    requires U.Inv(h.up) && H.Reported(h) && H.Finished(h)
    ensures Whole(h)
  {
  }

  /** The stream itself moves, and stays true to its own reports. */
  lemma SettlesFine(s: House, b: nat, o: H.Outcome)
    requires Inv(s) && Fine(s, b) && s.lives[b].place.Held?
    requires U.Inv(o.st.up) && H.Reported(o.st) && (s.lives[b].h.up.pc.Done? ==> o.st.up.pc.Done?)
    ensures Fine(Settles(s, s.lives[b].id, o), b)
  {
    if !o.live && H.Finished(o.st) { FinishedIsWhole(o.st); }
  }

  /** Another stream moves. */
  lemma OtherSettlesFine(s: House, b: nat, id: StreamId, o: H.Outcome)
    requires Inv(s) && Fine(s, b) && id in s.at && s.at[id] != b
    ensures Fine(Settles(s, id, o), b)
  {
  }

  lemma OtherLeavesFine(s: House, b: nat, id: StreamId, end: End)
    requires Inv(s) && Fine(s, b) && id in s.at && s.at[id] != b
    ensures Fine(Leaves(s, id, end), b)
  {
  }

  lemma OpenedFine(s: House, b: nat, id: StreamId)
    requires Inv(s) && Fine(s, b) && id !in s.at
    ensures Fine(Opened(s, id), b)
  {
  }

  lemma ClosedFine(s: House, b: nat)
    requires Inv(s) && Fine(s, b)
    ensures Fine(CloseAll(s), b)
  {
    if s.lives[b].place.Held? && H.Finished(s.lives[b].h) { FinishedIsWhole(s.lives[b].h); }
  }

  lemma TakenFine(s: House, b: nat, f: Frame, permitted: bool, linked: bool)
    requires Inv(s) && Fine(s, b) && f.StreamOf().Some?
    ensures Fine(Next(s, Take(f, permitted, linked)), b)
  {
    if f.Open? {
      if Granted(s, f.id, permitted) { OpenedFine(s, b, f.id); }
    } else if f.id in s.at {
      var o := H.OnFrame(s.lives[s.at[f.id]].h, f, linked);
      H.OnFrameIsGood(s.lives[s.at[f.id]].h, f, linked);
      if s.at[f.id] == b { SettlesFine(s, b, o); } else { OtherSettlesFine(s, b, f.id, o); }
    }
  }

  lemma ActedFine(s: House, b: nat, id: StreamId, t: H.TaskStep)
    requires Inv(s) && Fine(s, b) && CanHappen(s, Act(id, t))
    ensures Fine(Next(s, Act(id, t)), b)
  {
    var o := H.Task(id, s.lives[s.at[id]].h, t);
    H.TaskIsGood(id, s.lives[s.at[id]].h, t);
    if s.at[id] == b { SettlesFine(s, b, o); } else { OtherSettlesFine(s, b, id, o); }
  }

  lemma ToldFine(s: House, b: nat, born: nat, kind: Kind)
    requires Inv(s) && Fine(s, b) && CanHappen(s, Tell(born, kind))
    ensures Fine(Next(s, Tell(born, kind)), b)
  {
    if s.lives[b].place.Held? && s.lives[born].id == s.lives[b].id && born != b { assert false; }
  }

  lemma HeardFine(s: House, b: nat, r: Report)
    requires Inv(s) && Fine(s, b)
    requires s.lives[b].place.Held? && r.id == s.lives[b].id ==>
               r.born == b && (r.kind.Over? ==> s.lives[b].h.up.pc.Done?)
    ensures Fine(Heard(s, r), b)
  {
    if r.id in s.at {
      var o := H.Cleaned(H.Outcome(s.lives[s.at[r.id]].h.(egressDone := true), true, []));
      if s.at[r.id] != b {
        if r.kind.Over? { OtherSettlesFine(s, b, r.id, o); } else { OtherLeavesFine(s, b, r.id, Failed(r.born)); }
      } else if r.kind.Over? {
        SettlesFine(s, b, o);
      }
    }
  }

  lemma HandledFine(s: House, b: nat)
    requires Inv(s) && Fine(s, b) && s.reports != []
    ensures Fine(Next(s, Handle), b)
  {
    var s1 := s.(reports := s.reports[1..]);
    assert forall i :: 0 <= i < |s1.reports| ==> s1.reports[i] == s.reports[i + 1];
    HeardFine(s1, b, s.reports[0]);
  }

  lemma FineKept(s: House, m: Move, b: nat)
    requires Inv(s) && CanHappen(s, m) && Fine(s, b)
    ensures Fine(Next(s, m), b)
  {
    match m {
      case Greet(resumed) => if !resumed { ClosedFine(s, b); }
      case Take(f, permitted, linked) => TakenFine(s, b, f, permitted, linked);
      case Act(id, t) => ActedFine(s, b, id, t);
      case Tell(born, kind) => ToldFine(s, b, born, kind);
      case Quiet(_) =>
      case Handle => HandledFine(s, b);
    }
  }

  lemma {:induction false} FineRun(s: House, ms: seq<Move>, b: nat)
    requires Inv(s) && Fine(s, b)
    ensures !Wronged(Run(s, ms), b)
    decreases |ms|
  {
    if ms != [] {
      if CanHappen(s, ms[0]) {
        InvKept(s, ms[0]);
        FineKept(s, ms[0], b);
        FineRun(Next(s, ms[0]), ms[1..], b);
      } else {
        FineRun(s, ms[1..], b);
      }
    }
  }

  lemma NothingPendingIsFine(s: House, id: StreamId)
    requires Inv(s) && id !in s.at && !Pending(s, id)
    ensures Fine(Opened(s, id), |s.lives|)
  {
  }

  // ---- With something pending it may be ----

  /** The client has closed the stream, nothing is unacknowledged, and the egress socket is not at its end. */
  predicate Ripe(h: H.HStream) { h.ingressFin && h.up.tx.FullyAcked() && !h.up.eof }

  /** The k-th report waiting is the first for the identifier of stream b, and another's. */
  predicate Strikes(s: House, b: nat, k: nat)
  {
    && b < |s.lives| && s.lives[b].place.Held? && Ripe(s.lives[b].h)
    && k < |s.reports| && s.reports[k].id == s.lives[b].id && s.reports[k].born != b
    && forall i :: 0 <= i < k ==> s.reports[i].id != s.lives[b].id
  }

  function Handles(n: nat): seq<Move> { seq(n, _ => Handle) }

  lemma OtherHeard(s: House, r: Report, b: nat)
    requires Inv(s) && b < |s.lives| && s.lives[b].place.Held? && r.id != s.lives[b].id
    ensures var s' := Heard(s, r); |s'.lives| == |s.lives| && s'.lives[b] == s.lives[b] && s'.reports == s.reports
  {
  }

  lemma HandlesOther(s: House, b: nat, k: nat)
    requires Inv(s) && Strikes(s, b, k) && 0 < k
    ensures Strikes(Next(s, Handle), b, k - 1) && Next(s, Handle).reports[k - 1] == s.reports[k]
  {
    var s1 := s.(reports := s.reports[1..]);
    assert forall i :: 0 <= i < |s1.reports| ==> s1.reports[i] == s.reports[i + 1];
    OtherHeard(s1, s.reports[0], b);
  }

  /** Dropped for another's failure, or reclaimed before its egress socket was read to the end. */
  predicate Struck(s: House, b: nat, kind: Kind)
  {
    && Wronged(s, b)
    && match s.lives[b].place.end
       case Left(h) => kind.Over? && !h.up.eof
       case Failed(_) => kind.Broken?
  }

  lemma HandlesStrike(s: House, b: nat)
    requires Inv(s) && Strikes(s, b, 0)
    ensures Struck(Next(s, Handle), b, s.reports[0].kind)
  {
    assert s.at[s.reports[0].id] == b;
  }

  lemma RunCons(s: House, m: Move, ms: seq<Move>)
    requires Inv(s) && CanHappen(s, m)
    ensures Inv(Next(s, m)) && Run(s, [m] + ms) == Run(Next(s, m), ms)
  {
    InvKept(s, m);
    assert ([m] + ms)[1..] == ms;
  }

  lemma {:induction false} StrikesRun(s: House, b: nat, k: nat)
    requires Inv(s) && Strikes(s, b, k)
    ensures Struck(Run(s, Handles(k + 1)), b, s.reports[k].kind)
    decreases k
  {
    OneHandled(k);
    RunCons(s, Handle, Handles(k));
    if k == 0 {
      HandlesStrike(s, b);
    } else {
      HandlesOther(s, b, k);
      StrikesRun(Next(s, Handle), b, k - 1);
    }
  }

  lemma OneHandled(k: nat)
    ensures Handles(k + 1) == [Handle] + Handles(k)
  {
  }

  lemma FirstFor(rs: seq<Report>, id: StreamId) returns (k: nat)
    requires exists i :: 0 <= i < |rs| && rs[i].id == id
    ensures k < |rs| && rs[k].id == id && forall i :: 0 <= i < k ==> rs[i].id != id
  {
    k := 0;
    while rs[k].id != id
      invariant k < |rs| && forall i :: 0 <= i < k ==> rs[i].id != id
      decreases |rs| - k
    {
      k := k + 1;
    }
  }

  function Closing(id: StreamId): Move { Take(Fin(id), true, true) }

  /** A stream just opened, and closed by the client. */
  lemma ClosedIsRipe(s: House, id: StreamId)
    requires Inv(s) && id !in s.at && Inv(Opened(s, id))
    ensures var s2 := Next(Opened(s, id), Closing(id));
            && s2.reports == s.reports && |s2.lives| == |s.lives| + 1 && s2.lives[..|s.lives|] == s.lives
            && s2.lives[|s.lives|].id == id && s2.lives[|s.lives|].place.Held? && Ripe(s2.lives[|s.lives|].h)
  {
    FinRipens(s.window, id);
    assert Opened(s, id).lives[..|s.lives|] == s.lives;
  }

  lemma FinRipens(window: nat, id: StreamId)
    requires 0 < window
    ensures var o := H.OnFrame(H.NewHStream(window), Fin(id), true); o.live && Ripe(o.st)
  {
  }

  /** The stopped task of stream c reports a failure; any other stopped or held task may. */
  lemma TellsLate(s: House, c: nat)
    requires Inv(s) && c < |s.lives| && s.lives[c].place.Stopped?
    ensures CanHappen(s, Tell(c, Broken))
    ensures Next(s, Tell(c, Broken)) == s.(reports := s.reports + [Report(s.lives[c].id, c, Broken)])
  {
  }

  /** A report waits: the client closes, the reports are handled. */
  lemma WaitingWrongs(s: House, id: StreamId) returns (ms: seq<Move>)
    requires Inv(s) && id !in s.at && Inv(Opened(s, id))
    requires exists i :: 0 <= i < |s.reports| && s.reports[i].id == id
    ensures Wronged(Run(Opened(s, id), ms), |s.lives|)
    ensures (forall i :: 0 <= i < |s.reports| ==> s.reports[i].kind.Over?) ==>
              Struck(Run(Opened(s, id), ms), |s.lives|, Over)
  {
    var s1 := Opened(s, id);
    var k := FirstFor(s.reports, id);
    ClosedIsRipe(s, id);
    RunCons(s1, Closing(id), Handles(k + 1));
    assert Strikes(Next(s1, Closing(id)), |s.lives|, k);
    StrikesRun(Next(s1, Closing(id)), |s.lives|, k);
    ms := [Closing(id)] + Handles(k + 1);
  }

  /** An earlier task may still report: it does, and then the same. */
  lemma LateWrongs(s: House, id: StreamId, c: nat) returns (ms: seq<Move>)
    requires Inv(s) && id !in s.at && Inv(Opened(s, id))
    requires c < |s.lives| && s.lives[c].place.Stopped? && s.lives[c].id == id
    ensures Wronged(Run(Opened(s, id), ms), |s.lives|)
  {
    TellsLate(s, c);
    InvKept(s, Tell(c, Broken));
    var s1 := Next(s, Tell(c, Broken));
    OpenedKeeps(s1, id);
    assert s1.reports[|s.reports|].id == id;
    var more := WaitingWrongs(s1, id);
    TellsLate(Opened(s, id), c);
    assert Next(Opened(s, id), Tell(c, Broken)) == Opened(s1, id);
    RunCons(Opened(s, id), Tell(c, Broken), more);
    ms := [Tell(c, Broken)] + more;
  }

  lemma PendingWrongs(s: House, id: StreamId) returns (ms: seq<Move>)
    requires Inv(s) && id !in s.at && Inv(Opened(s, id)) && Pending(s, id)
    ensures Wronged(Run(Opened(s, id), ms), |s.lives|)
  {
    if exists i :: 0 <= i < |s.reports| && s.reports[i].id == id {
      ms := WaitingWrongs(s, id);
    } else {
      var c :| 0 <= c < |s.lives| && s.lives[c].place.Stopped? && s.lives[c].id == id;
      ms := LateWrongs(s, id, c);
    }
  }

  /** Some run wrongs stream b. */
  ghost predicate Exposed(s: House, b: nat)
    requires Inv(s)
  {
    exists ms :: Wronged(Run(s, ms), b)
  }

  /** Opening an identifier is safe for the new stream, in every run that follows, exactly when no report
      for it is waiting and no stopped task of an earlier stream may still send one. */
  lemma OpenIsSafeExactly(s: House, id: StreamId)
    requires Inv(s) && id !in s.at
    ensures Inv(Opened(s, id))
    ensures Exposed(Opened(s, id), |s.lives|) <==> Pending(s, id)
  {
    OpenedKeeps(s, id);
    if Pending(s, id) {
      var ms := PendingWrongs(s, id);
      assert Wronged(Run(Opened(s, id), ms), |s.lives|);
    } else {
      NothingPendingIsFine(s, id);
      forall ms ensures !Wronged(Run(Opened(s, id), ms), |s.lives|) { FineRun(Opened(s, id), ms, |s.lives|); }
    }
  }

  // ---- Over whole runs ----

  /** Along the run an identifier is opened only when nothing is pending for it. */
  predicate Careful(s: House, ms: seq<Move>)
    requires Inv(s)
    decreases |ms|
  {
    if ms == [] then true
    else if !CanHappen(s, ms[0]) then Careful(s, ms[1..])
    else
      InvKept(s, ms[0]);
      var m := ms[0];
      && (m.Take? && m.f.Open? && Granted(s, m.f.id, m.permitted) ==> !Pending(s, m.f.id))
      && Careful(Next(s, m), ms[1..])
  }

  predicate AllFine(s: House) { forall b :: 0 <= b < |s.lives| ==> Fine(s, b) }

  lemma NothingNew(s: House, m: Move)
    requires Inv(s) && CanHappen(s, m)
    requires !(m.Take? && m.f.Open? && Granted(s, m.f.id, m.permitted))
    ensures |Next(s, m).lives| == |s.lives|
  {
  }

  lemma AllFineKept(s: House, m: Move)
    requires Inv(s) && CanHappen(s, m) && AllFine(s)
    requires m.Take? && m.f.Open? && Granted(s, m.f.id, m.permitted) ==> !Pending(s, m.f.id)
    ensures AllFine(Next(s, m))
  {
    forall b | 0 <= b < |Next(s, m).lives| ensures Fine(Next(s, m), b) {
      if b < |s.lives| {
        FineKept(s, m, b);
      } else if m.Take? && m.f.Open? && Granted(s, m.f.id, m.permitted) {
        NothingPendingIsFine(s, m.f.id);
      } else {
        NothingNew(s, m);
      }
    }
  }

  lemma {:induction false} AllFineRun(s: House, ms: seq<Move>)
    requires Inv(s) && AllFine(s) && Careful(s, ms)
    ensures AllFine(Run(s, ms))
    decreases |ms|
  {
    if ms != [] {
      if CanHappen(s, ms[0]) {
        InvKept(s, ms[0]);
        AllFineKept(s, ms[0]);
        AllFineRun(Next(s, ms[0]), ms[1..]);
      } else {
        AllFineRun(s, ms[1..]);
      }
    }
  }

  /** In every run in which no identifier is opened again while something is pending for it, no stream is
      reclaimed with anything missing, and none is dropped for the failure of another. */
  lemma CarefulRunWrongsNone(window: nat, maxStreams: nat, ms: seq<Move>, b: nat)
    requires 0 < window && Careful(NewHouse(window, maxStreams), ms)
    ensures !Wronged(Run(NewHouse(window, maxStreams), ms), b)
  {
    var s := NewHouse(window, maxStreams);
    AllFineRun(s, ms);
    if b < |Run(s, ms).lives| { assert Fine(Run(s, ms), b); }
  }

  // ---- A run that does ----

  /** Reading the end of the socket at once, sending Fin and finding everything acknowledged. */
  const READS_NOTHING: seq<U.Event> :=
    [U.Advance, U.Advance, U.ReadEof, U.Advance, U.Advance, U.Advance, U.Advance]

  lemma TaskStepOf(u: U.Uplink, e: U.Event, es: seq<U.Event>)
    requires U.Inv(u) && U.CanHappen(u, e)
    ensures U.Inv(U.Next(u, e)) && U.Run(u, [e] + es) == U.Run(U.Next(u, e), es)
  {
    U.InvStep(u, e);
    assert ([e] + es)[1..] == es;
  }

  /** The task when it finds the socket at its end, and when it has sent its Fin. */
  function AtEnd(window: nat): U.Uplink
    requires 0 < window
  {
    U.NewUplink(window).(pc := U.GotEof, eof := true)
  }

  function FinGone(window: nat): U.Uplink
    requires 0 < window
  {
    var u := AtEnd(window);
    u.(pc := U.CheckAcked, tx := u.tx.(fin := true), finSent := true)
  }

  lemma ReadsToEnd(window: nat, es: seq<U.Event>)
    requires 0 < window
    ensures U.Inv(AtEnd(window))
    ensures U.Run(U.NewUplink(window), [U.Advance] + ([U.Advance] + ([U.ReadEof] + es))) == U.Run(AtEnd(window), es)
  {
    var u0 := U.NewUplink(window);
    var u1 := u0.(pc := U.CheckWindow);
    var u2 := u0.(pc := U.Reading(Min(window, DATA_CHUNK)));
    assert U.Next(u0, U.Advance) == u1 && U.Next(u1, U.Advance) == u2 && U.Next(u2, U.ReadEof) == AtEnd(window);
    TaskStepOf(u0, U.Advance, [U.Advance] + ([U.ReadEof] + es));
    TaskStepOf(u1, U.Advance, [U.ReadEof] + es);
    TaskStepOf(u2, U.ReadEof, es);
  }

  lemma SendsFin(window: nat, es: seq<U.Event>)
    requires 0 < window && U.Inv(AtEnd(window))
    ensures U.Inv(FinGone(window))
    ensures U.Run(AtEnd(window), [U.Advance] + ([U.Advance] + ([U.Advance] + es))) == U.Run(FinGone(window), es)
  {
    var u3 := AtEnd(window);
    var u4 := u3.(pc := U.Flushing, tx := u3.tx.(fin := true));
    var u5 := u4.(pc := U.SendingFin);
    assert U.Next(u3, U.Advance) == u4 && U.Next(u4, U.Advance) == u5 && U.Next(u5, U.Advance) == FinGone(window);
    TaskStepOf(u3, U.Advance, [U.Advance] + ([U.Advance] + es));
    TaskStepOf(u4, U.Advance, [U.Advance] + es);
    TaskStepOf(u5, U.Advance, es);
  }

  lemma ReadsNothing(window: nat)
    requires 0 < window
    ensures U.Inv(U.NewUplink(window))
    ensures U.Run(U.NewUplink(window), READS_NOTHING) == FinGone(window).(pc := U.Done)
  {
    var last := [U.Advance];
    var ends := [U.Advance] + ([U.Advance] + ([U.Advance] + last));
    ReadsToEnd(window, ends);
    SendsFin(window, last);
    TaskStepOf(FinGone(window), U.Advance, []);
    assert [U.Advance] + [] == last;
    assert READS_NOTHING == [U.Advance] + ([U.Advance] + ([U.ReadEof] + ends));
  }

  function Acts(id: StreamId, us: seq<U.Event>): seq<Move>
  {
    seq(|us|, i requires 0 <= i < |us| => Act(id, H.Up(us[i])))
  }

  /** The house with one task further on. */
  function Moved(s: House, id: StreamId, u: U.Uplink): House
    requires Indexed(s) && id in s.at
  {
    s.(lives := s.lives[s.at[id] := s.lives[s.at[id]].(h := s.lives[s.at[id]].h.(up := u))])
  }

  predicate OwnEvent(e: U.Event) { e.Advance? || e.ReadBytes? || e.ReadEof? }

  function UplinkOf(s: House, id: StreamId): U.Uplink
    requires Indexed(s) && id in s.at
  {
    s.lives[s.at[id]].h.up
  }

  lemma ActMoves(s: House, id: StreamId, e: U.Event)
    requires Inv(s) && id in s.at && OwnEvent(e)
    ensures CanHappen(s, Act(id, H.Up(e))) <==> U.CanHappen(UplinkOf(s, id), e)
    ensures U.CanHappen(UplinkOf(s, id), e) ==>
              Next(s, Act(id, H.Up(e))) == Moved(s, id, U.Next(UplinkOf(s, id), e))
  {
  }

  /** A move that happens, or is skipped. */
  lemma ActOnce(s: House, id: StreamId, e: U.Event, rest: seq<Move>) returns (r: House)
    requires Inv(s) && id in s.at && OwnEvent(e)
    ensures var u := UplinkOf(s, id); r == if U.CanHappen(u, e) then Moved(s, id, U.Next(u, e)) else s
    ensures Inv(r) && Run(s, [Act(id, H.Up(e))] + rest) == Run(r, rest)
  {
    var m := Act(id, H.Up(e));
    ActMoves(s, id, e);
    if CanHappen(s, m) {
      RunCons(s, m, rest);
      r := Next(s, m);
    } else {
      assert ([m] + rest)[1..] == rest;
      r := s;
    }
  }

  lemma MovedFurther(s: House, id: StreamId, u: U.Uplink, v: U.Uplink)
    requires Indexed(s) && id in s.at && Indexed(Moved(s, id, u))
    ensures UplinkOf(Moved(s, id, u), id) == u && Moved(Moved(s, id, u), id, v) == Moved(s, id, v)
    ensures Moved(s, id, UplinkOf(s, id)) == s
  {
  }

  /** s with the task of id after us, all of them its own actions, and then more. */
  lemma {:induction false} ActsRun(s: House, id: StreamId, us: seq<U.Event>, more: seq<Move>) returns (r: House)
    requires Inv(s) && id in s.at && U.Inv(UplinkOf(s, id))
    requires forall i :: 0 <= i < |us| ==> OwnEvent(us[i])
    ensures Inv(r) && r == Moved(s, id, U.Run(UplinkOf(s, id), us)) && Run(s, Acts(id, us) + more) == Run(r, more)
    decreases |us|
  {
    if us == [] {
      NoActs(id, more);
      r := s;
    } else {
      var rest := Acts(id, us[1..]) + more;
      ActsSplit(id, us, more);
      var s' := ActOnce(s, id, us[0], rest);
      MovedFurther(s, id, UplinkOf(s', id), U.Run(UplinkOf(s, id), us));
      r := ActsRun(s', id, us[1..], more);
    }
  }

  lemma NoActs(id: StreamId, more: seq<Move>)
    ensures Acts(id, []) + more == more
  {
  }

  lemma ActsSplit(id: StreamId, us: seq<U.Event>, more: seq<Move>)
    requires us != []
    ensures Acts(id, us) + more == [Act(id, H.Up(us[0]))] + (Acts(id, us[1..]) + more)
  {
  }

  // ---- Such a run ----

  /** The first stream has ended and its report is waiting when the client resets it. */
  function Waiting(window: nat, maxStreams: nat, h: H.HStream): House
  {
    House(window, maxStreams, [Life(1, h, Stopped(Left(h)))], map[], [Report(1, 0, Over)])
  }

  function OneOver(window: nat, maxStreams: nat, reports: seq<Report>): House
    requires 0 < window
  {
    var h := H.NewHStream(window).(up := FinGone(window).(pc := U.Done));
    House(window, maxStreams, [Life(1, h, Held)], map[1 := 0], reports)
  }

  const OPEN1 := Take(Open(1, V4([127, 0, 0, 1], 80)), true, true)
  const RESET1 := Take(Reset(1, Normal), true, true)
  const ENDING := [Tell(0, Over), RESET1]

  lemma OpensOne(window: nat, maxStreams: nat, more: seq<Move>)
    requires 0 < window && 0 < maxStreams
    ensures var s := Opened(NewHouse(window, maxStreams), 1);
            Inv(s) && Run(NewHouse(window, maxStreams), [OPEN1] + more) == Run(s, more)
  {
    RunCons(NewHouse(window, maxStreams), OPEN1, more);
  }

  lemma EndsOne(window: nat, maxStreams: nat)
    requires 0 < window && Inv(OneOver(window, maxStreams, []))
    ensures Run(OneOver(window, maxStreams, []), ENDING)
            == Waiting(window, maxStreams, OneOver(window, maxStreams, []).lives[0].h)
  {
    var s0, s1 := OneOver(window, maxStreams, []), OneOver(window, maxStreams, [Report(1, 0, Over)]);
    ReportsOne(window, maxStreams);
    InvKept(s0, Tell(0, Over));
    ResetsOne(window, maxStreams);
    RunPair(s0, Tell(0, Over), s1, RESET1, Waiting(window, maxStreams, s1.lives[0].h));
  }

  lemma RunPair(a: House, m: Move, b: House, n: Move, c: House)
    requires Inv(a) && CanHappen(a, m) && Next(a, m) == b && Inv(b) && CanHappen(b, n) && Next(b, n) == c
    ensures Run(a, [m, n]) == c
  {
    RunCons(a, m, [n]);
    RunCons(b, n, []);
    assert [m] + [n] == [m, n] && [n] + [] == [n];
  }

  lemma ReportsOne(window: nat, maxStreams: nat)
    requires 0 < window && Inv(OneOver(window, maxStreams, []))
    ensures CanHappen(OneOver(window, maxStreams, []), Tell(0, Over))
    ensures Next(OneOver(window, maxStreams, []), Tell(0, Over)) == OneOver(window, maxStreams, [Report(1, 0, Over)])
  {
    NothingBefore(Report(1, 0, Over));
  }

  lemma NothingBefore(r: Report)
    ensures [] + [r] == [r]
  {
  }

  lemma ResetsOne(window: nat, maxStreams: nat)
    requires 0 < window && Inv(OneOver(window, maxStreams, [Report(1, 0, Over)]))
    ensures var s := OneOver(window, maxStreams, [Report(1, 0, Over)]);
            Next(s, RESET1) == Waiting(window, maxStreams, s.lives[0].h)
  {
    var m: map<StreamId, nat> := map[1 := 0];
    assert m - {1} == map[];
  }

  lemma ReachesWaiting(window: nat, maxStreams: nat) returns (ms: seq<Move>)
    requires 0 < window && 0 < maxStreams
    ensures Run(NewHouse(window, maxStreams), ms)
            == Waiting(window, maxStreams, OneOver(window, maxStreams, []).lives[0].h)
  {
    ms := [OPEN1] + (Acts(1, READS_NOTHING) + ENDING);
    OpensOne(window, maxStreams, Acts(1, READS_NOTHING) + ENDING);
    OneEnds(window, maxStreams);
    EndsOne(window, maxStreams);
  }

  lemma OneEnds(window: nat, maxStreams: nat)
    requires 0 < window && Inv(Opened(NewHouse(window, maxStreams), 1))
    ensures Inv(OneOver(window, maxStreams, []))
    ensures Run(Opened(NewHouse(window, maxStreams), 1), Acts(1, READS_NOTHING) + ENDING)
            == Run(OneOver(window, maxStreams, []), ENDING)
  {
    ReadsNothing(window);
    var r := ActsRun(Opened(NewHouse(window, maxStreams), 1), 1, READS_NOTHING, ENDING);
    OneMoved(window, maxStreams);
  }

  lemma OneMoved(window: nat, maxStreams: nat)
    requires 0 < window && Indexed(Opened(NewHouse(window, maxStreams), 1))
    ensures Moved(Opened(NewHouse(window, maxStreams), 1), 1, FinGone(window).(pc := U.Done))
            == OneOver(window, maxStreams, [])
  {
  }

  lemma {:induction false} RunTwice(s: House, ms: seq<Move>, ns: seq<Move>)
    requires Inv(s)
    ensures Run(s, ms + ns) == Run(Run(s, ms), ns)
    decreases |ms|
  {
    if ms == [] {
      assert ms + ns == ns;
    } else {
      assert (ms + ns)[0] == ms[0] && (ms + ns)[1..] == ms[1..] + ns;
      if CanHappen(s, ms[0]) {
        InvKept(s, ms[0]);
        RunTwice(Next(s, ms[0]), ms[1..], ns);
      } else {
        RunTwice(s, ms[1..], ns);
      }
    }
  }

  lemma OpensAgain(s: House)
    requires Inv(s) && s.at == map[] && 0 < s.maxStreams
    ensures CanHappen(s, OPEN1) && Next(s, OPEN1) == Opened(s, 1)
  {
  }

  lemma WaitingStruck(s: House, id: StreamId) returns (ms: seq<Move>)
    requires Inv(s) && id !in s.at && Inv(Opened(s, id))
    requires |s.reports| == 1 && s.reports[0].id == id && s.reports[0].kind.Over?
    ensures Struck(Run(Opened(s, id), ms), |s.lives|, Over)
  {
    ms := WaitingWrongs(s, id);
  }

  /** The identifier is opened again while the report of the first stream waits. */
  lemma SecondStruck(s: House) returns (ms: seq<Move>)
    requires Inv(s) && s.at == map[] && |s.lives| == 1 && 0 < s.maxStreams
    requires |s.reports| == 1 && s.reports[0].id == 1 && s.reports[0].kind.Over?
    ensures Struck(Run(s, ms), 1, Over)
  {
    OpenedKeeps(s, 1);
    var more := WaitingStruck(s, 1);
    OpensAgain(s);
    RunCons(s, OPEN1, more);
    ms := [OPEN1] + more;
  }

  /** A stream is opened, ends and is reset while its report waits. Then the identifier is opened again,
      closed by the client, and the report read: the second stream is reclaimed, though its socket was not
      read to the end. */
  lemma StaleReportRun(window: nat, maxStreams: nat) returns (ms: seq<Move>)
    requires 0 < window && 0 < maxStreams
    ensures Struck(Run(NewHouse(window, maxStreams), ms), 1, Over)
  {
    var before := ReachesWaiting(window, maxStreams);
    var after := SecondStruck(Run(NewHouse(window, maxStreams), before));
    RunTwice(NewHouse(window, maxStreams), before, after);
    ms := before + after;
  }

  // ---- The directory takes these moves ----

  ghost predicate Keeps(dir: Helper.Directory, s: House)
    reads dir
  {
    && dir.Valid() && Inv(s)
    && dir.window == s.window && dir.maxStreams == s.maxStreams && dir.streams == Streams(s)
  }

  lemma SettlesStreams(s: House, id: StreamId, o: H.Outcome)
    requires Inv(s) && id in s.at && Indexed(Settles(s, id, o))
    ensures Streams(Settles(s, id, o)) == if o.live then Streams(s)[id := o.st] else Streams(s) - {id}
  {
  }

  lemma LeavesStreams(s: House, id: StreamId, end: End)
    requires Inv(s) && id in s.at && Indexed(Leaves(s, id, end))
    ensures Streams(Leaves(s, id, end)) == Streams(s) - {id}
  {
  }

  lemma OpenedStreams(s: House, id: StreamId)
    requires Inv(s) && Indexed(Opened(s, id))
    ensures Streams(Opened(s, id)) == Streams(s)[id := H.NewHStream(s.window)]
  {
  }

  lemma AsManyStreams(s: House)
    requires Inv(s)
    ensures Streams(s).Keys == s.at.Keys && |Streams(s)| == |s.at|
  {
    assert Streams(s).Keys == s.at.Keys;
    assert |Streams(s)| == |Streams(s).Keys| && |s.at| == |s.at.Keys|;
  }

  /** The frame of a stream. */
  method Takes(dir: Helper.Directory, ghost s: House, f: Frame, permitted: bool, linked: bool)
    returns (ghost s': House)
    requires Keeps(dir, s) && f.StreamOf().Some?
    modifies dir
    ensures s' == Next(s, Take(f, permitted, linked)) && Keeps(dir, s')
  {
    s' := Next(s, Take(f, permitted, linked));
    InvKept(s, Take(f, permitted, linked));
    AsManyStreams(s);
    TakenStreams(s, f, permitted, linked);
    var keep := dir.HandleFrame(f, permitted, linked);
  }

  lemma TakenStreams(s: House, f: Frame, permitted: bool, linked: bool)
    requires Inv(s) && f.StreamOf().Some? && Indexed(Next(s, Take(f, permitted, linked)))
    ensures var m, m' := Streams(s), Streams(Next(s, Take(f, permitted, linked)));
            if f.Open? then m' == if Granted(s, f.id, permitted) then m[f.id := H.NewHStream(s.window)] else m
            else if f.id !in m then m' == m
            else
              var o := H.OnFrame(m[f.id], f, linked);
              m' == if o.live then m[f.id := o.st] else m - {f.id}
  {
    if f.Open? {
      if Granted(s, f.id, permitted) { OpenedStreams(s, f.id); }
    } else if f.id in s.at {
      SettlesStreams(s, f.id, H.OnFrame(s.lives[s.at[f.id]].h, f, linked));
    }
  }

  /** A greeting that the directory answers. */
  method Greets(dir: Helper.Directory, ghost s: House, version: byte, requested: bytes, resume: bool)
    returns (ghost s': House)
    requires Keeps(dir, s) && version == PROTO_VERSION
    modifies dir
    ensures s' == Next(s, Greet(resume && old(dir.session) == Some(requested) && old(dir.streams) != map[]))
    ensures Keeps(dir, s')
  {
    var resumed := resume && dir.session == Some(requested) && dir.streams != map[];
    s' := Next(s, Greet(resumed));
    InvKept(s, Greet(resumed));
    var keep := dir.HandleHello(version, requested, resume);
  }

  /** What a report makes of the directory. */
  function AfterReport(m: map<StreamId, H.HStream>, r: Report): map<StreamId, H.HStream>
  {
    if r.id !in m then m
    else if r.kind.Broken? || H.Finished(m[r.id].(egressDone := true)) then m - {r.id}
    else m[r.id := m[r.id].(egressDone := true)]
  }

  lemma HeardStreams(s: House, r: Report)
    requires Inv(s) && Indexed(Heard(s, r))
    ensures Streams(Heard(s, r)) == AfterReport(Streams(s), r)
  {
    if r.id in s.at {
      if r.kind.Broken? {
        LeavesStreams(s, r.id, Failed(r.born));
      } else {
        SettlesStreams(s, r.id, H.Cleaned(H.Outcome(s.lives[s.at[r.id]].h.(egressDone := true), true, [])));
      }
    }
  }

  lemma OnlyOneLeft(m: map<StreamId, H.HStream>, m': map<StreamId, H.HStream>, id: StreamId)
    requires m' - {id} == m - {id} && id !in m'
    ensures m' == m - {id}
  {
    assert m' == m' - {id};
  }

  /** The directory hears a report. */
  method Reported(dir: Helper.Directory, e: Helper.StreamEvent, ghost r: Report)
    requires dir.Valid() && e.id == r.id && (e.EgressDone? <==> r.kind.Over?)
    modifies dir
    ensures dir.Valid() && dir.streams == AfterReport(old(dir.streams), r)
  {
    ghost var before := dir.streams;
    dir.HandleStreamEvent(e);
    if e.Failed? {
      if e.id !in before { assert before - {e.id} == before; }
    } else if e.id in before && e.id !in dir.streams {
      OnlyOneLeft(before, dir.streams, e.id);
    }
  }

  /** The next report, whoever sent it. */
  method Hears(dir: Helper.Directory, ghost s: House, e: Helper.StreamEvent) returns (ghost s': House)
    requires Keeps(dir, s) && s.reports != []
    requires e.id == s.reports[0].id && (e.EgressDone? <==> s.reports[0].kind.Over?)
    modifies dir
    ensures s' == Next(s, Handle) && Keeps(dir, s')
  {
    s' := Next(s, Handle);
    InvKept(s, Handle);
    HeardStreams(s.(reports := s.reports[1..]), s.reports[0]);
    Reported(dir, e, s.reports[0]);
  }
}
