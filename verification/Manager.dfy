/** The tunnel manager: its supervisor, any number of callers waiting for a session, and a shutdown,
    interleaved at every lock, broadcast and await. */
module Manager {
  import opened Prelude

  datatype Session = Session(epoch: nat, dead: bool)

  /** Where the supervisor stands. A connection attempt holds its epoch from the start. */
  datatype Supervisor =
    | Top
    | CheckCurrent
    | Resting
    | Inspect
    | AnnounceLost
    | Connecting(epoch: nat)
    | Connected(session: Session)
    | Installed(epoch: nat)
    | AnnounceFailed
    | BackingOff
    | AnnounceGivenUp
    | Exited

  /** seen: the state version this caller has already observed. */
  datatype Waiter =
    | FirstLook
    | Nudge
    | Subscribe
    | LoopTop(seen: nat)
    | Parked(seen: nat)
    | Look(seen: nat)
    | Granted(session: Session)
    | Refused

  datatype Closing = NotAsked | Flagged | Taken | Closed

  /** version counts broadcasts. installedAt: the version when the slot was last filled.
      published: the epochs announced as up, in order. */
  datatype Manager = Manager(
    slot: Option<Session>,
    version: nat,
    nextEpoch: nat,
    permit: bool,
    supervisor: Supervisor,
    closing: Closing,
    waiters: seq<Waiter>,
    installedAt: nat,
    published: seq<nat>)

  datatype Event =
    | Supervise(success: bool, retry: bool, byTimer: bool)
    | Wait(i: nat, timedOut: bool)
    | SessionDies
    | AttemptDies
    | Shutdown
    | NotifyBroken
    | Arrive

  predicate Live(m: Manager) { m.slot.Some? && !m.slot.value.dead }

  function ShutdownFlag(m: Manager): bool { !m.closing.NotAsked? }

  function NewManager(): (m: Manager)
    ensures Inv(m)
  {
    Manager(None, 0, 1, false, Top, NotAsked, [], 0, [])
  }

  predicate CanHappen(m: Manager, e: Event)
  {
    match e
    case Supervise(_, _, byTimer) =>
      !m.supervisor.Exited? && (m.supervisor.Resting? || m.supervisor.BackingOff? ==> byTimer || m.permit)
    case Wait(i, timedOut) =>
      && i < |m.waiters| && !m.waiters[i].Granted? && !m.waiters[i].Refused?
      && (m.waiters[i].Parked? && !timedOut ==> m.waiters[i].seen < m.version)
    case SessionDies => m.slot.Some?
    case AttemptDies => m.supervisor.Connected?
    case Shutdown => !m.closing.Closed?
    case NotifyBroken => true
    case Arrive => true
  }

  function Broadcast(m: Manager): Manager { m.(version := m.version + 1) }

  function SuperviseStep(m: Manager, success: bool, retry: bool, byTimer: bool): Manager
  {
    match m.supervisor
    case Top => m.(supervisor := if ShutdownFlag(m) then Exited else CheckCurrent)
    case CheckCurrent =>
      if Live(m) then m.(supervisor := Resting)
      else m.(supervisor := Connecting(m.nextEpoch), nextEpoch := m.nextEpoch + 1)
    // woken by the timer, or by a stored permit, which is then used up
    case Resting => m.(supervisor := Inspect, permit := m.permit && byTimer)
    case Inspect =>
      if m.slot.Some? && m.slot.value.dead then m.(slot := None, supervisor := AnnounceLost)
      else m.(supervisor := Top)
    case AnnounceLost => Broadcast(m).(supervisor := Top)
    case Connecting(epoch) =>
      if success then m.(supervisor := Connected(Session(epoch, false)))
      else m.(supervisor := if retry then AnnounceFailed else AnnounceGivenUp)
    case Connected(session) =>
      m.(slot := Some(session), installedAt := m.version, supervisor := Installed(session.epoch))
    case Installed(epoch) => Broadcast(m).(published := m.published + [epoch], supervisor := Top)
    case AnnounceFailed => Broadcast(m).(supervisor := BackingOff)
    case BackingOff => m.(supervisor := Top, permit := m.permit && byTimer)
    case AnnounceGivenUp => Broadcast(m).(supervisor := Exited)
    case Exited => m
  }

  /** One move of a caller; the second result is the permit afterwards. */
  function WaitStep(m: Manager, w: Waiter, timedOut: bool): (Waiter, bool)
  {
    match w
    case FirstLook => (if Live(m) then Granted(m.slot.value) else Nudge, m.permit)
    case Nudge => (Subscribe, true)
    case Subscribe => (LoopTop(0), m.permit)
    case LoopTop(seen) => (if ShutdownFlag(m) || timedOut then Refused else Parked(seen), m.permit)
    case Parked(seen) => (if timedOut then Refused else Look(m.version), m.permit)
    case Look(seen) => (if Live(m) then Granted(m.slot.value) else LoopTop(seen), m.permit)
    case Granted(_) => (w, m.permit)
    case Refused => (w, m.permit)
  }

  function Next(m: Manager, e: Event): (m': Manager)
    requires CanHappen(m, e)
  {
    match e
    case Supervise(success, retry, byTimer) => SuperviseStep(m, success, retry, byTimer)
    case Wait(i, timedOut) =>
      var (w, permit) := WaitStep(m, m.waiters[i], timedOut);
      m.(waiters := m.waiters[i := w], permit := permit)
    case SessionDies => m.(slot := Some(m.slot.value.(dead := true)))
    case AttemptDies => m.(supervisor := Connected(m.supervisor.session.(dead := true)))
    case Shutdown => (
      match m.closing
      case NotAsked => m.(closing := Flagged)
      case Flagged => m.(closing := Taken, slot := None)
      case _ => Broadcast(m).(closing := Closed))
    case NotifyBroken => m.(permit := true)
    case Arrive => m.(waiters := m.waiters + [FirstLook])
  }

  // ---- What every step keeps ----

  /** A live session has been announced since it was installed, unless the supervisor is about to do so. */
  predicate Announced(m: Manager)
  {
    && m.installedAt <= m.version
    && (Live(m) && !m.supervisor.Installed? ==> m.installedAt < m.version)
  }

  /** A caller that is about to park, or parked, has not seen the broadcast that follows a later
      installation, nor the one that follows the shutdown flag. */
  predicate WaiterOk(m: Manager, w: Waiter)
  {
    && (w.LoopTop? || w.Parked? || w.Look? ==> w.seen <= m.version)
    && ((w.LoopTop? || w.Parked?) && Live(m) ==> w.seen <= m.installedAt)
    && (w.Parked? && m.closing.Closed? ==> w.seen < m.version)
    && (w.Granted? ==> w.session.epoch < m.nextEpoch)
  }

  function InHand(s: Supervisor): Option<nat>
  {
    match s
    case Connecting(epoch) => Some(epoch)
    case Connected(session) => Some(session.epoch)
    case Installed(epoch) => Some(epoch)
    case _ => None
  }

  predicate Ascending(s: seq<nat>) { forall i :: 0 < i < |s| ==> s[i - 1] < s[i] }

  /** The epoch in hand is newer than everything published. */
  predicate EpochsOk(m: Manager)
  {
    && Ascending(m.published)
    && (|m.published| > 0 ==> m.published[|m.published| - 1] < m.nextEpoch)
    && (InHand(m.supervisor).Some? ==>
          && InHand(m.supervisor).value < m.nextEpoch
          && (|m.published| > 0 ==> m.published[|m.published| - 1] < InHand(m.supervisor).value))
    && (m.slot.Some? ==> m.slot.value.epoch < m.nextEpoch)
  }

  /** No attempt is made beside a healthy session. */
  predicate NoRival(m: Manager) { m.supervisor.Connecting? || m.supervisor.Connected? ==> !Live(m) }

  predicate Inv(m: Manager)
  {
    && Announced(m) && EpochsOk(m) && NoRival(m)
    && forall i :: 0 <= i < |m.waiters| ==> WaiterOk(m, m.waiters[i])
  }

  lemma SupervisorAnnounces(m: Manager, success: bool, retry: bool, byTimer: bool)
    requires Announced(m) && !m.supervisor.Exited?
    ensures Announced(SuperviseStep(m, success, retry, byTimer))
  {
  }

  lemma SupervisorEpochs(m: Manager, success: bool, retry: bool, byTimer: bool)
    requires EpochsOk(m) && !m.supervisor.Exited?
    ensures var m' := SuperviseStep(m, success, retry, byTimer);
            EpochsOk(m') && m.published <= m'.published
  {
    if m.supervisor.Installed? {
      PublishesOne(m, success, retry, byTimer);
    }
  }

  lemma PublishesOne(m: Manager, success: bool, retry: bool, byTimer: bool)
    requires EpochsOk(m) && m.supervisor.Installed?
    ensures var m' := SuperviseStep(m, success, retry, byTimer);
            EpochsOk(m') && m.published <= m'.published
  {
  }

  lemma CoreStep(m: Manager, e: Event)
    requires Announced(m) && EpochsOk(m) && CanHappen(m, e)
    ensures Announced(Next(m, e)) && EpochsOk(Next(m, e)) && m.published <= Next(m, e).published
  {
    if e.Supervise? {
      SupervisorAnnounces(m, e.success, e.retry, e.byTimer);
      SupervisorEpochs(m, e.success, e.retry, e.byTimer);
    }
  }

  lemma RivalStep(m: Manager, e: Event)
    requires NoRival(m) && CanHappen(m, e)
    ensures NoRival(Next(m, e))
  {
  }

  /** What happens elsewhere leaves a caller's bounds alone. */
  lemma WaiterElsewhere(m: Manager, e: Event, w: Waiter)
    requires WaiterOk(m, w) && Announced(m) && CanHappen(m, e)
    ensures WaiterOk(Next(m, e), w)
  {
    if e.Supervise? { WaiterDuringSupervision(m, e.success, e.retry, e.byTimer, w); }
  }

  lemma WaiterDuringSupervision(m: Manager, success: bool, retry: bool, byTimer: bool, w: Waiter)
    requires WaiterOk(m, w) && Announced(m) && !m.supervisor.Exited?
    ensures WaiterOk(SuperviseStep(m, success, retry, byTimer), w)
  {
  }

  lemma WaiterMoves(m: Manager, w: Waiter, timedOut: bool)
    requires WaiterOk(m, w) && EpochsOk(m)
    ensures WaiterOk(m, WaitStep(m, w, timedOut).0)
  {
  }

  lemma InvStep(m: Manager, e: Event)
    requires Inv(m) && CanHappen(m, e)
    ensures Inv(Next(m, e)) && m.published <= Next(m, e).published
  {
    CoreStep(m, e);
    RivalStep(m, e);
    var m' := Next(m, e);
    forall i | 0 <= i < |m'.waiters| ensures WaiterOk(m', m'.waiters[i]) {
      if i < |m.waiters| { WaiterStays(m, e, i); }
    }
  }

  lemma WaiterStays(m: Manager, e: Event, i: nat)
    requires CanHappen(m, e) && i < |m.waiters| && WaiterOk(m, m.waiters[i]) && Announced(m) && EpochsOk(m)
    ensures i < |Next(m, e).waiters| && WaiterOk(Next(m, e), Next(m, e).waiters[i])
  {
    if e.Wait? && e.i == i {
      WaiterMoves(m, m.waiters[i], e.timedOut);
    } else {
      WaiterElsewhere(m, e, m.waiters[i]);
    }
  }

  function Run(m: Manager, es: seq<Event>): (r: Manager)
    requires Inv(m)
    ensures Inv(r)
    decreases |es|
  {
    if es == [] then m
    else if !CanHappen(m, es[0]) then Run(m, es[1..])
    else
      InvStep(m, es[0]);
      Run(Next(m, es[0]), es[1..])
  }

  /** No caller is ever left parked beside a healthy session: one that has seen the newest state while
      the slot is live catches the supervisor between installing the session and announcing it. And
      none is left parked once a shutdown has completed. */
  lemma NoWaiterLeftBehind(es: seq<Event>, i: nat)
    ensures var m := Run(NewManager(), es);
            i < |m.waiters| && m.waiters[i].Parked? && m.waiters[i].seen == m.version ==>
              (Live(m) ==> m.supervisor.Installed?) && !m.closing.Closed?
  {
    var m := Run(NewManager(), es);
    assert i < |m.waiters| ==> WaiterOk(m, m.waiters[i]);
  }

  /** Over every run the published epochs strictly increase. */
  lemma {:induction false} PublishedEpochsIncrease(es: seq<Event>, i: nat, j: nat)
    requires i < j < |Run(NewManager(), es).published|
    ensures Run(NewManager(), es).published[i] < Run(NewManager(), es).published[j]
    decreases j
  {
    if i + 1 < j { PublishedEpochsIncrease(es, i, j - 1); }
  }

  // ---- What a caller gets ----

  /** A caller is granted the session of the slot while it is alive, at once if it looks, and is refused
      only after its time is up or the shutdown flag is; it changes nothing but the wake-up it stores. */
  lemma CallerStep(m: Manager, i: nat, timedOut: bool)
    requires CanHappen(m, Wait(i, timedOut))
    ensures var m', w := Next(m, Wait(i, timedOut)), m.waiters[i];
            && |m'.waiters| == |m.waiters|
            && (m'.waiters[i].Granted? <==> (w.FirstLook? || w.Look?) && Live(m))
            && (m'.waiters[i].Granted? ==> m.slot == Some(m'.waiters[i].session) && !m'.waiters[i].session.dead)
            && (m'.waiters[i].Refused? <==>
                  (w.LoopTop? && (timedOut || ShutdownFlag(m))) || (w.Parked? && timedOut))
            && (w.FirstLook? && !Live(m) ==> m'.waiters[i].Nudge?) && (w.Nudge? ==> m'.permit)
            && m' == m.(waiters := m.waiters[i := m'.waiters[i]], permit := m.permit || w.Nudge?)
  {
  }

  /** Nothing but its own moves changes a caller. */
  lemma CallerElsewhere(m: Manager, e: Event, i: nat)
    requires CanHappen(m, e) && i < |m.waiters| && !(e.Wait? && e.i == i)
    ensures i < |Next(m, e).waiters| && Next(m, e).waiters[i] == m.waiters[i]
  {
  }

  /** A caller that has not been answered. */
  predicate Waiting(m: Manager, i: nat)
  {
    i < |m.waiters| ==> !m.waiters[i].Granted? && !m.waiters[i].Refused?
  }

  /** After some events of the run, session s was in the slot and alive. */
  ghost predicate WasLive(m: Manager, es: seq<Event>, s: Session)
    requires Inv(m)
  {
    exists k :: 0 <= k <= |es| && Run(m, es[..k]).slot == Some(s) && !s.dead
  }

  /** At some event of the run the caller ran out of time, or the shutdown flag was up. */
  ghost predicate HadReason(m: Manager, es: seq<Event>, i: nat)
    requires Inv(m)
  {
    exists k :: 0 <= k < |es| && (es[k] == Wait(i, true) || ShutdownFlag(Run(m, es[..k])))
  }

  lemma LaterPrefix(m: Manager, es: seq<Event>, k: nat)
    requires Inv(m) && es != [] && k < |es|
    ensures var r := if CanHappen(m, es[0]) then Next(m, es[0]) else m;
            Inv(r) && Run(m, es) == Run(r, es[1..]) && Run(m, es[..k + 1]) == Run(r, es[1..][..k])
  {
    if CanHappen(m, es[0]) { InvStep(m, es[0]); }
    assert es[..k + 1][0] == es[0] && es[..k + 1][1..] == es[1..][..k];
  }

  lemma LaterWasLive(m: Manager, es: seq<Event>, s: Session)
    requires Inv(m) && es != []
    ensures var r := if CanHappen(m, es[0]) then Next(m, es[0]) else m;
            Inv(r) && (WasLive(r, es[1..], s) ==> WasLive(m, es, s))
  {
    LaterPrefix(m, es, 0);
    var r := if CanHappen(m, es[0]) then Next(m, es[0]) else m;
    if WasLive(r, es[1..], s) {
      var k :| 0 <= k <= |es[1..]| && Run(r, es[1..][..k]).slot == Some(s) && !s.dead;
      if k < |es| { LaterPrefix(m, es, k); }
      assert Run(m, es[..k + 1]).slot == Some(s);
    }
  }

  lemma LaterHadReason(m: Manager, es: seq<Event>, i: nat)
    requires Inv(m) && es != []
    ensures var r := if CanHappen(m, es[0]) then Next(m, es[0]) else m;
            Inv(r) && (HadReason(r, es[1..], i) ==> HadReason(m, es, i))
  {
    LaterPrefix(m, es, 0);
    var r := if CanHappen(m, es[0]) then Next(m, es[0]) else m;
    if HadReason(r, es[1..], i) {
      var k :| 0 <= k < |es[1..]| && (es[1..][k] == Wait(i, true) || ShutdownFlag(Run(r, es[1..][..k])));
      LaterPrefix(m, es, k);
      assert es[k + 1] == Wait(i, true) || ShutdownFlag(Run(m, es[..k + 1]));
    }
  }

  /** In every run, a caller holds only a session that was alive in the slot, and goes away empty-handed
      only after running out of time or after the shutdown flag. */
  lemma {:induction false} EveryAnswerHadReason(m: Manager, es: seq<Event>, i: nat)
    requires Inv(m) && Waiting(m, i) && i < |Run(m, es).waiters|
    ensures Run(m, es).waiters[i].Granted? ==> WasLive(m, es, Run(m, es).waiters[i].session)
    ensures Run(m, es).waiters[i].Refused? ==> HadReason(m, es, i)
    decreases |es|
  {
    if es != [] {
      LaterPrefix(m, es, 0);
      var r := if CanHappen(m, es[0]) then Next(m, es[0]) else m;
      if Waiting(r, i) {
        EveryAnswerHadReason(r, es[1..], i);
        if Run(m, es).waiters[i].Granted? { LaterWasLive(m, es, Run(m, es).waiters[i].session); }
        LaterHadReason(m, es, i);
      } else {
        AnsweredNow(m, es, i);
      }
    }
  }

  /** The first event of the run answers the caller, and the answer stands. */
  lemma AnsweredNow(m: Manager, es: seq<Event>, i: nat)
    requires Inv(m) && Waiting(m, i) && es != [] && CanHappen(m, es[0]) && !Waiting(Next(m, es[0]), i)
    ensures i < |Run(m, es).waiters|
    ensures Run(m, es).waiters[i].Granted? ==> WasLive(m, es, Run(m, es).waiters[i].session)
    ensures Run(m, es).waiters[i].Refused? ==> HadReason(m, es, i)
  {
    var e := es[0];
    InvStep(m, e);
    assert e == Wait(i, e.timedOut) by { if i < |m.waiters| && !(e.Wait? && e.i == i) { CallerElsewhere(m, e, i); } }
    CallerStep(m, i, e.timedOut);
    AnswerStands(Next(m, e), es[1..], i);
    assert es[..0] == [] && Run(m, es[..0]) == m;
    if Run(m, es).waiters[i].Granted? {
      assert Run(m, es[..0]).slot == Some(Run(m, es).waiters[i].session);
    } else {
      assert es[0] == Wait(i, true) || ShutdownFlag(Run(m, es[..0]));
    }
  }

  lemma {:induction false} AnswerStands(m: Manager, es: seq<Event>, i: nat)
    requires Inv(m) && i < |m.waiters| && (m.waiters[i].Granted? || m.waiters[i].Refused?)
    ensures i < |Run(m, es).waiters| && Run(m, es).waiters[i] == m.waiters[i]
    decreases |es|
  {
    if es != [] {
      if CanHappen(m, es[0]) {
        InvStep(m, es[0]);
        CallerElsewhere(m, es[0], i);
        AnswerStands(Next(m, es[0]), es[1..], i);
      } else {
        AnswerStands(m, es[1..], i);
      }
    }
  }

  // ---- What the supervisor does ----

  /** It never touches a healthy session, fills the slot only with the session of its own attempt, takes a
      dead one out when it inspects it, announces the epoch it installed, and stops only when told to or
      when an attempt failed and retrying is off. */
  lemma SupervisorPromises(m: Manager, success: bool, retry: bool, byTimer: bool)
    requires Inv(m) && CanHappen(m, Supervise(success, retry, byTimer))
    ensures var m' := Next(m, Supervise(success, retry, byTimer));
            && (Live(m) ==> m'.slot == m.slot)
            && (m'.slot != m.slot ==>
                  || (m'.slot == None && m.supervisor.Inspect?)
                  || (m.supervisor.Connected? && m'.slot == Some(m.supervisor.session)))
            && (m.supervisor.Inspect? && m.slot.Some? && m.slot.value.dead ==> m'.slot == None)
            && (m.supervisor.Connected? ==> m'.slot == Some(m.supervisor.session))
            && m'.published == (if m.supervisor.Installed? then m.published + [m.supervisor.epoch] else m.published)
            && (m'.supervisor.Exited? <==>
                  (m.supervisor.Top? && ShutdownFlag(m)) || m.supervisor.AnnounceGivenUp?)
            && (m'.supervisor.AnnounceGivenUp? <==> m.supervisor.Connecting? && !success && !retry)
            && m'.waiters == m.waiters && m'.closing == m.closing
            // what callers may be waiting for is broadcast, and a stored wake-up is used up by what it wakes
            && m'.version == m.version
               + (if m.supervisor.AnnounceLost? || m.supervisor.Installed? || m.supervisor.AnnounceFailed?
                     || m.supervisor.AnnounceGivenUp? then 1 else 0)
            && (m'.permit <==> m.permit && ((m.supervisor.Resting? || m.supervisor.BackingOff?) ==> byTimer))
  {
  }

  /** A shutdown raises the flag, then takes the session out, then tells every caller; nothing else does
      either. A report of a broken session only stores a wake-up. */
  lemma ShutdownPromises(m: Manager, e: Event)
    requires CanHappen(m, e) && (e.Shutdown? || e.NotifyBroken? || e.Arrive? || e.SessionDies? || e.AttemptDies?)
    ensures var m' := Next(m, e);
            && (e.Shutdown? && m.closing.NotAsked? ==> m' == m.(closing := Flagged))
            && (e.Shutdown? && m.closing.Flagged? ==> m' == m.(closing := Taken, slot := None))
            && (e.Shutdown? && m.closing.Taken? ==> m' == m.(closing := Closed, version := m.version + 1))
            && (e.NotifyBroken? ==> m' == m.(permit := true))
            && (e.Arrive? ==> m' == m.(waiters := m.waiters + [FirstLook]))
            && (e.SessionDies? || e.AttemptDies? ==>
                  && m'.waiters == m.waiters && m'.closing == m.closing && m'.version == m.version
                  && (m'.slot == m.slot || m'.slot == Some(Session(m.slot.value.epoch, true))))
  {
  }

  // ---- A caller is served ----

  /** How far the supervisor is from a healthy, announced session when its attempts succeed. */
  function ToGo(m: Manager): nat
  {
    match m.supervisor
    case Installed(_) => if Live(m) then 1 else 6
    case Connected(session) => if session.dead then 7 else 2
    case Connecting(_) => 3
    case CheckCurrent => 4
    case Top => 5
    case AnnounceLost => 6
    case BackingOff => 6
    case Inspect => 7
    case AnnounceFailed => 7
    case Resting => 8
    case AnnounceGivenUp => 9
    case Exited => 9
  }

  predicate Healthy(m: Manager) { Live(m) && !m.supervisor.Installed? }

  predicate Running(m: Manager)
  {
    !ShutdownFlag(m) && !m.supervisor.Exited? && !m.supervisor.AnnounceGivenUp?
  }

  lemma GoesForward(m: Manager)
    requires Inv(m) && Running(m) && !Healthy(m)
    ensures CanHappen(m, GO) && Running(Next(m, GO)) && Next(m, GO).waiters == m.waiters
    ensures Healthy(Next(m, GO)) || ToGo(Next(m, GO)) < ToGo(m)
  {
  }

  lemma {:induction false} BecomesHealthy(m: Manager) returns (es: seq<Event>)
    requires Inv(m) && Running(m)
    ensures forall k :: 0 <= k < |es| ==> es[k] == GO
    ensures Healthy(Run(m, es)) && Running(Run(m, es)) && Run(m, es).waiters == m.waiters
    decreases if Healthy(m) then 0 else ToGo(m)
  {
    es := [];
    if !Healthy(m) {
      GoesForward(m);
      InvStep(m, GO);
      var more := BecomesHealthy(Next(m, GO));
      es := [GO] + more;
      assert es[1..] == more;
      RunStep(m, es);
    }
  }

  /** How many moves a caller still has to make beside a healthy session. */
  function MovesLeft(w: Waiter): nat
  {
    match w
    case FirstLook => 1
    case Look(_) => 1
    case Parked(_) => 2
    case LoopTop(_) => 3
    case Subscribe => 4
    case Nudge => 5
    case _ => 0
  }

  lemma {:induction false} LooksOnce(m: Manager, i: nat) returns (es: seq<Event>)
    requires Inv(m) && Healthy(m) && Running(m) && i < |m.waiters| && Waiting(m, i)
    ensures forall k :: 0 <= k < |es| ==> es[k] == Wait(i, false)
    ensures i < |Run(m, es).waiters| && Run(m, es).waiters[i] == Granted(m.slot.value)
    decreases MovesLeft(m.waiters[i])
  {
    var e := Wait(i, false);
    assert WaiterOk(m, m.waiters[i]);
    CallerStep(m, i, false);
    InvStep(m, e);
    var more := [];
    if !Next(m, e).waiters[i].Granted? { more := LooksOnce(Next(m, e), i); }
    es := [e] + more;
    assert es[1..] == more;
    RunStep(m, es);
  }

  lemma {:induction false} RunTwice(m: Manager, es: seq<Event>, fs: seq<Event>)
    requires Inv(m)
    ensures Run(m, es + fs) == Run(Run(m, es), fs)
    decreases |es|
  {
    if es == [] {
      assert es + fs == fs;
    } else {
      assert (es + fs)[0] == es[0] && (es + fs)[1..] == es[1..] + fs;
      if CanHappen(m, es[0]) {
        InvStep(m, es[0]);
        RunTwice(Next(m, es[0]), es[1..], fs);
      } else {
        RunTwice(m, es[1..], fs);
      }
    }
  }

  /** From wherever the supervisor stands, with attempts that succeed and no shutdown, it goes on to a
      healthy session by its own steps alone, and a waiting caller then gets it by its own: no caller waits
      for anything that would not come. */
  lemma CallerIsServed(m: Manager, i: nat) returns (es: seq<Event>, fs: seq<Event>)
    requires Inv(m) && Running(m) && i < |m.waiters| && Waiting(m, i)
    ensures forall k :: 0 <= k < |es| ==> es[k] == GO
    ensures forall k :: 0 <= k < |fs| ==> fs[k] == Wait(i, false)
    ensures var r := Run(m, es + fs);
            i < |r.waiters| && r.waiters[i].Granted? && !r.waiters[i].session.dead
  {
    es := BecomesHealthy(m);
    fs := LooksOnce(Run(m, es), i);
    RunTwice(m, es, fs);
  }

  // ---- Closed is not final ----

  /** Past the shutdown check and before the announcement. */
  predicate AttemptInFlight(s: Supervisor)
  {
    s.CheckCurrent? || s.Connecting? || s.Connected? || s.Installed?
  }

  lemma {:induction false} NoAttemptNoAnnouncement(m: Manager, es: seq<Event>)
    requires Inv(m) && ShutdownFlag(m) && !AttemptInFlight(m.supervisor)
    ensures Run(m, es).published == m.published
    decreases |es|
  {
    if es != [] {
      if CanHappen(m, es[0]) {
        InvStep(m, es[0]);
        NoAttemptNoAnnouncement(Next(m, es[0]), es[1..]);
      } else {
        NoAttemptNoAnnouncement(m, es[1..]);
      }
    }
  }

  const GO := Supervise(true, true, true)

  lemma RunStep(m: Manager, es: seq<Event>)
    requires Inv(m) && es != [] && CanHappen(m, es[0])
    ensures Inv(Next(m, es[0])) && Run(m, es) == Run(Next(m, es[0]), es[1..])
  {
    InvStep(m, es[0]);
  }

  /** An attempt in flight can run to its announcement, whatever was closed meanwhile. */
  lemma AttemptCanAnnounce(m: Manager) returns (es: seq<Event>)
    requires Inv(m) && AttemptInFlight(m.supervisor)
    ensures |Run(m, es).published| > |m.published|
    decreases if m.supervisor.CheckCurrent? then (if Live(m) then 4 else 3) else if m.supervisor.Connecting? then 2
              else if m.supervisor.Connected? then 1 else 0
  {
    var e := if m.supervisor.CheckCurrent? && Live(m) then SessionDies else GO;
    InvStep(m, e);
    var rest := [];
    if !m.supervisor.Installed? {
      rest := AttemptCanAnnounce(Next(m, e));
    }
    es := [e] + rest;
    assert es[1..] == rest;
    RunStep(m, es);
  }

  /** After the shutdown flag is up, no session is announced any more exactly when no attempt was
      already past the check. */
  lemma ClosedIsFinalExactly(m: Manager)
    requires Inv(m) && ShutdownFlag(m)
    ensures (forall es :: Run(m, es).published == m.published) <==> !AttemptInFlight(m.supervisor)
  {
    if AttemptInFlight(m.supervisor) {
      var es := AttemptCanAnnounce(m);
      assert Run(m, es).published != m.published;
    } else {
      forall es ensures Run(m, es).published == m.published {
        NoAttemptNoAnnouncement(m, es);
      }
    }
  }

  /** The supervisor passes its check, a shutdown runs to its end, and the attempt goes on. */
  const UP_TO_CLOSED := [GO, Shutdown, Shutdown, Shutdown]
  const AND_ON := [GO, GO, GO, GO]

  function Closed0(): Manager { Manager(None, 1, 1, false, CheckCurrent, Closed, [], 0, []) }

  lemma ReachesClosed()
    ensures Inv(Closed0()) && Run(NewManager(), UP_TO_CLOSED) == Closed0()
  {
    var m1 := NewManager().(supervisor := CheckCurrent);
    var m2 := m1.(closing := Flagged);
    var m3 := m1.(closing := Taken);
    RunStep(NewManager(), UP_TO_CLOSED);
    assert UP_TO_CLOSED[1..] == [Shutdown, Shutdown, Shutdown];
    RunStep(m1, [Shutdown, Shutdown, Shutdown]);
    assert [Shutdown, Shutdown, Shutdown][1..] == [Shutdown, Shutdown];
    RunStep(m2, [Shutdown, Shutdown]);
    assert [Shutdown, Shutdown][1..] == [Shutdown];
    RunStep(m3, [Shutdown]);
    assert [Shutdown][1..] == [];
  }

  /** A manager that was closed for good announces a session all the same. */
  lemma ClosedThenUp()
    ensures var m := Run(NewManager(), UP_TO_CLOSED);
            && m.closing.Closed? && m.published == []
            && Run(m, AND_ON).published == [1] && Live(Run(m, AND_ON))
  {
    ReachesClosed();
    var m1 := Closed0().(supervisor := Connecting(1), nextEpoch := 2);
    var m2 := m1.(supervisor := Connected(Session(1, false)));
    var m3 := m2.(supervisor := Installed(1), slot := Some(Session(1, false)), installedAt := 1);
    RunStep(Closed0(), AND_ON);
    assert AND_ON[1..] == [GO, GO, GO];
    RunStep(m1, [GO, GO, GO]);
    assert [GO, GO, GO][1..] == [GO, GO];
    RunStep(m2, [GO, GO]);
    assert [GO, GO][1..] == [GO];
    RunStep(m3, [GO]);
    assert [GO][1..] == [] && [] + [1] == [1];
  }
}
