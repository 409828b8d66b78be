/** The helper task that moves bytes from the egress socket into the shared send buffer and onto the
    wire, one atomic action at a time, with the main loop's acks, rewinds and wake-ups in between. */
module Uplink {
  import opened Prelude
  import opened Window

  /** Where the task stands. Every use of the shared buffer and every await is its own point. */
  datatype Pc =
    | Flushing
    | Sending(seg: Segment)
    | SendingFin
    | CheckAcked
    | WaitAcked
    | CheckWindow
    | WaitWindow
    | Reading(cap: nat)
    | GotBytes(data: bytes)
    | GotEof
    | Done
    | Broken

  /** permit: a stored wake-up. owed: the main loop has changed the buffer but not yet woken the task.
      readLog: every byte ever read from the egress socket. */
  datatype Uplink = Uplink(
    tx: Window,
    pc: Pc,
    eof: bool,
    finSent: bool,
    permit: bool,
    owed: bool,
    readLog: bytes)

  datatype Event =
    | Advance
    | ReadBytes(data: bytes)
    | ReadEof
    | MainAck(offset: nat)
    | MainRewind(offset: nat)
    | MainWake

  function NewUplink(window: nat): Uplink
    requires 0 < window
  {
    Uplink(NewWindow(window), Flushing, false, false, false, false, [])
  }

  predicate CanHappen(u: Uplink, e: Event)
    requires u.tx.Valid()
  {
    match e
    case Advance =>
      !u.pc.Done? && !u.pc.Broken? && (u.pc.WaitAcked? || u.pc.WaitWindow? || u.pc.Reading? ==> u.permit)
    case ReadBytes(data) => u.pc.Reading? && 0 < |data| <= u.pc.cap
    case ReadEof => u.pc.Reading?
    case MainAck(offset) => u.tx.Ack(offset).Ok?
    case MainRewind(offset) => u.tx.Rewind(offset).Ok?
    case MainWake => u.owed
  }

  function Next(u: Uplink, e: Event): (u': Uplink)
    requires u.tx.Valid() && CanHappen(u, e)
  {
    match e
    case ReadBytes(data) => u.(pc := GotBytes(data), readLog := u.readLog + data)
    case ReadEof => u.(pc := GotEof, eof := true)
    case MainAck(offset) => u.(tx := u.tx.Ack(offset).value, owed := true)
    case MainRewind(offset) => u.(tx := u.tx.Rewind(offset).value, owed := true)
    case MainWake => u.(permit := true, owed := false)
    case Advance =>
      match u.pc
      case Flushing =>
        var (tx, s) := u.tx.NextUnsent(DATA_CHUNK);
        if s.Some? then u.(tx := tx, pc := Sending(s.value))
        else if !u.eof then u.(pc := CheckWindow)
        else u.(pc := if u.finSent then CheckAcked else SendingFin)
      case Sending(_) => u.(pc := Flushing)
      case SendingFin => u.(finSent := true, pc := CheckAcked)
      case CheckAcked => u.(pc := if u.tx.FullyAcked() then Done else WaitAcked)
      case WaitAcked => u.(permit := false, pc := Flushing)
      case CheckWindow =>
        u.(pc := if u.tx.Writable() == 0 then WaitWindow else Reading(Min(u.tx.Writable(), DATA_CHUNK)))
      case WaitWindow => u.(permit := false, pc := Flushing)
      case Reading(_) => u.(permit := false, pc := Flushing)
      case GotBytes(data) =>
        u.(tx := u.tx.Push(data), pc := if Min(u.tx.Writable(), |data|) != |data| then Broken else Flushing)
      case GotEof => u.(tx := u.tx.(fin := true), pc := Flushing)
      case Done => u
      case Broken => u
  }

  /** Past the flush, so unsent bytes would be noticed only after a wake-up. */
  predicate PastFlush(pc: Pc)
  {
    !pc.Flushing? && !pc.Sending? && !pc.Done? && !pc.Broken?
  }

  /** What the task, where it stands, is waiting to see. */
  predicate HasReason(u: Uplink)
    requires u.tx.Valid()
  {
    || (PastFlush(u.pc) && u.tx.HasPending())
    || (u.pc.WaitAcked? && u.tx.FullyAcked())
    || (u.pc.WaitWindow? && 0 < u.tx.Writable())
  }

  predicate Inv(u: Uplink)
  {
    && u.tx.Valid()
    && !u.pc.Broken?
    // a read never brings more than the buffer still accepts, and nothing read is ever lost
    && (u.pc.Reading? ==> 0 < u.pc.cap <= u.tx.Writable())
    && (u.pc.GotBytes? ==> 0 < |u.pc.data| <= u.tx.Writable())
    && u.readLog == u.tx.hist + (if u.pc.GotBytes? then u.pc.data else [])
    // the end of input is announced once, after everything was read
    && (u.tx.fin ==> u.eof) && (u.eof ==> u.tx.fin || u.pc.GotEof?) && (u.pc.GotEof? ==> u.eof)
    && (u.finSent ==> u.tx.fin)
    && (u.pc.SendingFin? ==> u.tx.fin && !u.finSent)
    && (u.pc.CheckAcked? || u.pc.WaitAcked? ==> u.finSent)
    && (u.pc.CheckWindow? || u.pc.WaitWindow? || u.pc.Reading? || u.pc.GotBytes? ==> !u.eof)
    && (u.pc.Done? ==> u.finSent && u.tx.FullyAcked())
    // no wake-up is lost
    && (HasReason(u) ==> u.permit || u.owed)
  }

  /** Bytes read are never more than the buffer still accepts. */
  lemma PushKeeps(u: Uplink)
    requires Inv(u) && u.pc.GotBytes?
    ensures Inv(Next(u, Advance))
  {
    assert u.pc.data[..|u.pc.data|] == u.pc.data;
  }

  /** One other action of the task itself. */
  lemma AdvanceKeeps(u: Uplink)
    requires Inv(u) && CanHappen(u, Advance) && !u.pc.GotBytes?
    ensures Inv(Next(u, Advance))
  {
  }

  /** What the socket and the main loop do in between. */
  lemma OthersKeep(u: Uplink, e: Event)
    requires Inv(u) && CanHappen(u, e) && !e.Advance?
    ensures Inv(Next(u, e))
  {
  }

  lemma InvStep(u: Uplink, e: Event)
    requires Inv(u) && CanHappen(u, e)
    ensures Inv(Next(u, e))
  {
    if !e.Advance? {
      OthersKeep(u, e);
    } else if u.pc.GotBytes? {
      PushKeeps(u);
    } else {
      AdvanceKeeps(u);
    }
  }

  /** What is taken for sending is the next run from the cursor, a whole chunk if there is one; a read is asked
      for as much as fits the window, up to a chunk, and for nothing when the window is full; the end of input
      is marked when it is read and announced once everything else has been taken; and the task ends when
      everything is acknowledged. */
  lemma TaskPromises(u: Uplink)
    requires Inv(u) && CanHappen(u, Advance)
    ensures var v, tx := Next(u, Advance), u.tx;
            && (u.pc.Flushing? && tx.cursor < |tx.hist| ==>
                  var n := Min(DATA_CHUNK, |tx.hist| - tx.cursor);
                  && v.pc == Sending(Segment(tx.cursor, tx.hist[tx.cursor..tx.cursor + n]))
                  && v.tx == tx.(cursor := tx.cursor + n))
            && (u.pc.Flushing? && tx.cursor == |tx.hist| ==>
                  && v.tx == tx
                  && v.pc == if !u.eof then CheckWindow else if u.finSent then CheckAcked else SendingFin)
            && (u.pc.CheckWindow? ==>
                  var room := tx.capacity - (|tx.hist| - tx.acked);
                  v.tx == tx && v.pc == if room == 0 then WaitWindow else Reading(Min(room, DATA_CHUNK)))
            && (u.pc.GotBytes? ==> v.tx == tx.(hist := tx.hist + u.pc.data) && v.pc == Flushing)
            && (u.pc.GotEof? ==> v.tx == tx.(fin := true) && v.pc == Flushing)
            && (u.pc.CheckAcked? ==> v.tx == tx && v.pc == if tx.acked == |tx.hist| then Done else WaitAcked)
            && (v.finSent <==> u.finSent || u.pc.SendingFin?)
            && v.eof == u.eof && v.readLog == u.readLog
  {
    if u.pc.GotBytes? { assert u.pc.data[..|u.pc.data|] == u.pc.data; }
  }

  /** The task after any interleaving; events that cannot happen are skipped. */
  function Run(u: Uplink, es: seq<Event>): (r: Uplink)
    requires Inv(u)
    ensures Inv(r)
    decreases |es|
  {
    if es == [] then u
    else if !CanHappen(u, es[0]) then Run(u, es[1..])
    else
      InvStep(u, es[0]);
      Run(Next(u, es[0]), es[1..])
  }

  /** In every interleaving: the clamped write is never refused, the buffer history is what was read,
      a parked task with something to do will be woken, and a finished task left nothing behind. */
  lemma UplinkKeepsEverything(window: nat, es: seq<Event>)
    requires 0 < window
    ensures Inv(NewUplink(window))
    ensures var u := Run(NewUplink(window), es);
            && !u.pc.Broken?
            && u.tx.hist <= u.readLog && (!u.pc.GotBytes? ==> u.tx.hist == u.readLog)
            && (HasReason(u) ==> u.permit || u.owed)
            && (u.pc.Done? ==> u.eof && u.finSent && u.tx.acked == |u.readLog|)
  {
  }
}
