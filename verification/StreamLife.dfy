/** The whole life of one client stream: whatever commands and frames reach it, with a channel or
    without one, its Fin leaves at most once, and only after every byte written has left. */
module StreamLife {
  import opened Prelude
  import opened Frames
  import opened Mux
  import opened Driver

  datatype Op = Inbound(f: Frame, localOk: bool) | Online(c: Command) | Offline(c: Command)

  predicate Addressed(op: Op, id: StreamId)
  {
    if op.Inbound? then op.f.StreamOf() == Some(id) else op.c.id == id
  }

  function Apply(st: StreamState, op: Op): (o: Outcome)
    requires st.tx.Valid() && (op.Inbound? ==> op.f.StreamOf().Some?)
  {
    match op
    case Inbound(f, localOk) => FrameOutcome(st, f, localOk)
    case Online(c) => OnlineOutcome(st, c)
    case Offline(c) => OfflineOutcome(st, c)
  }

  /** Once a Fin has been sent the local side writes nothing more: it announced its end of input before. */
  predicate Closed(st: StreamState) { st.tx.fin ==> st.localFin }

  function Fins(fs: seq<Frame>): nat
  {
    if fs == [] then 0 else (if fs[0].Fin? then 1 else 0) + Fins(fs[1..])
  }

  lemma {:induction false} FinsAppend(fs: seq<Frame>, gs: seq<Frame>)
    ensures Fins(fs + gs) == Fins(fs) + Fins(gs)
  {
    if fs == [] {
      assert fs + gs == gs;
    } else {
      assert (fs + gs)[1..] == fs[1..] + gs && (fs + gs)[0] == fs[0];
      FinsAppend(fs[1..], gs);
    }
  }

  lemma {:induction false} NoFins(fs: seq<Frame>)
    requires forall i :: 0 <= i < |fs| ==> !fs[i].Fin?
    ensures Fins(fs) == 0
  {
    if fs != [] { NoFins(fs[1..]); }
  }

  /** A drain emits a Fin exactly when this is the drain that closes the stream, and then as its last frame. */
  lemma DrainFins(id: StreamId, st: StreamState, k: nat)
    requires st.tx.Valid()
    ensures var (st', fs) := Drain(id, st, k);
            && Fins(fs) == (if st'.tx.fin && !st.tx.fin then 1 else 0)
            && (st'.tx.fin && !st.tx.fin ==>
                  && fs[|fs| - 1] == Fin(id)
                  && st.localFin && st'.localFin && st'.tx.cursor == |st'.tx.hist|)
            && (st.tx.fin ==> st'.tx.fin) && st'.localFin == st.localFin && st'.tx.Valid()
  {
    var datas := DataFrames(id, st.tx, k);
    NoFins(datas);
    FinsAppend(datas, [Fin(id)]);
    assert Fins([Fin(id)]) == 1 by { assert [Fin(id)][1..] == []; }
  }

  /** What a single operation does to the closing of a stream. */
  predicate ClosesRight(st: StreamState, o: Outcome)
  {
    && o.st.tx.Valid() && (o.live ==> Closed(o.st))
    && (st.tx.fin ==> o.st.tx.fin)
    && Fins(o.out) == (if o.st.tx.fin && !st.tx.fin then 1 else 0)
    && (o.st.tx.fin && !st.tx.fin ==>
          o.out[|o.out| - 1].Fin? && o.st.localFin && o.st.tx.cursor == |o.st.tx.hist|)
  }

  lemma ResumeClosesRight(st: StreamState, f: Frame, localOk: bool)
    requires st.tx.Valid() && Closed(st) && f.ResumeOk?
    ensures ClosesRight(st, FrameOutcome(st, f, localOk))
  {
    if st.tx.Rewind(f.recvOffset).Ok? {
      DrainFins(f.id, st.(tx := st.tx.Rewind(f.recvOffset).value), DRAIN_BATCH);
    } else {
      NoFins(FrameOutcome(st, f, localOk).out);
    }
  }

  lemma FrameClosesRight(st: StreamState, f: Frame, localOk: bool)
    requires st.tx.Valid() && Closed(st) && f.StreamOf().Some? && !f.ResumeOk?
    ensures ClosesRight(st, FrameOutcome(st, f, localOk))
  {
    NoFins(FrameOutcome(st, f, localOk).out);
  }

  lemma CommandClosesRight(st: StreamState, c: Command)
    requires st.tx.Valid() && Closed(st)
    ensures ClosesRight(st, OnlineOutcome(st, c)) && ClosesRight(st, OfflineOutcome(st, c))
  {
    match c {
      case LocalData(id, data) => DrainFins(id, st.(tx := st.tx.Push(data)), DRAIN_BATCH);
      case LocalEof(id) => DrainFins(id, st.(localFin := true), DRAIN_BATCH);
      case LocalClose(_) =>
    }
    if !OnlineOutcome(st, c).live { NoFins(OnlineOutcome(st, c).out); }
  }

  lemma ApplyClosesRight(st: StreamState, op: Op, id: StreamId)
    requires st.tx.Valid() && Closed(st) && Addressed(op, id)
    ensures ClosesRight(st, Apply(st, op))
  {
    match op {
      case Inbound(f, localOk) =>
        if f.ResumeOk? { ResumeClosesRight(st, f, localOk); } else { FrameClosesRight(st, f, localOk); }
      case Online(c) => CommandClosesRight(st, c);
      case Offline(c) => CommandClosesRight(st, c);
    }
  }

  /** Everything a stream sends over a run of operations, and where it ends; nothing follows its death. */
  function Life(st: StreamState, id: StreamId, ops: seq<Op>): (o: Outcome)
    requires st.tx.Valid() && Closed(st)
    requires forall i :: 0 <= i < |ops| ==> Addressed(ops[i], id)
    decreases |ops|
  {
    if ops == [] then Outcome(st, true, [])
    else
      ApplyClosesRight(st, ops[0], id);
      var o := Apply(st, ops[0]);
      if !o.live then o
      else
        var rest := Life(o.st, id, ops[1..]);
        rest.(out := o.out + rest.out)
  }

  lemma {:induction false} FinOnce(st: StreamState, id: StreamId, ops: seq<Op>)
    requires st.tx.Valid() && Closed(st)
    requires forall i :: 0 <= i < |ops| ==> Addressed(ops[i], id)
    ensures var o := Life(st, id, ops);
            (st.tx.fin ==> o.st.tx.fin) && Fins(o.out) == (if o.st.tx.fin && !st.tx.fin then 1 else 0)
    decreases |ops|
  {
    if ops != [] {
      ApplyClosesRight(st, ops[0], id);
      var o := Apply(st, ops[0]);
      if o.live {
        FinOnce(o.st, id, ops[1..]);
        FinsAppend(o.out, Life(o.st, id, ops[1..]).out);
      }
    }
  }

  /** Over a stream's whole life Fin leaves at most once. */
  lemma FinAtMostOnce(window: nat, id: StreamId, ops: seq<Op>)
    requires 0 < window && forall i :: 0 <= i < |ops| ==> Addressed(ops[i], id)
    ensures Fins(Life(NewStream(window), id, ops).out) <= 1
  {
    FinOnce(NewStream(window), id, ops);
  }

  /** So a Fin lost with its channel is never repeated: the resume answer that rewinds the cursor to
      any earlier offset sends data frames only. */
  lemma FinIsNotRetransmitted(st: StreamState, id: StreamId, ops: seq<Op>)
    requires st.tx.Valid() && Closed(st) && st.tx.fin
    requires forall i :: 0 <= i < |ops| ==> Addressed(ops[i], id)
    ensures Fins(Life(st, id, ops).out) == 0
  {
    FinOnce(st, id, ops);
  }
}
