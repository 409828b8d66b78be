/** Without a rewind no byte leaves the window twice and none is skipped, whatever is written and
    acknowledged in between. */
module SendOnce {
  import opened Prelude
  import opened Window
  import opened Frames

  datatype Op = Written(data: bytes) | Taken(max: nat) | Acked(offset: nat)

  /** A peer acknowledges only what was sent. */
  predicate Fair(w: Window, op: Op) { op.Acked? ==> op.offset <= w.cursor }

  function After(w: Window, op: Op): (w': Window)
    requires w.Valid() && Fair(w, op)
    ensures w'.Valid()
  {
    match op
    case Written(data) => w.Push(data)
    case Taken(max) => w.NextUnsent(max).0
    case Acked(offset) => w.Ack(offset).value
  }

  function TakenFrame(id: StreamId, s: Option<Segment>): seq<Frame>
  {
    if s.Some? then [Data(id, s.value.offset, s.value.data)] else []
  }

  lemma TakeCarries(id: StreamId, w: Window, max: nat)
    requires w.Valid()
    ensures var (w', s) := w.NextUnsent(max);
            w.cursor <= w'.cursor <= |w.hist| && Carries(TakenFrame(id, s), id, w.cursor, w'.cursor, w.hist)
  {
    var (w', s) := w.NextUnsent(max);
    if s.Some? {
      assert TakenFrame(id, s)[1..] == [];
    }
  }

  /** The frame, of stream id, in which an operation takes bytes out. */
  function Out(id: StreamId, w: Window, op: Op): seq<Frame>
    requires w.Valid()
  {
    if op.Taken? then TakenFrame(id, w.NextUnsent(op.max).1) else []
  }

  /** The window after some operations, and the frames taken on the way; unfair acks are skipped. */
  function Run(id: StreamId, w: Window, ops: seq<Op>): (r: (Window, seq<Frame>))
    requires w.Valid()
    decreases |ops|
  {
    if ops == [] then (w, [])
    else if !Fair(w, ops[0]) then Run(id, w, ops[1..])
    else
      var (w', rest) := Run(id, After(w, ops[0]), ops[1..]);
      (w', Out(id, w, ops[0]) + rest)
  }

  lemma StepCarries(id: StreamId, w: Window, op: Op)
    requires w.Valid() && Fair(w, op)
    ensures var w' := After(w, op);
            && w.hist <= w'.hist && w.cursor <= w'.cursor && w.acked <= w'.acked
            && Carries(Out(id, w, op), id, w.cursor, w'.cursor, w'.hist)
  {
    if op.Taken? { TakeCarries(id, w, op.max); }
  }

  lemma {:induction false} EachByteOnce(id: StreamId, w: Window, ops: seq<Op>)
    requires w.Valid()
    ensures var (w', fs) := Run(id, w, ops);
            && w'.Valid() && w.hist <= w'.hist && w.cursor <= w'.cursor && w.acked <= w'.acked
            && Carries(fs, id, w.cursor, w'.cursor, w'.hist)
    decreases |ops|
  {
    if ops != [] {
      if Fair(w, ops[0]) {
        var mid := After(w, ops[0]);
        StepCarries(id, w, ops[0]);
        EachByteOnce(id, mid, ops[1..]);
        var (w', rest) := Run(id, mid, ops[1..]);
        CarriesLonger(Out(id, w, ops[0]), id, w.cursor, mid.cursor, mid.hist, w'.hist);
        CarriesAppend(Out(id, w, ops[0]), rest, id, w.cursor, mid.cursor, w'.cursor, w'.hist);
      } else {
        EachByteOnce(id, w, ops[1..]);
      }
    }
  }
}
