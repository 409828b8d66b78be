/** Buffering while no channel is up is equivalent to sending at once: same resets, same bytes, same Fin. */
module Offline {
  import opened Prelude
  import opened Window
  import opened Frames
  import opened SendOnce
  import opened Mux
  import opened Driver

  lemma NoFramesCarry(id: StreamId, w: Window)
    requires w.Valid()
    ensures Drained(w, 0) == w && Carries(DataFrames(id, w, 0), id, w.cursor, w.cursor, w.hist)
  {
    assert DataFrames(id, w, 0) == [];
  }

  /** fs carry the bytes between the cursors of two states of one window. */
  predicate Between(fs: seq<Frame>, id: StreamId, w: Window, v: Window)
  {
    && v.Valid() && v.hist == w.hist && w.cursor <= v.cursor
    && Carries(fs, id, w.cursor, v.cursor, w.hist)
  }

  /** And with the next frame that the later one gives. */
  lemma OneMoreBetween(fs: seq<Frame>, id: StreamId, w: Window, v: Window, gs: seq<Frame>, x: Window)
    requires Between(fs, id, w, v)
    requires gs == fs + TakenFrame(id, v.NextUnsent(DATA_CHUNK).1) && x == v.NextUnsent(DATA_CHUNK).0
    ensures Between(gs, id, w, x)
  {
    TakeCarries(id, v, DATA_CHUNK);
    CarriesAppend(fs, TakenFrame(id, v.NextUnsent(DATA_CHUNK).1), id, w.cursor, v.cursor, x.cursor, w.hist);
  }

  lemma {:induction false} DrainIsBetween(id: StreamId, w: Window, k: nat)
    requires w.Valid()
    ensures Between(DataFrames(id, w, k), id, w, Drained(w, k))
  {
    if k == 0 {
      NoFramesCarry(id, w);
    } else {
      DrainIsBetween(id, w, k - 1);
      DrainOneMore(id, w, k - 1);
      OneMoreBetween(DataFrames(id, w, k - 1), id, w, Drained(w, k - 1), DataFrames(id, w, k), Drained(w, k));
    }
  }

  /** A drain of at most k frames carries exactly the bytes between the old and the new cursor. */
  lemma DrainCarries(id: StreamId, w: Window, k: nat)
    requires w.Valid()
    ensures w.cursor <= Drained(w, k).cursor <= |w.hist|
    ensures Carries(DataFrames(id, w, k), id, w.cursor, Drained(w, k).cursor, w.hist)
  {
    DrainIsBetween(id, w, k);
  }

  /** Drain until nothing is pending. */
  function Exhaust(id: StreamId, st: StreamState): (r: (StreamState, seq<Frame>))
    requires st.tx.Valid()
    ensures r.0.tx.Valid() && !r.0.tx.HasPending()
  {
    FrameCountCovers(st.tx.Pending(), FrameCount(st.tx.Pending()));
    Drain(id, st, FrameCount(st.tx.Pending()))
  }

  function Online(id: StreamId, st: StreamState, writes: seq<bytes>): (o: Outcome)
    requires st.tx.Valid()
    decreases |writes|
  {
    if writes == [] then Outcome(st, true, [])
    else
      var o := OnlineOutcome(st, LocalData(id, writes[0]));
      if !o.live then o
      else
        var rest := Online(id, o.st, writes[1..]);
        rest.(out := o.out + rest.out)
  }

  function Buffered(id: StreamId, st: StreamState, writes: seq<bytes>): (o: Outcome)
    requires st.tx.Valid()
    decreases |writes|
  {
    if writes == [] then Outcome(st, true, [])
    else
      var o := OfflineOutcome(st, LocalData(id, writes[0]));
      if !o.live then o
      else
        var rest := Buffered(id, o.st, writes[1..]);
        rest.(out := o.out + rest.out)
  }

  /** The same stream but for how far it has sent. */
  predicate SameButCursor(a: StreamState, b: StreamState)
  {
    a == b.(tx := b.tx.(cursor := a.tx.cursor))
  }

  lemma WriteAgrees(id: StreamId, a: StreamState, b: StreamState, data: bytes)
    requires a.tx.Valid() && b.tx.Valid() && SameButCursor(a, b) && !a.localFin
    ensures var on, off := OnlineOutcome(a, LocalData(id, data)), OfflineOutcome(b, LocalData(id, data));
            && on.live == off.live
            && (off.live ==>
                  && off.out == []
                  && on.st.tx.Valid() && off.st.tx.Valid()
                  && SameButCursor(on.st, off.st) && !on.st.localFin && on.st.tx.fin == a.tx.fin
                  && off.st.tx.cursor == b.tx.cursor && off.st.tx.acked == b.tx.acked
                  && a.tx.hist <= on.st.tx.hist && a.tx.cursor <= on.st.tx.cursor
                  && on.st.tx.hist == a.tx.Push(data).hist
                  && Carries(on.out, id, a.tx.cursor, on.st.tx.cursor, on.st.tx.hist))
  {
    DrainCarries(id, a.tx.Push(data), DRAIN_BATCH);
  }

  lemma {:induction false} WritesAgree(id: StreamId, a: StreamState, b: StreamState, writes: seq<bytes>)
    requires a.tx.Valid() && b.tx.Valid() && SameButCursor(a, b) && !a.localFin
    ensures var on, off := Online(id, a, writes), Buffered(id, b, writes);
            && on.live == off.live
            && (off.live ==>
                  && off.out == []
                  && on.st.tx.Valid() && off.st.tx.Valid()
                  && SameButCursor(on.st, off.st) && !on.st.localFin && on.st.tx.fin == a.tx.fin
                  && off.st.tx.cursor == b.tx.cursor && off.st.tx.acked == b.tx.acked
                  && a.tx.hist <= on.st.tx.hist && a.tx.cursor <= on.st.tx.cursor
                  && Carries(on.out, id, a.tx.cursor, on.st.tx.cursor, on.st.tx.hist))
    decreases |writes|
  {
    if writes != [] {
      var on, off := OnlineOutcome(a, LocalData(id, writes[0])), OfflineOutcome(b, LocalData(id, writes[0]));
      WriteAgrees(id, a, b, writes[0]);
      if on.live {
        var pushed := a.tx.Push(writes[0]);
        WritesAgree(id, on.st, off.st, writes[1..]);
        var rest := Online(id, on.st, writes[1..]);
        if rest.live {
          CarriesLonger(on.out, id, a.tx.cursor, on.st.tx.cursor, pushed.hist, rest.st.tx.hist);
          CarriesAppend(on.out, rest.out, id, a.tx.cursor, on.st.tx.cursor, rest.st.tx.cursor, rest.st.tx.hist);
        }
      }
    }
  }

  /** Handle the writes and the optional end of input, then drain to exhaustion. */
  function ThenEof(o: Outcome, id: StreamId, eof: bool, online: bool): (r: Outcome)
    requires o.st.tx.Valid()
  {
    if !o.live || !eof then o
    else
      var e := if online then OnlineOutcome(o.st, LocalEof(id)) else OfflineOutcome(o.st, LocalEof(id));
      e.(out := o.out + e.out)
  }

  function Finished(o: Outcome, id: StreamId): (r: Outcome)
    requires o.st.tx.Valid()
  {
    var (st, fs) := Exhaust(id, o.st);
    Outcome(st, o.live, o.out + fs)
  }

  /** out carries hist from the cursor to the end and closes with Fin exactly when asked to. */
  predicate SendsAll(out: seq<Frame>, id: StreamId, from: nat, hist: bytes, fin: bool)
  {
    if fin then
      && |out| > 0 && out[|out| - 1] == Fin(id)
      && Carries(out[..|out| - 1], id, from, |hist|, hist)
    else Carries(out, id, from, |hist|, hist)
  }

  /** Exhausting a stream after out has carried it up to its cursor. */
  lemma ExhaustSendsAll(id: StreamId, st: StreamState, out: seq<Frame>, from: nat)
    requires st.tx.Valid() && !st.tx.fin
    requires from <= st.tx.cursor && Carries(out, id, from, st.tx.cursor, st.tx.hist)
    ensures var (st', fs) := Exhaust(id, st);
            && SendsAll(out + fs, id, from, st.tx.hist, st.localFin)
            && st' == st.(tx := st.tx.(cursor := |st.tx.hist|, fin := st.localFin))
  {
    var k := FrameCount(st.tx.Pending());
    var datas := DataFrames(id, st.tx, k);
    DrainCarries(id, st.tx, k);
    assert !Exhaust(id, st).0.tx.HasPending();
    CarriesAppend(out, datas, id, from, st.tx.cursor, |st.tx.hist|, st.tx.hist);
    if st.localFin {
      assert (out + (datas + [Fin(id)]))[..|out + datas|] == out + datas;
    }
  }

  /** Nothing is left to do once everything, Fin included, has gone out. */
  lemma ExhaustDone(id: StreamId, st: StreamState)
    requires st.tx.Valid() && !st.tx.HasPending() && st.tx.fin
    ensures Exhaust(id, st) == (st, [])
  {
  }

  /** The end of input handled online: its bounded drain and the final one together send the rest. */
  lemma EofOnline(id: StreamId, st: StreamState, out: seq<Frame>, from: nat)
    requires st.tx.Valid() && !st.tx.fin
    requires from <= st.tx.cursor && Carries(out, id, from, st.tx.cursor, st.tx.hist)
    ensures var e := OnlineOutcome(st, LocalEof(id));
            var (st', fs) := Exhaust(id, e.st);
            && SendsAll(out + e.out + fs, id, from, st.tx.hist, true)
            && st' == st.(localFin := true, tx := st.tx.(cursor := |st.tx.hist|, fin := true))
  {
    var e := OnlineOutcome(st, LocalEof(id));
    var datas := DataFrames(id, st.tx, DRAIN_BATCH);
    DrainCarries(id, st.tx, DRAIN_BATCH);
    CarriesAppend(out, datas, id, from, st.tx.cursor, Drained(st.tx, DRAIN_BATCH).cursor, st.tx.hist);
    if e.st.tx.HasPending() {
      ExhaustSendsAll(id, e.st, out + datas, from);
    } else {
      ExhaustDone(id, e.st);
      assert out + e.out + [] == (out + datas) + [Fin(id)];
      assert ((out + datas) + [Fin(id)])[..|out + datas|] == out + datas;
    }
  }

  /** For any writes and an optional end of input: offline buffering resets exactly when online
      handling does, moves neither cursor nor acked, and after a drain to exhaustion both have sent
      the same bytes and at most one Fin, and stand in the same state. */
  lemma OfflineEqualsOnline(id: StreamId, st: StreamState, writes: seq<bytes>, eof: bool)
    requires st.tx.Valid() && !st.tx.fin && !st.localFin
    ensures var on, off := Online(id, st, writes), Buffered(id, st, writes);
            && on.live == off.live
            && (on.live ==>
                  && on.st.tx.Valid() && off.st.tx.Valid()
                  && off.st.tx.cursor == st.tx.cursor && off.st.tx.acked == st.tx.acked)
    ensures var on, off := Online(id, st, writes), Buffered(id, st, writes);
            on.live ==>
              var on', off' := ThenEof(on, id, eof, true), ThenEof(off, id, eof, false);
              && on'.st.tx.Valid() && off'.st.tx.Valid()
              && Finished(on', id).st == Finished(off', id).st
              && SendsAll(Finished(on', id).out, id, st.tx.cursor, off.st.tx.hist, eof)
              && SendsAll(Finished(off', id).out, id, st.tx.cursor, off.st.tx.hist, eof)
  {
    WritesAgree(id, st, st, writes);
    var on, off := Online(id, st, writes), Buffered(id, st, writes);
    if on.live {
      var off' := ThenEof(off, id, eof, false);
      ExhaustSendsAll(id, off'.st, [], st.tx.cursor);
      assert off'.out == [];
      if eof {
        EofOnline(id, on.st, on.out, st.tx.cursor);
      } else {
        ExhaustSendsAll(id, on.st, on.out, st.tx.cursor);
      }
    }
  }
}
