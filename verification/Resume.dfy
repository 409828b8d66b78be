/** The chunked send buffer and the receive tracker, updated in place as the program does. */
module Resume {
  import opened Prelude
  import opened Window

  /** Concatenation of the chunk queue. */
  function Flat(chunks: seq<bytes>): (s: bytes)
  {
    if chunks == [] then [] else chunks[0] + Flat(chunks[1..])
  }

  lemma {:induction false} FlatAppend(a: seq<bytes>, b: seq<bytes>)
    ensures Flat(a + b) == Flat(a) + Flat(b)
  {
    if a == [] {
      assert a + b == b;
    } else {
      FlatAppend(a[1..], b);
      assert (a + b)[1..] == a[1..] + b;
      assert a[0] + (Flat(a[1..]) + Flat(b)) == (a[0] + Flat(a[1..])) + Flat(b);
    }
  }

  lemma FlatSnoc(a: seq<bytes>, c: bytes)
    ensures Flat(a + [c]) == Flat(a) + c
  {
    FlatAppend(a, [c]);
    assert Flat([c]) == c + Flat([]);
  }

  lemma TakeFromChunk(taken: bytes, chunk: bytes, rest: bytes, skip: nat, n: nat)
    requires skip + n <= |chunk|
    ensures taken + (chunk + rest)[skip..] == (taken + chunk[skip..skip + n]) + (chunk[skip + n..] + rest)
  {
    assert (chunk + rest)[skip..] == chunk[skip..skip + n] + (chunk[skip + n..] + rest);
  }

  lemma PrefixIsSlice(p: bytes, s: bytes, offset: nat)
    requires offset <= |s| && p <= s[offset..]
    ensures offset + |p| <= |s| && p == s[offset..offset + |p|]
  {
  }

  lemma TailGrows(s: bytes, more: bytes, k: nat)
    requires k <= |s|
    ensures (s + more)[k..] == s[k..] + more
  {
  }

  /** What is taken next, in offsets. */
  lemma TakenIs(w: Window, max: nat)
    requires w.Valid()
    ensures var (w', s) := w.NextUnsent(max);
            && w'.cursor == w.cursor + Min(max, |w.hist| - w.cursor)
            && s == if w'.cursor == w.cursor then None else Some(Segment(w.cursor, w.hist[w.cursor..w'.cursor]))
  {
  }

  class SendBuffer {
    var acked: nat
    var cursor: nat
    const capacity: nat
    var chunks: seq<bytes>
    var buffered: nat
    var finQueued: bool
    ghost var hist: bytes

    ghost predicate Valid()
      reads this
    {
      && 0 < capacity
      && acked <= cursor <= |hist|
      && buffered == |hist| - acked <= capacity
      && Flat(chunks) == hist[acked..]
    }

    ghost function Abs(): (w: Window)
      requires Valid()
      reads this
      ensures w.Valid()
    {
      Window(hist, acked, cursor, capacity, finQueued)
    }

    constructor (capacity: nat)
      requires 0 < capacity
      ensures Valid() && Abs() == NewWindow(capacity)
    {
      this.capacity := capacity;
      acked, cursor, chunks, buffered, finQueued, hist := 0, 0, [], 0, false, [];
    }

    method Push(data: bytes) returns (n: nat)
      requires Valid()
      modifies this
      ensures Valid() && Abs() == old(Abs()).Push(data)
      ensures n == Min(old(Abs()).Writable(), |data|)
      ensures n == Min(capacity - (|old(hist)| - acked), |data|) && hist == old(hist) + data[..n]
      ensures acked == old(acked) && cursor == old(cursor) && finQueued == old(finQueued)
    {
      n := Min(capacity - Min(buffered, capacity), |data|);
      if n > 0 {
        FlatSnoc(chunks, data[..n]);
        chunks := chunks + [data[..n]];
        buffered := buffered + n;
        hist := hist + data[..n];
        TailGrows(old(hist), data[..n], acked);
      } else {
        assert hist + data[..n] == hist;
      }
    }

    method NextUnsent(max: nat) returns (r: Option<Segment>)
      requires Valid()
      modifies this`cursor
      ensures Valid() && (Abs(), r) == old(Abs()).NextUnsent(max)
      ensures cursor == old(cursor) + Min(max, |hist| - old(cursor))
      ensures r == if cursor == old(cursor) then None else Some(Segment(old(cursor), hist[old(cursor)..cursor]))
    {
      TakenIs(Abs(), max);
      if cursor >= acked + buffered || max == 0 {
        return None;
      }
      var offset := cursor;
      var skip := cursor - acked;
      var taken: bytes := [];
      var i := 0;
      while i < |chunks|
        invariant 0 <= i <= |chunks|
        invariant cursor == offset && |taken| < max
        invariant skip == 0 || taken == []
        // the queue still ahead, minus skip, continues exactly where taken stops
        invariant 0 <= skip <= |Flat(chunks[i..])|
        invariant taken + Flat(chunks[i..])[skip..] == hist[offset..]
      {
        var chunk := chunks[i];
        assert Flat(chunks[i..]) == chunk + Flat(chunks[i + 1..]) by {
          assert chunks[i..][1..] == chunks[i + 1..];
        }
        ghost var rest := Flat(chunks[i + 1..]);
        if skip >= |chunk| {
          assert (chunk + rest)[skip..] == rest[skip - |chunk|..];
          skip := skip - |chunk|;
        } else {
          var n := Min(|chunk| - skip, max - |taken|);
          TakeFromChunk(taken, chunk, rest, skip, n);
          taken := taken + chunk[skip..skip + n];
          if |taken| >= max {
            break;
          }
          assert chunk[skip + n..] + rest == rest[0..];
          skip := 0;
        }
        i := i + 1;
      }
      assert taken <= hist[offset..] && (|taken| == max || taken == hist[offset..]);
      PrefixIsSlice(taken, hist, offset);
      if taken == [] {
        return None;
      }
      cursor := cursor + |taken|;
      return Some(Segment(offset, taken));
    }

    method Ack(offset: nat) returns (r: Result<(), ResumeError>)
      requires Valid()
      modifies this
      ensures Valid()
      ensures match old(Abs()).Ack(offset)
              case Ok(w) => r == Ok(()) && Abs() == w
              case Err(e) => r == Err(e) && Abs() == old(Abs())
      ensures hist == old(hist) && (r.Ok? <==> offset <= |hist|)
      ensures acked == if r.Ok? then Max(old(acked), offset) else old(acked)
      ensures cursor == if r.Ok? then Max(old(cursor), offset) else old(cursor)
    {
      if offset < acked {
        return Ok(());
      }
      if offset > acked + buffered {
        return Err(AckBeyondSent(offset, acked + buffered));
      }
      var release := offset - acked;
      while release > 0
        invariant 0 <= release <= offset && offset - release + buffered == |hist| && offset <= |hist|
        invariant Flat(chunks) == hist[offset - release..]
        invariant hist == old(hist) && acked == old(acked) && cursor == old(cursor) && finQueued == old(finQueued)
        decreases |chunks|, release
      {
        if |chunks| == 0 {
          break;
        }
        var front := chunks[0];
        assert Flat(chunks) == front + Flat(chunks[1..]);
        if |front| <= release {
          assert Flat(chunks[1..]) == Flat(chunks)[|front|..];
          chunks := chunks[1..];
          buffered := buffered - |front|;
          release := release - |front|;
        } else {
          var trimmed := front[release..];
          assert (front + Flat(chunks[1..]))[release..] == trimmed + Flat(chunks[1..]);
          chunks := [trimmed] + chunks[1..];
          buffered := buffered - release;
          release := 0;
        }
      }
      acked := offset;
      if cursor < acked {
        cursor := acked;
      }
      return Ok(());
    }

    method RewindTo(peerRecv: nat) returns (r: Result<nat, ResumeError>)
      requires Valid()
      modifies this
      ensures Valid()
      ensures match old(Abs()).Rewind(peerRecv)
              case Ok(w) => r == Ok(w.Pending()) && Abs() == w
              case Err(e) => r == Err(e) && Abs() == old(Abs())
      ensures hist == old(hist) && (r.Ok? <==> old(acked) <= peerRecv <= |hist|)
      ensures r.Ok? ==> acked == cursor == peerRecv && r.value == |hist| - peerRecv
      ensures r.Err? ==> acked == old(acked) && cursor == old(cursor)
    {
      if peerRecv < acked {
        return Err(GapUnrecoverable(peerRecv, acked));
      }
      if peerRecv > acked + buffered {
        return Err(AckBeyondSent(peerRecv, acked + buffered));
      }
      var _ := Ack(peerRecv);
      cursor := peerRecv;
      return Ok(acked + buffered - cursor);
    }

    method MarkFin()
      requires Valid()
      modifies this`finQueued
      ensures Valid() && Abs() == old(Abs()).(fin := true)
    {
      finQueued := true;
    }
  }

  class RecvTracker {
    var delivered: nat
    var finAt: Option<nat>
    ghost var got: bytes

    ghost predicate Valid()
      reads this
    {
      delivered == |got|
    }

    ghost function Abs(): Inbox
      reads this
    {
      Inbox(got, finAt)
    }

    constructor ()
      ensures Valid() && Abs() == NEW_INBOX
    {
      delivered, finAt, got := 0, None, [];
    }

    method Accept(offset: nat, data: bytes) returns (r: Result<Option<bytes>, ResumeError>)
      requires Valid()
      modifies this
      ensures Valid()
      ensures match old(Abs()).Accept(offset, data)
              case Ok((inbox, news)) => r == Ok(news) && Abs() == inbox
              case Err(e) => r == Err(e) && Abs() == old(Abs())
      ensures r.Err? <==> offset > |old(got)|
      ensures r == Ok(None) <==> offset <= |old(got)| && offset + |data| <= |old(got)|
      ensures r.Ok? && r.value.Some? ==>
                r.value.value == data[|old(got)| - offset..] && got == old(got) + r.value.value
      ensures r.Err? || r == Ok(None) ==> got == old(got)
    {
      var end := offset + |data|;
      if end <= delivered {
        return Ok(None);
      }
      if offset > delivered {
        return Err(Gap(delivered, offset));
      }
      var news := data[delivered - offset..];
      delivered := end;
      got := got + news;
      return Ok(Some(news));
    }

    method MarkFin()
      requires Valid()
      modifies this`finAt
      ensures Valid() && Abs() == old(Abs()).MarkFin()
    {
      finAt := Some(delivered);
    }
  }
}
