/** Reading the head of a CONNECT request: the scan for the blank line over a growing buffer. */
module HttpHead {
  import opened Prelude
  import opened Resume

  const MAX_HEAD_BYTES: nat := 16 * 1024
  const READ_CHUNK: nat := 4 * 1024

  /** CR LF CR LF. */
  const BLANK_LINE: bytes := [13, 10, 13, 10]

  /** A blank line starts at p. */
  predicate At(s: bytes, p: nat) { p + 4 <= |s| && s[p..p + 4] == BLANK_LINE }

  predicate NoneBefore(s: bytes, n: nat) { forall p :: 0 <= p < n ==> !At(s, p) }

  /** The first blank line of s starts at p. */
  predicate FirstAt(s: bytes, p: nat) { At(s, p) && NoneBefore(s, p) }

  datatype Verdict = Complete(end: nat) | TooLarge | Ended

  /** What the bytes of the client, all of them, say about its request head. */
  predicate Judges(total: bytes, v: Verdict)
  {
    match v
    case Complete(end) => 4 <= end <= MAX_HEAD_BYTES && FirstAt(total, end - 4)
    case TooLarge => |total| > MAX_HEAD_BYTES && NoneBefore(total, MAX_HEAD_BYTES - 3)
    case Ended => |total| <= MAX_HEAD_BYTES && NoneBefore(total, MAX_HEAD_BYTES - 3)
  }

  /** Nothing but the bytes decides: two verdicts on the same bytes agree. */
  lemma OneVerdict(total: bytes, v: Verdict, w: Verdict)
    requires Judges(total, v) && Judges(total, w)
    ensures v == w
  {
  }

  lemma AtInPrefix(s: bytes, total: bytes, p: nat)
    requires s <= total && p + 4 <= |s|
    ensures At(s, p) <==> At(total, p)
  {
    assert s[p..p + 4] == total[p..p + 4];
  }

  /** Where a blank line first starts in s, from an offset on. */
  method FindBlankLine(s: bytes, from: nat) returns (r: Option<nat>)
    requires from <= |s|
    ensures r.Some? ==> from <= r.value && At(s, r.value) && forall p :: from <= p < r.value ==> !At(s, p)
    ensures r.None? ==> forall p :: from <= p ==> !At(s, p)
  {
    var i := from;
    while i + 4 <= |s|
      invariant from <= i
      invariant forall p :: from <= p < i ==> !At(s, p)
    {
      if s[i..i + 4] == BLANK_LINE {
        return Some(i);
      }
      i := i + 1;
    }
    return None;
  }

  /** A scan that found nothing up to the end: no later byte can complete a blank line that starts
      earlier than three bytes before it. */
  lemma ScannedSoFar(buf: bytes, more: bytes, n: nat)
    requires NoneBefore(buf, |buf|) && n + 3 <= |buf|
    ensures NoneBefore(buf + more, n)
  {
    forall p | 0 <= p < n ensures !At(buf + more, p) {
      AtInPrefix(buf, buf + more, p);
      assert !At(buf, p);
    }
  }

  lemma FoundJudges(buf: bytes, total: bytes, p: nat)
    requires buf <= total && FirstAt(buf, p)
    ensures Judges(total, if p + 4 > MAX_HEAD_BYTES then TooLarge else Complete(p + 4))
  {
    AtInPrefix(buf, total, p);
    forall q | 0 <= q < p ensures !At(total, q) { AtInPrefix(buf, total, q); }
  }

  lemma OverflowJudges(buf: bytes, total: bytes)
    requires buf <= total && |buf| > MAX_HEAD_BYTES && NoneBefore(buf, |buf|)
    ensures Judges(total, TooLarge)
  {
    forall q | 0 <= q < MAX_HEAD_BYTES - 3 ensures !At(total, q) {
      AtInPrefix(buf, total, q);
      assert !At(buf, q);
    }
  }

  /** The bytes of successive chunks, as the socket hands them out: never empty, never more than a chunk. */
  predicate Reads(chunks: seq<bytes>)
  {
    forall i :: 0 <= i < |chunks| ==> 0 < |chunks[i]| <= READ_CHUNK
  }

  /** Read until the head is complete, too large, or the client stops. The verdict depends on the
      bytes alone, not on how they were cut into reads. Exactly the reads that were made are kept, split
      at the end of the head, and no more than the bound plus one read is ever held. */
  method ReadHead(chunks: seq<bytes>) returns (v: Verdict, head: bytes, leftover: bytes, used: nat)
    requires Reads(chunks)
    ensures Judges(Flat(chunks), v)
    ensures used <= |chunks| && head + leftover == Flat(chunks[..used])
    ensures |head + leftover| <= MAX_HEAD_BYTES + READ_CHUNK
    ensures v.Complete? ==> |head| == v.end
    ensures v.TooLarge? ==> |head + leftover| > MAX_HEAD_BYTES
    ensures v.Ended? ==> used == |chunks|
  {
    var buf: bytes := [];
    var scanned: nat := 0;
    used := 0;
    while true
      invariant 0 <= used <= |chunks|
      invariant buf == Flat(chunks[..used])
      invariant |buf| <= MAX_HEAD_BYTES + READ_CHUNK
      invariant scanned <= |buf| && NoneBefore(buf, scanned)
      decreases |chunks| - used
    {
      ReadSoFar(chunks, used);
      var pos := FindBlankLine(buf, scanned);
      if pos.Some? {
        FoundJudges(buf, Flat(chunks), pos.value);
        var end := pos.value + 4;
        assert buf[..end] + buf[end..] == buf;
        return if end > MAX_HEAD_BYTES then TooLarge else Complete(end), buf[..end], buf[end..], used;
      }
      assert NoneBefore(buf, |buf|) && [] + buf == buf;
      scanned := if |buf| < 3 then 0 else |buf| - 3;
      if |buf| > MAX_HEAD_BYTES {
        OverflowJudges(buf, Flat(chunks));
        return TooLarge, [], buf, used;
      }
      if used == |chunks| {
        assert chunks[..used] == chunks;
        return Ended, [], buf, used;
      }
      OneMoreRead(chunks, used);
      if scanned > 0 { ScannedSoFar(buf, chunks[used], scanned); }
      buf := buf + chunks[used];
      used := used + 1;
    }
  }

  /** What has been read so far is a prefix of everything. */
  lemma ReadSoFar(chunks: seq<bytes>, used: nat)
    requires used <= |chunks|
    ensures Flat(chunks[..used]) <= Flat(chunks)
  {
    FlatAppend(chunks[..used], chunks[used..]);
    assert chunks[..used] + chunks[used..] == chunks;
  }

  lemma OneMoreRead(chunks: seq<bytes>, used: nat)
    requires used < |chunks|
    ensures Flat(chunks[..used + 1]) == Flat(chunks[..used]) + chunks[used]
  {
    assert chunks[..used + 1] == chunks[..used] + [chunks[used]];
    FlatSnoc(chunks[..used], chunks[used]);
  }
}
