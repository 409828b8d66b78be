/** Incremental parsing in general: a parser whose verdicts never change when more bytes arrive
    gives the same frames however its input is cut into pieces. */
module Framing {
  import opened Prelude

  /** More: not enough bytes yet. Bad: protocol violation. Got: one frame and the bytes after it. */
  datatype Decoded<+F, +E> = More | Bad(error: E) | Got(frame: F, rest: bytes)

  datatype Parsed<+F, +E> = Parsed(frames: seq<F>, residue: bytes, error: Option<E>)

  /** Parse until more bytes are needed or the first violation. */
  function ParseAll<F, E>(d: bytes -> Decoded<F, E>, s: bytes): (r: Parsed<F, E>)
    decreases |s|
  {
    match d(s)
    case More => Parsed([], s, None)
    case Bad(e) => Parsed([], s, Some(e))
    case Got(f, rest) =>
      if |rest| >= |s| then Parsed([f], rest, None)
      else
        var p := ParseAll(d, rest);
        p.(frames := [f] + p.frames)
  }

  ghost predicate Extends<F(!new), E(!new)>(d: bytes -> Decoded<F, E>, s: bytes, more: bytes)
  {
    match d(s)
    case More => true
    case Bad(e) => d(s + more) == Bad(e)
    case Got(f, rest) => |rest| < |s| && d(s + more) == Got(f, rest + more)
  }

  ghost predicate Stable<F(!new), E(!new)>(d: bytes -> Decoded<F, E>)
  {
    forall s, more :: Extends(d, s, more)
  }

  lemma ParseOne<F(!new), E(!new)>(d: bytes -> Decoded<F, E>, s: bytes)
    requires d(s).Got? && |d(s).rest| < |s|
    ensures var p := ParseAll(d, d(s).rest); ParseAll(d, s) == p.(frames := [d(s).frame] + p.frames)
  {
  }

  lemma {:induction false} ParseStops<F(!new), E(!new)>(d: bytes -> Decoded<F, E>, s: bytes)
    requires Stable(d)
    ensures ParseAll(d, s).error.None? ==> d(ParseAll(d, s).residue).More?
    decreases |s|
  {
    assert Extends(d, s, []);
    if d(s).Got? { ParseStops(d, d(s).rest); }
  }

  /** What p says of s, continued on more: the verdict on s + more. */
  function Resumed<F, E>(d: bytes -> Decoded<F, E>, p: Parsed<F, E>, more: bytes): Parsed<F, E>
  {
    if p.error.Some? then p.(residue := p.residue + more)
    else
      var q := ParseAll(d, p.residue + more);
      q.(frames := p.frames + q.frames)
  }

  lemma ResumedOneEarlier<F, E>(d: bytes -> Decoded<F, E>, f: F, p: Parsed<F, E>, more: bytes)
    ensures var r := Resumed(d, p, more);
            Resumed(d, p.(frames := [f] + p.frames), more) == r.(frames := [f] + r.frames)
  {
    var q := ParseAll(d, p.residue + more);
    assert [f] + (p.frames + q.frames) == ([f] + p.frames) + q.frames;
  }

  /** Pausing after s and resuming on what it left over gives what the whole string gives. */
  lemma {:induction false} ParseSplit<F(!new), E(!new)>(d: bytes -> Decoded<F, E>, s: bytes, more: bytes)
    requires Stable(d)
    ensures ParseAll(d, s + more) == Resumed(d, ParseAll(d, s), more)
    decreases |s|
  {
    assert Extends(d, s, more);
    match d(s) {
      case More => assert [] + ParseAll(d, s + more).frames == ParseAll(d, s + more).frames;
      case Bad(e) =>
      case Got(f, rest) =>
        ParseSplit(d, rest, more);
        ParseOne(d, s + more);
        ParseOne(d, s);
        ResumedOneEarlier(d, f, ParseAll(d, rest), more);
    }
  }

  /** What was returned before, and what the resumed parser still returns. */
  lemma ResumedAfter<F, E>(d: bytes -> Decoded<F, E>, frames: seq<F>, p: Parsed<F, E>, more: bytes)
    ensures var r := Resumed(d, p, more);
            if p.error.Some? then r.frames == p.frames && r.error == p.error
            else
              var q := ParseAll(d, p.residue + more);
              frames + r.frames == (frames + p.frames) + q.frames && r.error == q.error
  {
  }

  function Joined<F>(enc: F -> bytes, fs: seq<F>): bytes
  {
    if fs == [] then [] else enc(fs[0]) + Joined(enc, fs[1..])
  }

  ghost predicate ReadsBack<F(!new), E(!new)>(d: bytes -> Decoded<F, E>, enc: F -> bytes, f: F, rest: bytes)
  {
    enc(f) != [] && d(enc(f) + rest) == Got(f, rest)
  }

  lemma ConcatAssoc(a: bytes, b: bytes, c: bytes)
    ensures (a + b) + c == a + (b + c)
  {
  }

  /** If every single frame reads back, so does any list of them, in order. */
  lemma {:induction false} ParseJoined<F(!new), E(!new)>(
      d: bytes -> Decoded<F, E>, enc: F -> bytes, fs: seq<F>, rest: bytes)
    requires forall f, more :: f in fs ==> ReadsBack(d, enc, f, more)
    ensures var p := ParseAll(d, rest);
            ParseAll(d, Joined(enc, fs) + rest) == p.(frames := fs + p.frames)
    decreases |fs|
  {
    var p := ParseAll(d, rest);
    if fs == [] {
      assert Joined(enc, fs) + rest == rest;
      assert [] + p.frames == p.frames;
    } else {
      var tail := Joined(enc, fs[1..]) + rest;
      assert forall f :: f in fs[1..] ==> f in fs;
      ParseJoined(d, enc, fs[1..], rest);
      assert ReadsBack(d, enc, fs[0], tail);
      assert Joined(enc, fs) + rest == enc(fs[0]) + tail by { ConcatAssoc(enc(fs[0]), Joined(enc, fs[1..]), rest); }
      ParseOne(d, enc(fs[0]) + tail);
      assert [fs[0]] + (fs[1..] + p.frames) == fs + p.frames;
    }
  }
}
