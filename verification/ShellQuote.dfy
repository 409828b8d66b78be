/** The command line run on the remote host, and how a POSIX shell takes it apart again. */
module ShellQuote {
  import opened Prelude

  datatype HelperConfig = HelperConfig(
    command: Option<string>,
    remotePath: string,
    streamWindow: nat,
    allow: seq<string>)

  // ---- Printing ----

  /** The inside of a quoted string: a single quote closes, is escaped, and opens again. */
  function QuotedBody(s: string): string
  {
    if s == "" then ""
    else (if s[0] == '\'' then "'\\''" else [s[0]]) + QuotedBody(s[1..])
  }

  function Quoted(s: string): string { "'" + QuotedBody(s) + "'" }

  function Digit(d: nat): char
    requires d < 10
  {
    ('0' as int + d) as char
  }

  function Decimal(n: nat): string
  {
    if n < 10 then [Digit(n)] else Decimal(n / 10) + [Digit(n % 10)]
  }

  const WINDOW_FLAG := "--stream-window"
  const ALLOW_FLAG := "--allow"

  /** A flag as a word of its own, and what follows it as the next. */
  function Flag(flag: string, value: string): string { " " + flag + (" " + value) }

  function Allows(allow: seq<string>): string
  {
    if allow == [] then "" else Flag(ALLOW_FLAG, Quoted(allow[0]) + Allows(allow[1..]))
  }

  /** Everything that follows the remote path. */
  function Arguments(cfg: HelperConfig): string
  {
    Flag(WINDOW_FLAG, Decimal(cfg.streamWindow) + Allows(cfg.allow))
  }

  function Command(cfg: HelperConfig): string
  {
    match cfg.command
    case Some(c) => c
    case None => Quoted(cfg.remotePath) + Arguments(cfg)
  }

  lemma {:induction false} QuotedBodySnoc(s: string, c: char)
    ensures QuotedBody(s + [c]) == QuotedBody(s) + (if c == '\'' then "'\\''" else [c])
  {
    if s == "" {
      assert QuotedBody([c]) == (if c == '\'' then "'\\''" else [c]) + QuotedBody("");
    } else {
      assert (s + [c])[1..] == s[1..] + [c];
      QuotedBodySnoc(s[1..], c);
    }
  }

  method ShellQuote(s: string) returns (out: string)
    ensures out == Quoted(s)
  {
    out := "'";
    for i := 0 to |s|
      invariant out == "'" + QuotedBody(s[..i])
    {
      assert s[..i + 1] == s[..i] + [s[i]];
      QuotedBodySnoc(s[..i], s[i]);
      if s[i] == '\'' {
        out := out + "'\\''";
      } else {
        out := out + [s[i]];
      }
    }
    assert s[..|s|] == s;
    out := out + "'";
  }

  /** A configured command is used as it stands; otherwise path, window and allow entries are printed. */
  method BuildCommand(cfg: HelperConfig) returns (cmd: string)
    ensures cmd == Command(cfg)
    ensures cfg.command.Some? ==> cmd == cfg.command.value
  {
    match cfg.command {
      case Some(c) => return c;
      case None =>
    }
    cmd := ShellQuote(cfg.remotePath);
    FlagAppend(cmd, WINDOW_FLAG, Decimal(cfg.streamWindow), Allows(cfg.allow));
    cmd := cmd + Flag(WINDOW_FLAG, Decimal(cfg.streamWindow));
    assert cfg.allow[0..] == cfg.allow;
    for i := 0 to |cfg.allow|
      invariant cmd + Allows(cfg.allow[i..]) == Command(cfg)
    {
      assert cfg.allow[i..][1..] == cfg.allow[i + 1..];
      var q := ShellQuote(cfg.allow[i]);
      FlagAppend(cmd, ALLOW_FLAG, q, Allows(cfg.allow[i + 1..]));
      cmd := cmd + Flag(ALLOW_FLAG, q);
    }
    assert cmd + "" == cmd;
  }

  lemma FlagAppend(cmd: string, flag: string, value: string, rest: string)
    ensures cmd + Flag(flag, value + rest) == cmd + Flag(flag, value) + rest
  {
  }

  // ---- What the shell makes of it ----

  /** Where the shell is: between words, inside one, inside single quotes, or after a backslash. */
  datatype Mode = Between | InWord(word: string) | InQuotes(word: string) | AfterBackslash(word: string)

  const NUL: char := 0 as char

  predicate Blank(c: char) { c == ' ' || c == '\t' }

  /** Characters that mean something else when they are not quoted. */
  predicate Special(c: char)
  {
    c in "|&;<>()$`\"*?[#~=%\n"
  }

  /** The words of a simple command; None for anything a shell would not take literally:
      an unquoted special character, an open quote, a trailing backslash, or NUL. */
  function Words(s: string, mode: Mode): (r: Option<seq<string>>)
    decreases |s|, 0
  {
    if s == "" then
      match mode
      case Between => Some([])
      case InWord(w) => Some([w])
      case _ => None
    else
      var c, rest := s[0], s[1..];
      if c == NUL then None
      else
        match mode
        case InQuotes(w) => Words(rest, if c == '\'' then InWord(w) else InQuotes(w + [c]))
        case AfterBackslash(w) => if c == '\n' then None else Words(rest, InWord(w + [c]))
        case Between =>
          if Blank(c) then Words(rest, Between) else Unquoted(c, rest, "")
        case InWord(w) =>
          if Blank(c) then Prepend(w, Words(rest, Between)) else Unquoted(c, rest, w)
  }

  /** A character that is part of a word or starts one. */
  function Unquoted(c: char, rest: string, w: string): (r: Option<seq<string>>)
    decreases |rest|, 1
  {
    if c == '\'' then Words(rest, InQuotes(w))
    else if c == '\\' then Words(rest, AfterBackslash(w))
    else if Special(c) then None
    else Words(rest, InWord(w + [c]))
  }

  function Prepend(w: string, r: Option<seq<string>>): Option<seq<string>>
  {
    match r
    case None => None
    case Some(ws) => Some([w] + ws)
  }

  predicate NulFree(s: string) { NUL !in s }

  // ---- Round trip ----

  lemma {:induction false} QuotesRead(s: string, w: string, rest: string)
    ensures Words(QuotedBody(s) + "'" + rest, InQuotes(w))
            == if NulFree(s) then Words(rest, InWord(w + s)) else None
  {
    var text := QuotedBody(s) + "'" + rest;
    if s == "" {
      assert text == "'" + rest && text[1..] == rest;
      assert w + s == w;
    } else {
      var tail := QuotedBody(s[1..]) + "'" + rest;
      QuotesRead(s[1..], w + [s[0]], rest);
      assert w + [s[0]] + s[1..] == w + s;
      assert NulFree(s) <==> s[0] != NUL && NulFree(s[1..]);
      if s[0] == '\'' {
        EscapedQuoteRead(tail, w);
        assert text == "'\\''" + tail;
      } else {
        assert text == [s[0]] + tail && text[1..] == tail;
      }
    }
  }

  /** Close, backslash, quote, open: a literal single quote. */
  lemma EscapedQuoteRead(tail: string, w: string)
    ensures Words("'\\''" + tail, InQuotes(w)) == Words(tail, InQuotes(w + ['\'']))
  {
    var t0 := "'\\''" + tail;
    var t1, t2, t3 := t0[1..], t0[2..], t0[3..];
    assert t0[0] == '\'' && t1[0] == '\\' && t2[0] == '\'' && t3[0] == '\'';
    assert t1[1..] == t2 && t2[1..] == t3 && t3[1..] == tail;
    assert Words(t0, InQuotes(w)) == Words(t1, InWord(w));
    assert Words(t1, InWord(w)) == Words(t2, AfterBackslash(w));
    assert Words(t2, AfterBackslash(w)) == Words(t3, InWord(w + ['\'']));
    assert Words(t3, InWord(w + ['\''])) == Words(tail, InQuotes(w + ['\'']));
  }

  /** A quoted string is read as part of one word, whatever is in it. */
  lemma QuotedRead(s: string, rest: string)
    ensures Words(Quoted(s) + rest, Between) == if NulFree(s) then Words(rest, InWord(s)) else None
  {
    var text := Quoted(s) + rest;
    assert text[0] == '\'' && text[1..] == QuotedBody(s) + "'" + rest;
    QuotesRead(s, "", rest);
    assert "" + s == s;
  }

  predicate Plain(s: string)
  {
    forall i :: 0 <= i < |s| ==>
      !Blank(s[i]) && !Special(s[i]) && s[i] != '\'' && s[i] != '\\' && s[i] != NUL
  }

  lemma {:induction false} PlainRead(s: string, w: string, rest: string)
    requires Plain(s)
    ensures Words(s + rest, InWord(w)) == Words(rest, InWord(w + s))
  {
    if s == "" {
      assert s + rest == rest && w + s == w;
    } else {
      assert (s + rest)[1..] == s[1..] + rest && (s + rest)[0] == s[0];
      PlainRead(s[1..], w + [s[0]], rest);
      assert w + [s[0]] + s[1..] == w + s;
    }
  }

  /** A plain word on its own. */
  lemma PlainWordRead(s: string, rest: string)
    requires Plain(s) && s != ""
    ensures Words(s + rest, Between) == Words(rest, InWord(s))
  {
    assert (s + rest)[0] == s[0] && (s + rest)[1..] == s[1..] + rest;
    assert "" + [s[0]] == [s[0]];
    PlainRead(s[1..], [s[0]], rest);
    assert [s[0]] + s[1..] == s;
  }

  /** A plain flag ends the word before it, and its value starts another. */
  lemma FlagRead(w: string, flag: string, value: string)
    requires Plain(flag) && flag != ""
    ensures Words(Flag(flag, value), InWord(w)) == Prepend(w, Prepend(flag, Words(value, Between)))
  {
    var text, rest := Flag(flag, value), " " + value;
    assert text[0] == ' ' && text[1..] == flag + rest;
    assert Words(text, InWord(w)) == Prepend(w, Words(flag + rest, Between));
    PlainWordRead(flag, rest);
    assert rest[0] == ' ' && rest[1..] == value;
    assert Words(rest, InWord(flag)) == Prepend(flag, Words(value, Between));
  }

  lemma FlagsPlain()
    ensures Plain(WINDOW_FLAG) && WINDOW_FLAG != "" && Plain(ALLOW_FLAG) && ALLOW_FLAG != ""
  {
  }

  /** The arguments that follow the window. */
  function AllowArgs(allow: seq<string>): seq<string>
  {
    if allow == [] then [] else [ALLOW_FLAG, allow[0]] + AllowArgs(allow[1..])
  }

  predicate AllNulFree(ss: seq<string>) { forall i :: 0 <= i < |ss| ==> NulFree(ss[i]) }

  lemma {:induction false} AllowsRead(allow: seq<string>, w: string)
    ensures Words(Allows(allow), InWord(w)) == if AllNulFree(allow) then Some([w] + AllowArgs(allow)) else None
  {
    if allow == [] {
      assert [w] + [] == [w];
    } else {
      FlagsPlain();
      FlagRead(w, ALLOW_FLAG, Quoted(allow[0]) + Allows(allow[1..]));
      QuotedRead(allow[0], Allows(allow[1..]));
      AllowsRead(allow[1..], allow[0]);
      assert AllNulFree(allow) <==> NulFree(allow[0]) && AllNulFree(allow[1..]);
      var more := AllowArgs(allow[1..]);
      assert [w] + ([ALLOW_FLAG] + ([allow[0]] + more)) == [w] + ([ALLOW_FLAG, allow[0]] + more);
    }
  }

  lemma {:induction false} DecimalPlain(n: nat)
    ensures Plain(Decimal(n)) && Decimal(n) != ""
  {
    if n >= 10 { DecimalPlain(n / 10); }
  }

  function NumberOf(s: string): int
  {
    if s == "" then 0 else NumberOf(s[..|s| - 1]) * 10 + (s[|s| - 1] as int - '0' as int)
  }

  /** The printed window is read back as the same number. */
  lemma {:induction false} DecimalReadsBack(n: nat)
    ensures NumberOf(Decimal(n)) == n
  {
    if n >= 10 {
      DecimalReadsBack(n / 10);
      assert (Decimal(n / 10) + [Digit(n % 10)])[..|Decimal(n / 10)|] == Decimal(n / 10);
    } else {
      assert NumberOf([Digit(n)][..0]) == 0;
    }
  }

  /** What the remote program is started with. */
  function Argv(cfg: HelperConfig): seq<string>
  {
    [cfg.remotePath, WINDOW_FLAG, Decimal(cfg.streamWindow)] + AllowArgs(cfg.allow)
  }

  lemma ArgumentsRead(cfg: HelperConfig)
    ensures Words(Arguments(cfg), InWord(cfg.remotePath)) == if AllNulFree(cfg.allow) then Some(Argv(cfg)) else None
  {
    var number, more := Decimal(cfg.streamWindow), AllowArgs(cfg.allow);
    FlagsPlain();
    FlagRead(cfg.remotePath, WINDOW_FLAG, number + Allows(cfg.allow));
    DecimalPlain(cfg.streamWindow);
    PlainWordRead(number, Allows(cfg.allow));
    AllowsRead(cfg.allow, number);
    assert [cfg.remotePath] + ([WINDOW_FLAG] + ([number] + more)) == [cfg.remotePath, WINDOW_FLAG, number] + more;
  }

  /** Without an explicit command, the shell sees exactly the configured path and arguments,
      whatever characters they contain, if and only if none of them contains NUL. */
  lemma RoundTripExactly(cfg: HelperConfig)
    requires cfg.command.None?
    ensures Words(Command(cfg), Between) == Some(Argv(cfg)) <==> NulFree(cfg.remotePath) && AllNulFree(cfg.allow)
  {
    QuotedRead(cfg.remotePath, Arguments(cfg));
    ArgumentsRead(cfg);
  }
}
