/**
Quoting of command lines for a POSIX shell, against the shell's own way of splitting
a line into words (Shell Command Language, sections 2.2 and 2.3). The splitter refuses
a line that uses any expansion, pattern or operator outside quotes.
*/
module ShellQuote {
  import opened Options

  // ---------------------------------------------------------------- the shell's side

  datatype Mode = Gap | Word(word: string) | Single(word: string) | Double(word: string)

  predicate Blank(c: char) {
    c == ' ' || c == '\t'
  }

  /** Characters that mean something else than themselves when they are not quoted. */
  predicate Special(c: char) {
    c in "|&;<>()$`*?[#~!{}%\n"
  }

  function Cons(w: string, r: Result<seq<string>>): Result<seq<string>> {
    if r.Ok? then Ok([w] + r.value) else Err
  }

  function Scan(m: Mode, s: string): Result<seq<string>>
    decreases |s|
  {
    if s == "" then
      match m
      case Gap => Ok([])
      case Word(w) => Ok([w])
      case _ => Err
    else
      match m
      case Gap => ScanOutside("", true, s)
      case Word(w) => ScanOutside(w, false, s)
      case Single(w) => if s[0] == '\'' then Scan(Word(w), s[1..]) else Scan(Single(w + [s[0]]), s[1..])
      case Double(w) =>
        if s[0] == '"' then Scan(Word(w), s[1..])
        else if s[0] == '$' || s[0] == '`' then Err
        else if s[0] == '\\' && |s| > 1 && s[1] == '\n' then Scan(m, s[2..])
        else if s[0] == '\\' && |s| > 1 && s[1] in "$`\"\\" then Scan(Double(w + [s[1]]), s[2..])
        else Scan(Double(w + [s[0]]), s[1..])
  }

  /** One step outside quotes, between words or in the word `w`. */
  function ScanOutside(w: string, gap: bool, s: string): Result<seq<string>>
    requires s != ""
    decreases |s|, 0
  {
    if Blank(s[0]) then if gap then Scan(Gap, s[1..]) else Cons(w, Scan(Gap, s[1..]))
    else if s[0] == '\'' then Scan(Single(w), s[1..])
    else if s[0] == '"' then Scan(Double(w), s[1..])
    else if s[0] == '\\' then
      if |s| == 1 then Err
      else if s[1] == '\n' then Scan(if gap then Gap else Word(w), s[2..])
      else Scan(Word(w + [s[1]]), s[2..])
    else if Special(s[0]) then Err
    else Scan(Word(w + [s[0]]), s[1..])
  }

  function Split(line: string): Result<seq<string>> {
    Scan(Gap, line)
  }

  // ---------------------------------------------------------------- the client's side

  predicate Safe(c: char) {
    c in "/._-:=@" || '0' <= c <= '9' || 'A' <= c <= 'Z' || 'a' <= c <= 'z'
  }

  predicate AllSafe(s: string) {
    forall i :: 0 <= i < |s| ==> Safe(s[i])
  }

  /** `strings.ReplaceAll` of a quote by a quote, an escaped quote and a quote. */
  function Escaped(s: string): string {
    if s == "" then "" else (if s[0] == '\'' then "'\\''" else [s[0]]) + Escaped(s[1..])
  }

  function Quote(arg: string): string {
    if arg == "" then "''" else if AllSafe(arg) then arg else "'" + Escaped(arg) + "'"
  }

  function Join(args: seq<string>): string {
    if args == [] then "" else if |args| == 1 then Quote(args[0]) else Quote(args[0]) + " " + Join(args[1..])
  }

  lemma {:induction false} JoinSnoc(args: seq<string>, arg: string)
    requires args != []
    ensures Join(args + [arg]) == Join(args) + " " + Quote(arg)
    decreases |args|
  {
    var more := args + [arg];
    if |args| == 1 {
      assert more[1..] == [arg];
    } else {
      assert more[1..] == args[1..] + [arg];
      JoinSnoc(args[1..], arg);
      assert Join(more) == Quote(args[0]) + " " + Join(args[1..] + [arg]);
    }
  }

  /** `shellJoin`. */
  method ShellJoin(args: seq<string>) returns (line: string)
    ensures line == Join(args) && Split(line) == Ok(args)
  {
    line := "";
    for i := 0 to |args|
      invariant line == Join(args[..i])
    {
      assert args[..i + 1] == args[..i] + [args[i]];
      if i == 0 {
        line := Quote(args[0]);
      } else {
        JoinSnoc(args[..i], args[i]);
        line := line + " " + Quote(args[i]);
      }
    }
    assert args[..|args|] == args;
    SplitJoin(args);
  }

  // ---------------------------------------------------------------- round trip

  predicate Plain(c: char) {
    !Special(c) && !Blank(c) && c != '\'' && c != '"' && c != '\\'
  }

  lemma SafePlain(c: char)
    requires Safe(c)
    ensures Plain(c)
  {
  }

  lemma StepPlain(w: string, c: char, tail: string)
    requires Plain(c)
    ensures Scan(Word(w), [c] + tail) == Scan(Word(w + [c]), tail)
    ensures Scan(Gap, [c] + tail) == Scan(Word([c]), tail)
  {
    assert ([c] + tail)[1..] == tail;
    assert "" + [c] == [c];
  }

  lemma StepBlank(w: string, tail: string)
    ensures Scan(Word(w), " " + tail) == Cons(w, Scan(Gap, tail))
  {
    assert (" " + tail)[1..] == tail;
  }

  lemma StepQuote(tail: string)
    ensures Scan(Gap, "'" + tail) == Scan(Single(""), tail)
  {
    assert ("'" + tail)[1..] == tail;
  }

  lemma {:induction false} ScanSafe(w: string, arg: string, tail: string)
    requires AllSafe(arg)
    ensures Scan(Word(w), arg + tail) == Scan(Word(w + arg), tail)
    decreases |arg|
  {
    if arg == "" {
      assert arg + tail == tail && w + arg == w;
    } else {
      SafePlain(arg[0]);
      assert arg + tail == [arg[0]] + (arg[1..] + tail);
      StepPlain(w, arg[0], arg[1..] + tail);
      ScanSafe(w + [arg[0]], arg[1..], tail);
      assert w + [arg[0]] + arg[1..] == w + arg;
    }
  }

  lemma {:induction false} ScanEscaped(w: string, arg: string, tail: string)
    ensures Scan(Single(w), Escaped(arg) + "'" + tail) == Scan(Word(w + arg), tail)
    decreases |arg|
  {
    if arg == "" {
      assert Escaped(arg) + "'" + tail == "'" + tail && ("'" + tail)[1..] == tail && w + arg == w;
    } else {
      var rest := Escaped(arg[1..]) + "'" + tail;
      ScanEscaped(w + [arg[0]], arg[1..], tail);
      assert w + [arg[0]] + arg[1..] == w + arg;
      if arg[0] == '\'' {
        QuoteInQuotes(w, rest);
        assert Escaped(arg) + "'" + tail == "'\\''" + rest;
      } else {
        assert Escaped(arg) + "'" + tail == [arg[0]] + rest;
        assert ([arg[0]] + rest)[1..] == rest;
      }
    }
  }

  /** The four characters that stand for a quote: close, escaped quote, open again. */
  lemma QuoteInQuotes(w: string, rest: string)
    ensures Scan(Single(w), "'\\''" + rest) == Scan(Single(w + "'"), rest)
  {
    var s := "'\\''" + rest;
    assert s[1..] == "\\''" + rest;
    assert ("\\''" + rest)[2..] == "'" + rest;
    assert ("'" + rest)[1..] == rest;
    assert Scan(Single(w), s) == Scan(Word(w), "\\''" + rest);
    assert Scan(Word(w), "\\''" + rest) == Scan(Word(w + "'"), "'" + rest);
  }

  lemma ScanQuoteSafe(arg: string, tail: string)
    requires arg != "" && AllSafe(arg)
    ensures Scan(Gap, arg + tail) == Scan(Word(arg), tail)
  {
    SafePlain(arg[0]);
    assert arg + tail == [arg[0]] + (arg[1..] + tail);
    StepPlain("", arg[0], arg[1..] + tail);
    ScanSafe([arg[0]], arg[1..], tail);
    assert [arg[0]] + arg[1..] == arg;
  }

  lemma ScanQuoteEscaped(arg: string, tail: string)
    ensures Scan(Gap, "'" + Escaped(arg) + "'" + tail) == Scan(Word(arg), tail)
  {
    var body := Escaped(arg) + "'" + tail;
    assert "'" + Escaped(arg) + "'" + tail == "'" + body;
    StepQuote(body);
    ScanEscaped("", arg, tail);
    assert "" + arg == arg;
  }

  lemma ScanQuote(arg: string, tail: string)
    ensures Scan(Gap, Quote(arg) + tail) == Scan(Word(arg), tail)
  {
    if arg == "" {
      ScanQuoteEscaped("", tail);
      assert "'" + Escaped("") + "'" == "''";
    } else if AllSafe(arg) {
      ScanQuoteSafe(arg, tail);
    } else {
      ScanQuoteEscaped(arg, tail);
    }
  }

  /** A shell splits a joined command line into exactly the arguments. */
  lemma {:induction false} SplitJoin(args: seq<string>)
    ensures Split(Join(args)) == Ok(args)
    decreases |args|
  {
    if |args| == 1 {
      ScanQuote(args[0], "");
      assert Quote(args[0]) + "" == Quote(args[0]) && args == [args[0]];
    } else if args != [] {
      var rest := Join(args[1..]);
      ScanQuote(args[0], " " + rest);
      assert Join(args) == Quote(args[0]) + (" " + rest);
      StepBlank(args[0], rest);
      SplitJoin(args[1..]);
      assert args == [args[0]] + args[1..];
    }
  }

  // ---------------------------------------------------------------- the proxy command inside the transport command

  const SSH_OPTIONS: seq<string> := [
    "ssh",
    "-o", "StrictHostKeyChecking=no",
    "-o", "UserKnownHostsFile=/dev/null",
    "-o", "LogLevel=ERROR",
    "-o", "PubkeyAuthentication=no",
    "-o", "PreferredAuthentications=none,password",
    "-o", "NumberOfPasswordPrompts=1"
  ]

  const PROXY: string := "ProxyCommand="

  /** `sshTransportCommand`. */
  function Transport(proxy: string): seq<string> {
    if proxy == "" then SSH_OPTIONS else SSH_OPTIONS + ["-o", PROXY + proxy]
  }

  /** `sshProxyCommand`, for a client that runs WireGuard itself. */
  function ProxyArgs(path: string, server: string, vm: string): seq<string> {
    [path] + (if server == "" then [] else ["-server", server]) + ["ssh-proxy", vm]
  }

  lemma JoinNonEmpty(args: seq<string>)
    requires args != []
    ensures Join(args) != ""
  {
  }

  /** Splitting the transport command and then the proxy command in it recovers both, argument by argument. */
  lemma NestedProxyRecovered(path: string, server: string, vm: string)
    ensures var args := ProxyArgs(path, server, vm);
      var outer := Split(Join(Transport(Join(args))));
      && outer == Ok(SSH_OPTIONS + ["-o", PROXY + Join(args)])
      && var last := outer.value[|outer.value| - 1];
         |last| >= |PROXY| && last[..|PROXY|] == PROXY && Split(last[|PROXY|..]) == Ok(args)
  {
    var args := ProxyArgs(path, server, vm);
    JoinNonEmpty(args);
    SplitJoin(Transport(Join(args)));
    SplitJoin(args);
    assert (PROXY + Join(args))[|PROXY|..] == Join(args);
  }
}
