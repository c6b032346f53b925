/**
 Command lines: how the manager and the launcher quote arguments, and how a Windows
 program takes its command line apart again. Strings hold no NUL.
 */
module Quoting {
  import opened Bytes

  /**
   What a closing quote followed at once by another quote means inside a quoted part; the
   C run-times and CommandLineToArgvW differ in this.
   */
  datatype Doubled = Toggles | LiteralThenClosed | LiteralStaysOpen

  predicate IsBlank(c: char) { c == ' ' || c == '\t' }

  function Slashes(n: nat): (s: string)
    ensures |s| == n && forall i | 0 <= i < n :: s[i] == '\\'
  {
    if n == 0 then "" else "\\" + Slashes(n - 1)
  }

  // ---------- Parsing ----------

  /**
   One argument from s on, with some backslashes already read: its text, and what follows.
   Backslashes are literal unless a quote follows; then pairs stand for one, and an odd one
   makes the quote literal.
   */
  function Argument(s: string, quoted: bool, slashes: nat, d: Doubled): (string, string)
    decreases |s|
  {
    if s == "" then (Slashes(slashes), "")
    else if s[0] == '\\' then Argument(s[1..], quoted, slashes + 1, d)
    else if s[0] == '\"' then
      if slashes % 2 == 1 then
        var (text, rest) := Argument(s[1..], quoted, 0, d);
        (Slashes(slashes / 2) + "\"" + text, rest)
      else if quoted && |s| > 1 && s[1] == '\"' && d != Toggles then
        var (text, rest) := Argument(s[2..], d == LiteralStaysOpen, 0, d);
        (Slashes(slashes / 2) + "\"" + text, rest)
      else
        var (text, rest) := Argument(s[1..], !quoted, 0, d);
        (Slashes(slashes / 2) + text, rest)
    else if IsBlank(s[0]) && !quoted then (Slashes(slashes), s)
    else
      var (text, rest) := Argument(s[1..], quoted, 0, d);
      (Slashes(slashes) + [s[0]] + text, rest)
  }

  function SkipBlanks(s: string): (r: string)
    ensures |r| <= |s| && (r != "" ==> !IsBlank(r[0]))
  {
    if s != "" && IsBlank(s[0]) then SkipBlanks(s[1..]) else s
  }

  lemma {:induction false} ArgumentShortens(s: string, quoted: bool, slashes: nat, d: Doubled)
    ensures |Argument(s, quoted, slashes, d).1| <= |s|
    ensures s != "" && !IsBlank(s[0]) ==> |Argument(s, quoted, slashes, d).1| < |s|
    decreases |s|
  {
    if s == "" {
    } else if s[0] == '\\' {
      ArgumentShortens(s[1..], quoted, slashes + 1, d);
    } else if s[0] == '\"' && slashes % 2 == 0 && quoted && |s| > 1 && s[1] == '\"' && d != Toggles {
      ArgumentShortens(s[2..], d == LiteralStaysOpen, 0, d);
    } else if s[0] == '\"' {
      ArgumentShortens(s[1..], if slashes % 2 == 1 then quoted else !quoted, 0, d);
    } else {
      ArgumentShortens(s[1..], quoted, 0, d);
    }
  }

  /** Everything behind the program name. */
  function Arguments(s: string, d: Doubled): seq<string>
    decreases |s|
  {
    var t := SkipBlanks(s);
    if t == "" then []
    else
      ArgumentShortens(t, false, 0, d);
      var (text, rest) := Argument(t, false, 0, d);
      [text] + Arguments(rest, d)
  }

  function UntilQuote(s: string): string
    ensures |UntilQuote(s)| <= |s|
  {
    if s == "" then "" else if s[0] == '\"' then s[1..] else UntilQuote(s[1..])
  }

  function UntilBlank(s: string): string
    ensures |UntilBlank(s)| <= |s|
  {
    if s == "" || IsBlank(s[0]) then s else UntilBlank(s[1..])
  }

  /** The program name ends at the next quote or blank; backslashes mean nothing in it. */
  function AfterProgram(s: string): string {
    if s != "" && s[0] == '\"' then UntilQuote(s[1..]) else UntilBlank(s)
  }

  function ParseCommandLine(s: string, d: Doubled): seq<string> { Arguments(AfterProgram(s), d) }

  // ---------- Quoting ----------

  predicate NeedsQuotes(a: string) { exists i :: 0 <= i < |a| && (IsBlank(a[i]) || a[i] == '\"') }

  /** The rest of a quoted argument, with some backslashes read but not yet written. */
  function Escaped(a: string, slashes: nat): string {
    if a == "" then Slashes(2 * slashes) + "\""
    else if a[0] == '\\' then Escaped(a[1..], slashes + 1)
    else if a[0] == '\"' then Slashes(2 * slashes + 1) + "\"" + Escaped(a[1..], 0)
    else Slashes(slashes) + [a[0]] + Escaped(a[1..], 0)
  }

  function Quoted(a: string): string {
    if a == "" then "\"\"" else if !NeedsQuotes(a) then a else "\"" + Escaped(a, 0)
  }

  function Joined(args: seq<string>): string {
    if args == [] then "" else " " + Quoted(args[0]) + Joined(args[1..])
  }

  function CommandLine(program: string, args: seq<string>): string { Quoted(program) + Joined(args) }

  // ---------- The quoters as they run ----------

  /** quote_argument and quote_command_argument: one pass with a backslash counter. */
  method QuoteArgument(a: string) returns (quoted: string)
    ensures quoted == Quoted(a)
  {
    if a == "" {
      return "\"\"";
    }
    if !(exists i :: 0 <= i < |a| && (IsBlank(a[i]) || a[i] == '\"')) {
      return a;
    }
    quoted := "\"";
    var backslashes := 0;
    for i := 0 to |a|
      invariant quoted + Escaped(a[i..], backslashes) == "\"" + Escaped(a, 0)
    {
      assert a[i..][1..] == a[i + 1..];
      ghost var before, rest := quoted, a[i + 1..];
      if a[i] == '\\' {
        backslashes := backslashes + 1;
      } else if a[i] == '\"' {
        quoted := quoted + Slashes(backslashes * 2 + 1) + "\"";
        assert quoted + Escaped(rest, 0) == before + (Slashes(backslashes * 2 + 1) + "\"" + Escaped(rest, 0));
        backslashes := 0;
      } else {
        quoted := quoted + Slashes(backslashes) + [a[i]];
        assert quoted + Escaped(rest, 0) == before + (Slashes(backslashes) + [a[i]] + Escaped(rest, 0));
        backslashes := 0;
      }
    }
    assert a[|a|..] == "";
    quoted := quoted + (Slashes(backslashes * 2) + "\"");
  }

  /** build_command_line, and the same loop in the manager. */
  method BuildCommandLine(program: string, args: seq<string>) returns (command: string)
    ensures command == CommandLine(program, args)
  {
    hide Quoted;
    command := QuoteArgument(program);
    for i := 0 to |args|
      invariant command + Joined(args[i..]) == CommandLine(program, args)
    {
      assert args[i..][1..] == args[i + 1..];
      var quoted := QuoteArgument(args[i]);
      Associative(command, " " + quoted, Joined(args[i + 1..]));
      Associative(command, " ", quoted);
      command := command + " ";
      command := command + quoted;
    }
    assert args[|args|..] == [] && command + "" == command;
  }

  // ---------- One argument ----------

  lemma SlashesSplit(m: nat, n: nat)
    ensures Slashes(m) + Slashes(n) == Slashes(m + n)
  {
  }

  lemma {:induction false} ReadSlashes(n: nat, s: string, quoted: bool, slashes: nat, d: Doubled)
    ensures Argument(Slashes(n) + s, quoted, slashes, d) == Argument(s, quoted, slashes + n, d)
    decreases n
  {
    if n == 0 {
      assert Slashes(0) + s == s;
    } else {
      assert (Slashes(n) + s)[1..] == Slashes(n - 1) + s;
      ReadSlashes(n - 1, s, quoted, slashes + 1, d);
    }
  }

  // What may follow an argument.
  predicate Ends(tail: string) { tail == "" || IsBlank(tail[0]) }

  // A literal quote: an odd run of backslashes in front of it.
  lemma ReadQuote(n: nat, more: string, d: Doubled, text: string, tail: string)
    requires Argument(more, true, 0, d) == (text, tail)
    ensures Argument(Slashes(2 * n + 1) + "\"" + more, true, 0, d) == (Slashes(n) + "\"" + text, tail)
  {
    hide Slashes;
    assert Slashes(2 * n + 1) + "\"" + more == Slashes(2 * n + 1) + ("\"" + more);
    ReadSlashes(2 * n + 1, "\"" + more, true, 0, d);
    assert ("\"" + more)[1..] == more;
  }

  // Any other character: the backslashes in front of it are literal.
  lemma ReadPlain(n: nat, c: char, more: string, d: Doubled, text: string, tail: string)
    requires c != '\\' && c != '\"' && Argument(more, true, 0, d) == (text, tail)
    ensures Argument(Slashes(n) + [c] + more, true, 0, d) == (Slashes(n) + [c] + text, tail)
  {
    hide Slashes;
    assert Slashes(n) + [c] + more == Slashes(n) + ([c] + more);
    ReadSlashes(n, [c] + more, true, 0, d);
    assert ([c] + more)[1..] == more;
  }

  // The closing quote: an even run in front of it.
  lemma ReadClose(n: nat, tail: string, d: Doubled)
    requires Ends(tail)
    ensures Argument(Slashes(2 * n) + "\"" + tail, true, 0, d) == (Slashes(n), tail)
  {
    assert Slashes(2 * n) + "\"" + tail == Slashes(2 * n) + ("\"" + tail);
    ReadSlashes(2 * n, "\"" + tail, true, 0, d);
    assert ("\"" + tail)[1..] == tail;
    assert Argument(tail, false, 0, d) == ("", tail);
    assert Slashes(n) + "" == Slashes(n);
  }

  // The text of an argument, one character at a time.
  lemma EscapedParts(c: char, rest: string, n: nat, tail: string)
    ensures c == '\\' ==> Escaped([c] + rest, n) == Escaped(rest, n + 1)
    ensures c == '\"' ==> Escaped([c] + rest, n) + tail == Slashes(2 * n + 1) + "\"" + (Escaped(rest, 0) + tail)
    ensures c != '\\' && c != '\"' ==> Escaped([c] + rest, n) + tail == Slashes(n) + [c] + (Escaped(rest, 0) + tail)
  {
    hide Slashes;
    assert ([c] + rest)[1..] == rest;
    Associative(Slashes(2 * n + 1) + "\"", Escaped(rest, 0), tail);
    Associative(Slashes(n) + [c], Escaped(rest, 0), tail);
  }

  lemma SlashesAnd(n: nat, c: char, rest: string)
    ensures Slashes(n + 1) + rest == Slashes(n) + ("\\" + rest)
    ensures Slashes(n) + [c] + (Slashes(0) + rest) == Slashes(n) + ([c] + rest)
  {
    assert Slashes(0) + rest == rest;
    Associative(Slashes(n), [c], rest);
    SlashesSplit(n, 1);
  }

  lemma {:induction false} EscapedReads(a: string, slashes: nat, tail: string, d: Doubled)
    requires Ends(tail)
    ensures Argument(Escaped(a, slashes) + tail, true, 0, d) == (Slashes(slashes) + a, tail)
    decreases a
  {
    if a == "" {
      ReadClose(slashes, tail, d);
      assert Slashes(slashes) + "" == Slashes(slashes);
    } else {
      hide Argument, Slashes, Escaped;
      var c, rest := a[0], a[1..];
      assert a == [c] + rest;
      var more := Escaped(rest, 0) + tail;
      EscapedParts(c, rest, slashes, tail);
      SlashesAnd(slashes, c, rest);
      EscapedReads(rest, if c == '\\' then slashes + 1 else 0, tail, d);
      if c == '\"' {
        ReadQuote(slashes, more, d, Slashes(0) + rest, tail);
      } else if c != '\\' {
        ReadPlain(slashes, c, more, d, Slashes(0) + rest, tail);
      }
    }
  }

  lemma {:induction false} PlainReads(a: string, slashes: nat, tail: string, d: Doubled)
    requires Ends(tail) && !NeedsQuotes(a)
    ensures Argument(a + tail, false, slashes, d) == (Slashes(slashes) + a, tail)
    decreases a
  {
    if a == "" {
      assert a + tail == tail && Slashes(slashes) + "" == Slashes(slashes);
    } else {
      var rest := a[1..];
      assert a == [a[0]] + rest && (a + tail)[1..] == rest + tail;
      assert !NeedsQuotes(rest) by {
        assert forall i | 0 <= i < |rest| :: rest[i] == a[i + 1];
      }
      if a[0] == '\\' {
        PlainReads(rest, slashes + 1, tail, d);
        SlashesSplit(slashes, 1);
        assert Slashes(slashes) + ("\\" + rest) == Slashes(slashes + 1) + rest;
      } else {
        PlainReads(rest, 0, tail, d);
        assert Slashes(0) + rest == rest;
        assert Slashes(slashes) + [a[0]] + rest == Slashes(slashes) + a;
      }
    }
  }

  /** Whatever the argument, reading its quoted form gives it back and stops right behind it. */
  lemma QuotedReads(a: string, tail: string, d: Doubled)
    requires Ends(tail)
    ensures Argument(Quoted(a) + tail, false, 0, d) == (a, tail)
    ensures !Ends(Quoted(a))
  {
    hide Argument, Escaped;
    assert Slashes(0) + a == a;
    if a == "" {
      ReadClose(0, tail, d);
      assert Slashes(0) + "\"" + tail == "\"" + tail;
      Opens("\"" + tail, d);
      assert Quoted(a) + tail == "\"" + ("\"" + tail);
    } else if NeedsQuotes(a) {
      EscapedReads(a, 0, tail, d);
      Opens(Escaped(a, 0) + tail, d);
      Associative("\"", Escaped(a, 0), tail);
    } else {
      PlainReads(a, 0, tail, d);
    }
  }

  lemma Opens(s: string, d: Doubled)
    ensures Argument("\"" + s, false, 0, d) == Argument(s, true, 0, d)
  {
    assert ("\"" + s)[1..] == s;
    var (text, rest) := Argument(s, true, 0, d);
    assert Slashes(0) + text == text;
  }

  // ---------- The whole command line ----------

  lemma JoinedEnds(args: seq<string>)
    ensures Ends(Joined(args))
  {
  }

  lemma BlankSkipped(first: string, tail: string)
    requires !Ends(first)
    ensures first + tail != "" && SkipBlanks(" " + (first + tail)) == first + tail
  {
    assert (" " + (first + tail))[1..] == first + tail;
  }

  /** Every list of arguments comes back unchanged. */
  lemma {:induction false} JoinedReads(args: seq<string>, d: Doubled)
    ensures Arguments(Joined(args), d) == args
  {
    hide Quoted, Argument, SkipBlanks, Ends;
    if args == [] {
      NothingJoined(d);
    } else {
      var tail := Joined(args[1..]);
      JoinedEnds(args[1..]);
      QuotedReads(args[0], tail, d);
      BlankSkipped(Quoted(args[0]), tail);
      JoinedReads(args[1..], d);
      assert Joined(args) == " " + (Quoted(args[0]) + tail);
    }
  }

  lemma NothingJoined(d: Doubled)
    ensures Joined([]) == "" && Arguments("", d) == []
  {
  }

  lemma {:induction false} UntilQuoteFinds(a: string, tail: string)
    requires '\"' !in a
    ensures UntilQuote(a + "\"" + tail) == tail
  {
    if a == "" {
      assert (a + "\"" + tail)[1..] == tail;
    } else {
      assert (a + "\"" + tail)[1..] == a[1..] + "\"" + tail;
      UntilQuoteFinds(a[1..], tail);
    }
  }

  lemma {:induction false} UntilBlankFinds(a: string, tail: string)
    requires Ends(tail) && forall i | 0 <= i < |a| :: !IsBlank(a[i])
    ensures UntilBlank(a + tail) == tail
  {
    if a == "" {
      assert a + tail == tail;
    } else {
      assert (a + tail)[1..] == a[1..] + tail;
      UntilBlankFinds(a[1..], tail);
    }
  }

  // Without a quote in it, a quoted text is the text with some backslashes, in quotes.
  lemma {:induction false} EscapedPlain(a: string, slashes: nat) returns (inside: string)
    requires '\"' !in a
    ensures Escaped(a, slashes) == inside + "\"" && '\"' !in inside
  {
    if a == "" {
      inside := Slashes(2 * slashes);
    } else if a[0] == '\\' {
      inside := EscapedPlain(a[1..], slashes + 1);
    } else {
      var rest := EscapedPlain(a[1..], 0);
      inside := Slashes(slashes) + [a[0]] + rest;
      assert Escaped(a, slashes) == inside + "\"";
    }
  }

  lemma ProgramEnds(program: string, tail: string)
    requires '\"' !in program && Ends(tail)
    ensures AfterProgram(Quoted(program) + tail) == tail
  {
    if program == "" {
      assert ("\"\"" + tail)[1..] == "" + "\"" + tail;
      UntilQuoteFinds("", tail);
    } else if NeedsQuotes(program) {
      var inside := EscapedPlain(program, 0);
      assert ("\"" + Escaped(program, 0) + tail)[1..] == inside + "\"" + tail;
      UntilQuoteFinds(inside, tail);
    } else {
      UntilBlankFinds(program, tail);
      assert program[0] in program;
    }
  }

  /** A program named by any path without a quote receives exactly the arguments, in any dialect. */
  lemma CommandLineReads(program: string, args: seq<string>, d: Doubled)
    requires '\"' !in program
    ensures ParseCommandLine(CommandLine(program, args), d) == args
  {
    JoinedEnds(args);
    ProgramEnds(program, Joined(args));
    JoinedReads(args, d);
  }

  // ---------- From the manager's text box to the game ----------

  const MAX_TEXT := 32768
  const PLACEHOLDER := "ffb-placeholder.exe "

  /** The length of a text in UTF-16, where a character outside the basic plane counts twice. */
  function Units(text: string): nat {
    if text == "" then 0 else (if text[0] as int >= 0x1_0000 then 2 else 1) + Units(text[1..])
  }

  /** The places of the characters outside the basic plane. */
  function Pairs(text: string): (places: set<nat>) { set i: nat | i < |text| && text[i] as int > 65535 }

  /** The length is that of the text and one more for every character outside the basic plane. */
  lemma {:induction false} UnitsMean(text: string)
    ensures Units(text) == |text| + |Pairs(text)|
    decreases text
  {
    if text == "" {
      assert Pairs(text) == {};
    } else {
      hide Units, Pairs;
      var front, c := text[..|text| - 1], text[|text| - 1];
      UnitsMean(front);
      UnitsSnoc(front, c);
      UnitsOne(c);
      assert front + [c] == text;
      PairsSnoc(front, c);
    }
  }

  lemma UnitsOne(c: char)
    ensures Units([c]) == if c as int > 65535 then 2 else 1
  {
    assert Units([c]) == (if c as int >= 0x1_0000 then 2 else 1) + Units([c][1..]);
  }

  lemma PairsSnoc(front: string, c: char)
    ensures |Pairs(front + [c])| == |Pairs(front)| + if c as int > 65535 then 1 else 0
  {
    assert Pairs(front + [c]) == Pairs(front) + if c as int > 65535 then {|front|} else {};
  }

  lemma {:induction false} UnitsSnoc(front: string, c: char)
    ensures Units(front + [c]) == Units(front) + Units([c])
    decreases front
  {
    if front == "" {
      assert "" + [c] == [c];
    } else {
      UnitsSnoc(front[1..], c);
      assert (front + [c])[1..] == front[1..] + [c];
    }
  }

  /** The player's argument text, taken apart as Windows would. */
  function SplitGameArguments(text: string, d: Doubled): Option<seq<string>> {
    if text == "" then Some([])
    else if Units(text) > MAX_TEXT then None
    else Some(ParseCommandLine(PLACEHOLDER + text, d))
  }

  datatype Request = Request(offlineOnly: bool, gamePath: string, arguments: seq<string>)

  datatype Options = Help | Bad | Launch(request: Request)

  /** The launcher's options, from an index on. */
  function ParseOptions(argv: seq<string>, index: nat, r: Request): Options
    decreases |argv| - index
  {
    if index >= |argv| then Launch(r)
    else if argv[index] == "--help" || argv[index] == "-h" then Help
    else if argv[index] == "--offline-only" then ParseOptions(argv, index + 1, r.(offlineOnly := true))
    else if argv[index] == "--game" then
      if index + 1 >= |argv| then Bad else ParseOptions(argv, index + 2, r.(gamePath := argv[index + 1]))
    else if argv[index] == "--" then Launch(r.(arguments := r.arguments + argv[index + 1..]))
    else Bad
  }

  const NO_REQUEST := Request(false, "", [])

  /** The option loop of the launcher's entry point. */
  method ReadOptions(argv: seq<string>) returns (o: Options)
    ensures o == ParseOptions(argv, 1, NO_REQUEST)
  {
    var r := NO_REQUEST;
    var index := 1;
    while index < |argv|
      invariant index >= 1 && ParseOptions(argv, index, r) == ParseOptions(argv, 1, NO_REQUEST)
      decreases |argv| - index
    {
      var argument := argv[index];
      if argument == "--help" || argument == "-h" {
        return Help;
      }
      if argument == "--offline-only" {
        r := r.(offlineOnly := true);
        index := index + 1;
        continue;
      }
      if argument == "--game" {
        index := index + 1;
        if index >= |argv| {
          return Bad;
        }
        r := r.(gamePath := argv[index]);
        index := index + 1;
        continue;
      }
      if argument == "--" {
        ghost var start, before := index + 1, r.arguments;
        index := index + 1;
        while index < |argv|
          invariant start <= index <= |argv|
          invariant r == r.(arguments := before + argv[start..index])
          invariant r.(arguments := before) == r.(arguments := before)
          invariant ParseOptions(argv, start - 1, r.(arguments := before)) == ParseOptions(argv, 1, NO_REQUEST)
        {
          assert argv[start..index + 1] == argv[start..index] + [argv[index]];
          r := r.(arguments := r.arguments + [argv[index]]);
          index := index + 1;
        }
        assert argv[start..index] == argv[start..];
        return Launch(r);
      }
      return Bad;
    }
    o := Launch(r);
  }

  /** What the manager starts the launcher with. */
  function LauncherArguments(gamePath: string, arguments: seq<string>): seq<string> {
    ["--offline-only", "--game", gamePath, "--"] + arguments
  }

  lemma LauncherUnderstands(launcher: string, gamePath: string, arguments: seq<string>)
    ensures ParseOptions([launcher] + LauncherArguments(gamePath, arguments), 1, NO_REQUEST)
      == Launch(Request(true, gamePath, arguments))
  {
    var argv := [launcher] + LauncherArguments(gamePath, arguments);
    assert argv[5..] == arguments && [] + argv[5..] == arguments;
    var r := Request(true, gamePath, []);
    assert ParseOptions(argv, 4, r) == Launch(r.(arguments := r.arguments + argv[5..]));
    assert ParseOptions(argv, 2, Request(true, "", [])) == ParseOptions(argv, 4, r);
  }

  /**
   Both hops: whatever the game arguments are, the launcher reads back the request the manager
   made, and the game, started with the launcher's own command line, receives exactly them.
   */
  lemma GameReceivesArguments(launcher: string, gamePath: string, started: string, arguments: seq<string>,
      d1: Doubled, d2: Doubled)
    requires '\"' !in launcher && '\"' !in started
    ensures var argv := [launcher]
        + ParseCommandLine(CommandLine(launcher, LauncherArguments(gamePath, arguments)), d1);
      var options := ParseOptions(argv, 1, NO_REQUEST);
      options == Launch(Request(true, gamePath, arguments))
      && ParseCommandLine(CommandLine(started, options.request.arguments), d2) == arguments
  {
    hide ParseCommandLine, CommandLine, ParseOptions;
    CommandLineReads(launcher, LauncherArguments(gamePath, arguments), d1);
    LauncherUnderstands(launcher, gamePath, arguments);
    CommandLineReads(started, arguments, d2);
  }

  /** A text that is itself a quoted list splits into that list, if it is not too long. */
  lemma SplitOfQuoted(args: seq<string>, d: Doubled)
    requires args != []
    ensures var text := Joined(args)[1..];
      SplitGameArguments(text, d) == if Units(text) > MAX_TEXT then None else Some(args)
  {
    hide Units, Argument, Arguments, Quoted, UntilBlank, NeedsQuotes;
    var text, program := Joined(args), "ffb-placeholder.exe";
    QuotedReads(args[0], "", d);
    assert text[0] == ' ' && text[1..] != "";
    Associative(program, " ", text[1..]);
    assert text == " " + text[1..] && PLACEHOLDER == program + " ";
    JoinedEnds(args);
    UntilBlankFinds(program, text);
    assert program[0] != '\"';
    JoinedReads(args, d);
  }

  lemma {:induction false} UntilQuoteSkips(plain: string, s: string)
    requires '\"' !in plain
    ensures UntilQuote(plain + s) == UntilQuote(s)
  {
    if plain == "" {
      assert plain + s == s;
    } else {
      assert (plain + s)[1..] == plain[1..] + s;
      UntilQuoteSkips(plain[1..], s);
    }
  }

  // A quoted text ends in a quote; with a quote in the text, one is left behind the first.
  lemma {:induction false} EscapedQuotes(a: string, slashes: nat)
    ensures '\"' in Escaped(a, slashes)
    ensures '\"' in a ==> '\"' in UntilQuote(Escaped(a, slashes))
  {
    if a == "" {
    } else if a[0] == '\\' {
      EscapedQuotes(a[1..], slashes + 1);
    } else if a[0] == '\"' {
      EscapedQuotes(a[1..], 0);
      UntilQuoteFinds(Slashes(2 * slashes + 1), Escaped(a[1..], 0));
    } else {
      EscapedQuotes(a[1..], 0);
      UntilQuoteSkips(Slashes(slashes) + [a[0]], Escaped(a[1..], 0));
    }
  }

  lemma {:induction false} SomethingLeft(s: string)
    requires '\"' in s
    ensures SkipBlanks(s) != ""
  {
    if IsBlank(s[0]) {
      assert '\"' in s[1..];
      SomethingLeft(s[1..]);
    }
  }

  /**
   Exactly the program paths without a quote are survived. With a quote in the path the name
   ends at it, and an argument appears even when none was given.
   */
  lemma ReadsBackExactly(program: string, d: Doubled)
    ensures (forall args :: ParseCommandLine(CommandLine(program, args), d) == args) <==> '\"' !in program
  {
    hide Argument, Arguments, AfterProgram, Escaped, Joined;
    if '\"' in program {
      QuoteInProgramBreaks(program, d);
    } else {
      forall args: seq<string>
        ensures ParseCommandLine(CommandLine(program, args), d) == args
      {
        CommandLineReads(program, args, d);
      }
    }
  }

  lemma QuoteInProgramBreaks(program: string, d: Doubled)
    requires '\"' in program
    ensures ParseCommandLine(CommandLine(program, []), d) != []
  {
    hide Escaped, UntilQuote;
    var i :| 0 <= i < |program| && program[i] == '\"';
    assert NeedsQuotes(program);
    var command := CommandLine(program, []);
    assert command == "\"" + Escaped(program, 0);
    assert command[1..] == Escaped(program, 0);
    EscapedQuotes(program, 0);
    SomethingLeft(UntilQuote(Escaped(program, 0)));
  }
}
