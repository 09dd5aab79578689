/**
 The command line of the trainer process: how arguments are quoted, and how
 the program that is started reads them back by the rules of "Parsing C++
 command-line arguments" in Microsoft's reference of the main function.
 */
module CommandLine {
  import opened Text

  // ---- quoting --------------------------------------------------------------------------

  function Slashes(n: nat): (r: string)
    ensures |r| == n && forall i :: 0 <= i < n ==> r[i] == '\\'
  {
    if n == 0 then "" else "\\" + Slashes(n - 1)
  }

  predicate Special(c: char) {
    c == ' ' || c == '\t' || c == '\n' || c == '\U{0B}' || c == '"'
  }

  predicate IsPlain(argument: string) {
    forall c <- argument :: !Special(c)
  }

  // What the quoted form of the argument has between its quotes, after n backslashes.
  function Escaped(argument: string, n: nat): string {
    if argument == "" then Slashes(2 * n)
    else if argument[0] == '\\' then Escaped(argument[1..], n + 1)
    else if argument[0] == '"' then Slashes(2 * n + 1) + "\"" + Escaped(argument[1..], 0)
    else Slashes(n) + [argument[0]] + Escaped(argument[1..], 0)
  }

  function Quoted(argument: string): string {
    if argument == "" then "\"\""
    else if IsPlain(argument) then argument
    else "\"" + Escaped(argument, 0) + "\""
  }

  function Joined(arguments: seq<string>): string {
    if arguments == [] then "" else " " + Quoted(arguments[0]) + Joined(arguments[1..])
  }

  function Command(executable: string, arguments: seq<string>): string {
    Quoted(executable) + Joined(arguments)
  }

  method QuoteArgument(argument: string) returns (result: string)
    ensures result == Quoted(argument)
  {
    if argument == "" {
      return "\"\"";
    }
    if IsPlain(argument) {
      return argument;
    }
    result := "\"";
    var backslashes: nat := 0;
    var i: nat := 0;
    while i < |argument|
      invariant i <= |argument|
      invariant result + Escaped(argument[i..], backslashes) == "\"" + Escaped(argument, 0)
    {
      var rest := argument[i..];
      assert rest[0] == argument[i] && rest[1..] == argument[i + 1..];
      if argument[i] == '\\' {
        backslashes := backslashes + 1;
      } else if argument[i] == '"' {
        result := result + Slashes(backslashes * 2 + 1);
        result := result + "\"";
        backslashes := 0;
      } else {
        result := result + Slashes(backslashes);
        backslashes := 0;
        result := result + [argument[i]];
      }
      i := i + 1;
    }
    assert argument[i..] == "";
    result := result + Slashes(backslashes * 2);
    result := result + "\"";
  }

  lemma JoinedStep(before: string, arguments: seq<string>, i: nat)
    requires i < |arguments|
    ensures before + Joined(arguments[i..]) == before + " " + Quoted(arguments[i]) + Joined(arguments[i + 1..])
  {
    var rest := Joined(arguments[i + 1..]);
    assert arguments[i..][0] == arguments[i] && arguments[i..][1..] == arguments[i + 1..];
    assert before + (" " + Quoted(arguments[i]) + rest) == before + " " + Quoted(arguments[i]) + rest;
  }

  method BuildCommand(executable: string, arguments: seq<string>) returns (command: string)
    ensures command == Command(executable, arguments)
  {
    command := QuoteArgument(executable);
    var i: nat := 0;
    while i < |arguments|
      invariant i <= |arguments|
      invariant command + Joined(arguments[i..]) == Command(executable, arguments)
    {
      JoinedStep(command, arguments, i);
      var quoted := QuoteArgument(arguments[i]);
      command := command + " ";
      command := command + quoted;
      i := i + 1;
    }
    assert arguments[i..] == [];
  }

  // ---- reading back -----------------------------------------------------------------------

  predicate Blank(c: char) {
    c == ' ' || c == '\t'
  }

  function Leading(s: string): (n: nat)
    ensures n <= |s| && s[..n] == Slashes(n) && (n < |s| ==> s[n] != '\\')
  {
    if s != "" && s[0] == '\\' then
      assert s == [s[0]] + s[1..];
      1 + Leading(s[1..])
    else 0
  }

  function Behind(text: string, w: (string, string)): (string, string) {
    (text + w.0, w.1)
  }

  // One argument and what follows it. Backslashes stand for themselves unless
  // a quotation mark follows: then two stand for one, and an odd one makes the
  // mark literal. Other marks turn quoting on and off, but two in a row within
  // quotes are a literal mark. Blanks outside quotes end the argument.
  function Word(s: string, quoted: bool): (r: (string, string))
    ensures |r.1| <= |s|
    decreases |s|
  {
    if s == "" || (!quoted && Blank(s[0])) then ("", s)
    else
      var n := Leading(s);
      if n < |s| && s[n] == '"' then
        if n % 2 == 1 then Behind(Slashes(n / 2) + "\"", Word(s[n + 1..], quoted))
        else if quoted && n + 1 < |s| && s[n + 1] == '"' then Behind(Slashes(n / 2) + "\"", Word(s[n + 2..], true))
        else Behind(Slashes(n / 2), Word(s[n + 1..], !quoted))
      else if n > 0 then Behind(Slashes(n), Word(s[n..], quoted))
      else Behind([s[0]], Word(s[1..], quoted))
  }

  // The arguments, after the name of the program.
  function Arguments(s: string): seq<string>
    decreases |s|
  {
    if s == "" then []
    else if Blank(s[0]) then Arguments(s[1..])
    else
      var w := Word(s, false);
      if |w.1| < |s| then [w.0] + Arguments(w.1) else [w.0]
  }

  // The name of the program: marks turn quoting on and off, nothing else is special.
  function Name(s: string, quoted: bool): (string, string)
    decreases |s|
  {
    if s == "" || (!quoted && Blank(s[0])) then ("", s)
    else if s[0] == '"' then Name(s[1..], !quoted)
    else Behind([s[0]], Name(s[1..], quoted))
  }

  // ---- what was written is what is read ---------------------------------------------------

  predicate Ends(rest: string) {
    rest == "" || rest[0] == ' '
  }

  // A string that starts with n backslashes.
  lemma {:induction false} LeadingOf(s: string, n: nat, t: string)
    requires s == Slashes(n) + t && (t == "" || t[0] != '\\')
    ensures Leading(s) == n && s[n..] == t && (n < |s| ==> s[n] == t[0])
  {
    if n > 0 {
      assert s[1..] == Slashes(n - 1) + t;
      LeadingOf(s[1..], n - 1, t);
    }
  }

  // The closing mark: the backslashes before it were doubled.
  lemma CloseReads(s: string, n: nat, rest: string)
    requires Ends(rest) && s == Slashes(2 * n) + ("\"" + rest)
    ensures Word(s, true) == (Slashes(n), rest)
  {
    LeadingOf(s, 2 * n, "\"" + rest);
    assert s[2 * n + 1..] == rest;
    assert Word(rest, false) == ("", rest);
    assert Slashes(n) + "" == Slashes(n);
  }

  // The end of an argument that is not quoted: the backslashes before it are literal.
  lemma EndReads(s: string, n: nat, rest: string)
    requires Ends(rest) && s == Slashes(n) + rest
    ensures Word(s, false) == (Slashes(n), rest)
  {
    LeadingOf(s, n, rest);
    assert Word(rest, false) == ("", rest);
    assert Slashes(n) + "" == Slashes(n);
  }

  lemma MarkReads(s: string, n: nat, tail: string)
    requires s == Slashes(2 * n + 1) + ("\"" + tail)
    ensures Word(s, true) == Behind(Slashes(n) + "\"", Word(tail, true))
  {
    LeadingOf(s, 2 * n + 1, "\"" + tail);
    assert s[2 * n + 2..] == tail;
    assert (2 * n + 1) / 2 == n;
  }

  lemma CharReads(s: string, n: nat, c: char, tail: string, quoted: bool)
    requires c != '\\' && c != '"' && (quoted || !Blank(c)) && s == Slashes(n) + ([c] + tail)
    ensures Word(s, quoted) == Behind(Slashes(n) + [c], Word(tail, quoted))
  {
    var u := [c] + tail;
    LeadingOf(u, 0, u);
    assert u[1..] == tail;
    assert Word(u, quoted) == Behind([c], Word(tail, quoted));
    LeadingOf(s, n, u);
    BehindTwice(Slashes(n), [c], Word(tail, quoted));
    if n == 0 {
      assert s == u && Slashes(n) + [c] == [c];
    }
  }

  lemma BehindTwice(a: string, b: string, w: (string, string))
    ensures Behind(a, Behind(b, w)) == Behind(a + b, w)
  {
    assert a + (b + w.0) == a + b + w.0;
  }

  lemma {:induction false} EscapedReads(argument: string, n: nat, rest: string)
    requires Ends(rest)
    ensures Word(Escaped(argument, n) + ("\"" + rest), true) == (Slashes(n) + argument, rest)
    decreases |argument|
  {
    hide Word;
    var close := "\"" + rest;
    if argument == "" {
      CloseReads(Slashes(2 * n) + close, n, rest);
      assert Slashes(n) + argument == Slashes(n);
    } else if argument[0] == '\\' {
      EscapedReads(argument[1..], n + 1, rest);
      assert Slashes(n + 1) + argument[1..] == Slashes(n) + argument;
    } else {
      EscapedReads(argument[1..], 0, rest);
      assert Slashes(0) + argument[1..] == argument[1..];
      EscapedStep(argument, n, close);
      assert Slashes(n) + [argument[0]] + argument[1..] == Slashes(n) + argument;
    }
  }

  lemma EscapedStep(argument: string, n: nat, close: string)
    requires argument != "" && argument[0] != '\\'
    ensures Word(Escaped(argument, n) + close, true) ==
      Behind(Slashes(n) + [argument[0]], Word(Escaped(argument[1..], 0) + close, true))
  {
    hide Word, Slashes;
    var after := Escaped(argument[1..], 0);
    if argument[0] == '"' {
      Regroup4(Slashes(2 * n + 1), "\"", after, close);
      MarkReads(Slashes(2 * n + 1) + "\"" + after + close, n, after + close);
    } else {
      Regroup4(Slashes(n), [argument[0]], after, close);
      CharReads(Slashes(n) + [argument[0]] + after + close, n, argument[0], after + close, true);
    }
  }

  lemma {:induction false} PlainReads(argument: string, n: nat, rest: string)
    requires Ends(rest) && IsPlain(argument)
    ensures Word(Slashes(n) + (argument + rest), false) == (Slashes(n) + argument, rest)
    decreases |argument|
  {
    hide Word;
    var s := Slashes(n) + (argument + rest);
    if argument == "" {
      assert s == Slashes(n) + rest && Slashes(n) + argument == Slashes(n);
      EndReads(s, n, rest);
    } else {
      assert argument[0] in argument && IsPlain(argument[1..]);
      if argument[0] == '\\' {
        PlainReads(argument[1..], n + 1, rest);
        assert Slashes(n + 1) + (argument[1..] + rest) == s;
        assert Slashes(n + 1) + argument[1..] == Slashes(n) + argument;
      } else {
        PlainReads(argument[1..], 0, rest);
        assert Slashes(0) + (argument[1..] + rest) == argument[1..] + rest;
        assert s == Slashes(n) + ([argument[0]] + (argument[1..] + rest));
        CharReads(s, n, argument[0], argument[1..] + rest, false);
        assert Slashes(0) + argument[1..] == argument[1..];
        assert Slashes(n) + [argument[0]] + argument[1..] == Slashes(n) + argument;
      }
    }
  }

  lemma QuotedReads(argument: string, rest: string)
    requires Ends(rest)
    ensures Word(Quoted(argument) + rest, false) == (argument, rest)
  {
    hide Word;
    if argument != "" && IsPlain(argument) {
      PlainReads(argument, 0, rest);
      assert Slashes(0) + (argument + rest) == argument + rest && Slashes(0) + argument == argument;
    } else {
      var tail := Escaped(argument, 0) + ("\"" + rest);
      assert Quoted(argument) + rest == "\"" + tail;
      EscapedReads(argument, 0, rest);
      OpenReads(tail);
      assert Slashes(0) + argument == argument == "" + argument;
    }
  }

  // The opening mark is not the first of two in a row within quotes.
  lemma OpenReads(tail: string)
    ensures Word("\"" + tail, false) == Behind("", Word(tail, true))
  {
    var s := "\"" + tail;
    assert s[0] == '"' && s[1..] == tail;
    assert Leading(s) == 0;
  }

  // What the trainer reads is what it was given, whatever the arguments are.
  lemma {:induction false} ArgumentsReadBack(arguments: seq<string>)
    ensures Arguments(Joined(arguments)) == arguments
  {
    if arguments != [] {
      var rest := Joined(arguments[1..]);
      var s := Joined(arguments);
      assert s == " " + (Quoted(arguments[0]) + rest);
      var t := Quoted(arguments[0]) + rest;
      assert s[1..] == t;
      QuotedReads(arguments[0], rest);
      QuotedStarts(arguments[0]);
      ArgumentsReadBack(arguments[1..]);
    }
  }

  lemma QuotedStarts(argument: string)
    ensures Quoted(argument) != "" && !Blank(Quoted(argument)[0])
  {
    if argument != "" && IsPlain(argument) {
      assert argument[0] in argument;
    }
  }

  // ---- the name of the program ------------------------------------------------------------

  lemma {:induction false} NameHasNoMark(s: string, quoted: bool)
    ensures '"' !in Name(s, quoted).0
    decreases |s|
  {
    if s != "" && (quoted || !Blank(s[0])) {
      NameHasNoMark(s[1..], if s[0] == '"' then !quoted else quoted);
    }
  }

  lemma {:induction false} NameReads(text: string, rest: string, quoted: bool)
    requires '"' !in text && (quoted || (Ends(rest) && forall c <- text :: !Blank(c)))
    requires quoted ==> rest != "" && rest[0] == '"' && Ends(rest[1..])
    ensures Name(text + rest, quoted) == (text, if quoted then rest[1..] else rest)
  {
    var s := text + rest;
    if text == "" {
      assert s == rest;
      assert quoted ==> Name(rest[1..], false) == ("", rest[1..]);
    } else {
      assert text[0] in text && s[1..] == text[1..] + rest;
      NameReads(text[1..], rest, quoted);
      assert [text[0]] + text[1..] == text;
    }
  }

  // How many backslashes a text ends with, after n before it.
  function Trailing(text: string, n: nat): nat {
    if text == "" then n else Trailing(text[1..], if text[0] == '\\' then n + 1 else 0)
  }

  lemma {:induction false} NothingTrails(text: string, n: nat)
    ensures Trailing(text, n) == 0 <==> if text == "" then n == 0 else text[|text| - 1] != '\\'
  {
    if text != "" {
      NothingTrails(text[1..], if text[0] == '\\' then n + 1 else 0);
    }
  }

  lemma SlashesMove(n: nat, tail: string)
    ensures Slashes(2 * n) == Slashes(n) + "" + Slashes(n)
    ensures Slashes(n + 1) + tail == Slashes(n) + (['\\'] + tail)
    ensures Slashes(0) + tail == tail
  {
  }

  // Without a quotation mark only the backslashes at the end are doubled.
  lemma {:induction false} EscapedNoMark(text: string, n: nat)
    requires '"' !in text
    ensures Escaped(text, n) == Slashes(n) + text + Slashes(Trailing(text, n))
    decreases |text|
  {
    hide Slashes;
    if text == "" {
      SlashesMove(n, text);
    } else {
      var tail := text[1..];
      assert text[0] in text && text == [text[0]] + tail;
      SlashesMove(n, tail);
      if text[0] == '\\' {
        EscapedNoMark(tail, n + 1);
      } else {
        EscapedNoMark(tail, 0);
        Regroup4(Slashes(n), [text[0]], tail, Slashes(Trailing(tail, 0)));
      }
    }
  }

  lemma EscapedAsIs(text: string)
    requires '"' !in text
    ensures Escaped(text, 0) == text <==> text == "" || text[|text| - 1] != '\\'
    ensures '"' !in Escaped(text, 0)
  {
    EscapedNoMark(text, 0);
    NothingTrails(text, 0);
    SlashesMove(0, text);
    assert |Escaped(text, 0)| == |text| + Trailing(text, 0);
  }

  // The program finds its own name, unless the name holds a quotation mark or
  // is quoted and ends with a backslash.
  lemma NameReadsBack(executable: string, rest: string)
    requires Ends(rest)
    ensures Name(Quoted(executable) + rest, false) == (executable, rest) <==>
      '"' !in executable && (IsPlain(executable) || executable[|executable| - 1] != '\\')
  {
    if '"' in executable {
      NameHasNoMark(Quoted(executable) + rest, false);
    } else if executable != "" && IsPlain(executable) {
      NameReads(executable, rest, false);
    } else {
      assert Quoted(executable) == "\"" + Escaped(executable, 0) + "\"";
      QuotedNameReads(executable, rest);
    }
  }

  lemma QuotedNameReads(executable: string, rest: string)
    requires Ends(rest) && '"' !in executable && Quoted(executable) == "\"" + Escaped(executable, 0) + "\""
    ensures Name(Quoted(executable) + rest, false) == (Escaped(executable, 0), rest)
    ensures Escaped(executable, 0) == executable <==> executable == "" || executable[|executable| - 1] != '\\'
  {
    hide Name, Escaped;
    var inner, close := Escaped(executable, 0), "\"" + rest;
    EscapedAsIs(executable);
    assert close[1..] == rest;
    NameReads(inner, close, true);
    OpenNameReads(inner + close);
    assert Quoted(executable) + rest == "\"" + (inner + close) by {
      Regroup4("\"", inner, "\"", rest);
    }
  }

  lemma OpenNameReads(tail: string)
    ensures Name("\"" + tail, false) == Name(tail, true)
  {
    assert ("\"" + tail)[1..] == tail;
  }

  // The command line as a whole.
  lemma CommandReadsBack(executable: string, arguments: seq<string>)
    requires '"' !in executable && (IsPlain(executable) || executable[|executable| - 1] != '\\')
    ensures var r := Name(Command(executable, arguments), false); r.0 == executable && Arguments(r.1) == arguments
  {
    assert Ends(Joined(arguments));
    NameReadsBack(executable, Joined(arguments));
    ArgumentsReadBack(arguments);
  }
}
