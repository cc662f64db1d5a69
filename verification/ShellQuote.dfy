/** Single-quoting for the remote shell (app/cpp/AppController.cpp), against a lexer that
    follows POSIX.1-2017 XCU sections 2.2.1 and 2.2.2. */
module ShellQuote {
  import opened Wrappers

  /** Every `'` becomes `'\''`. */
  function Escape(value: string): string {
    if value == "" then ""
    else (if value[0] == '\'' then "'\\''" else [value[0]]) + Escape(value[1..])
  }

  function ShellQuote(value: string): string { "'" + Escape(value) + "'" }

  // ---------------------------------------------------------------------------
  // The shell's side.
  // ---------------------------------------------------------------------------

  datatype Mode = Plain | Escaped | Quoted

  /** Words read so far, the word being read, and whether quotes are open; `bad` once an
      unquoted character would make the shell do something else than read words. */
  datatype Lexer = Lexer(words: seq<string>, current: Option<string>, mode: Mode, bad: bool)

  const START := Lexer([], None, Plain, false)

  predicate Blank(c: char) { c == ' ' || c == '\t' }

  /** Characters that end the command or start something else than a word. */
  predicate Special(c: char) {
    c in {'\n', '|', '&', ';', '<', '>', '(', ')', '$', '`', '"', '*', '?', '[', '#', '~', '=', '%', '{', '}', '!', ']'}
  }

  function Text(l: Lexer): string { if l.current.Some? then l.current.value else "" }

  function Step(l: Lexer, c: char): Lexer {
    match l.mode
    case Quoted => if c == '\'' then l.(mode := Plain) else l.(current := Some(Text(l) + [c]))
    case Escaped =>
      if c == '\n' then l.(mode := Plain)  // line continuation
      else l.(current := Some(Text(l) + [c]), mode := Plain)
    case Plain =>
      if c == '\'' then l.(current := Some(Text(l)), mode := Quoted)
      else if c == '\\' then l.(mode := Escaped)
      else if Blank(c) then
        if l.current.Some? then l.(words := l.words + [l.current.value], current := None) else l
      else l.(current := Some(Text(l) + [c]), bad := l.bad || Special(c))
  }

  function Read(l: Lexer, s: string): Lexer
    decreases |s|
  {
    if s == "" then l else Read(Step(l, s[0]), s[1..])
  }

  /** The words of a command line; none if quotes stay open or something else than plain
      words is in it. */
  function Words(s: string): Option<seq<string>> {
    var l := Read(START, s);
    if l.bad || l.mode != Plain then None
    else Some(l.words + if l.current.Some? then [l.current.value] else [])
  }

  // ---------------------------------------------------------------------------
  // Round trips.
  // ---------------------------------------------------------------------------

  lemma {:induction false} ReadConcat(l: Lexer, a: string, b: string)
    ensures Read(l, a + b) == Read(Read(l, a), b)
    decreases |a|
  {
    if a == "" {
      assert a + b == b;
    } else {
      assert (a + b)[1..] == a[1..] + b;
      ReadConcat(Step(l, a[0]), a[1..], b);
    }
  }

  lemma ReadFour(l: Lexer, s: string)
    requires |s| == 4
    ensures Read(l, s) == Step(Step(Step(Step(l, s[0]), s[1]), s[2]), s[3])
  {
    var b, c, d := s[1..], s[2..], s[3..];
    assert b[1..] == c && c[1..] == d && d[1..] == "" && b[0] == s[1] && c[0] == s[2] && d[0] == s[3];
    var l1 := Step(l, s[0]);
    var l2 := Step(l1, b[0]);
    assert Read(l, s) == Read(l1, b) == Read(l2, c);
    assert Read(l2, c) == Read(Step(l2, c[0]), d);
  }

  /** Inside quotes the escaped text reads as the text, and the quotes stay open. */
  lemma {:induction false} EscapedReads(l: Lexer, value: string)
    requires l.mode == Quoted && l.current.Some?
    ensures Read(l, Escape(value)) == l.(current := Some(l.current.value + value))
    decreases |value|
  {
    if value == "" {
      assert l.current.value + value == l.current.value;
    } else {
      var c := value[0];
      var head := if c == '\'' then "'\\''" else [c];
      var next := l.(current := Some(l.current.value + [c]));
      ReadConcat(l, head, Escape(value[1..]));
      if c == '\'' { ReadFour(l, head); } else { assert head[1..] == ""; }
      assert Read(l, head) == next;
      EscapedReads(next, value[1..]);
      assert l.current.value + [c] + value[1..] == l.current.value + value;
    }
  }

  /** Wherever the shell reads plain text, a quoted value adds exactly itself to the
      current word and leaves the shell reading plain text. */
  lemma QuotedReads(l: Lexer, value: string)
    requires l.mode == Plain
    ensures Read(l, ShellQuote(value)) == l.(current := Some(Text(l) + value))
  {
    var e := Escape(value);
    var open := l.(current := Some(Text(l)), mode := Quoted);
    assert ShellQuote(value) == ['\''] + (e + "'");
    assert (['\''] + (e + "'"))[1..] == e + "'";
    ReadConcat(open, e, "'");
    EscapedReads(open, value);
  }

  lemma QuoteRoundTrip(value: string)
    ensures Words(ShellQuote(value)) == Some([value])
  {
    QuotedReads(START, value);
    assert "" + value == value && [] + [value] == [value];
  }

  /** Different values never quote alike. */
  lemma QuoteIsInjective(a: string, b: string)
    requires ShellQuote(a) == ShellQuote(b)
    ensures a == b
  {
    QuoteRoundTrip(a);
    QuoteRoundTrip(b);
    assert [a][0] == [b][0];
  }

  /** Quoted arguments joined by spaces. */
  function CommandLine(args: seq<string>): string {
    if args == [] then ""
    else if |args| == 1 then ShellQuote(args[0])
    else CommandLine(args[..|args| - 1]) + (" " + ShellQuote(args[|args| - 1]))
  }

  lemma {:induction false} CommandLineReads(args: seq<string>)
    requires args != []
    ensures Read(START, CommandLine(args)) == Lexer(args[..|args| - 1], Some(args[|args| - 1]), Plain, false)
    decreases |args|
  {
    if |args| == 1 {
      QuotedReads(START, args[0]);
      assert "" + args[0] == args[0];
    } else {
      var n := |args| - 1;
      CommandLineReads(args[..n]);
      var l := Read(START, CommandLine(args[..n]));
      var tail := " " + ShellQuote(args[n]);
      ReadConcat(START, CommandLine(args[..n]), tail);
      assert tail[1..] == ShellQuote(args[n]);
      assert args[..n][..n - 1] + [args[..n][n - 1]] == args[..n];
      QuotedReads(Step(l, ' '), args[n]);
      assert "" + args[n] == args[n];
    }
  }

  /** A list of arguments comes back as that list. */
  lemma ListRoundTrip(args: seq<string>)
    ensures Words(CommandLine(args)) == Some(args)
  {
    if args != [] {
      CommandLineReads(args);
      assert args[..|args| - 1] + [args[|args| - 1]] == args;
    }
  }

  /** Quoting in letters: text without `'` is put between quotes as it is, and each `'`
      becomes a closing quote, an escaped quote and an opening one. */
  lemma {:induction false} QuotingIs(a: string, b: string)
    ensures '\'' !in a ==> Escape(a) == a && ShellQuote(a) == ['\''] + a + ['\'']
    ensures Escape(a + ['\''] + b) == Escape(a) + ['\'', '\\', '\'', '\''] + Escape(b)
    decreases |a|
  {
    var all := a + ['\''] + b;
    if a == [] {
      assert all[1..] == b && "'\\''" == ['\'', '\\', '\'', '\''];
    } else {
      assert all[1..] == a[1..] + ['\''] + b && all[0] == a[0];
      QuotingIs(a[1..], b);
      var head := if a[0] == '\'' then "'\\''" else [a[0]];
      assert Escape(all) == head + Escape(all[1..]);
      assert Escape(a) == head + Escape(a[1..]);
      assert Escape(all) == head + (Escape(a[1..]) + ['\'', '\\', '\'', '\''] + Escape(b));
    }
  }

  /** The shell on a few command lines. */
  lemma WordsOnExamples()
    ensures Words("a b") == Words("a\tb") == Some(["a", "b"]) && Words("''") == Some([""])
    ensures Words("'") == None && Words("$a") == None
  {
    ReadTwo("''");
    ReadTwo("$a");
    ReadThree("a b");
    ReadThree("a\tb");
    assert "'"[1..] == "";
    assert Read(START, "''") == Lexer([], Some(""), Plain, false);
    assert Read(START, "'") == Read(Step(START, '\''), "") && Read(START, "'").mode == Quoted;
    assert Read(START, "$a").bad;
    assert Step(START, 'a') == Lexer([], Some("a"), Plain, false) by { assert "" + ['a'] == "a"; }
    assert Step(Step(START, 'a'), ' ') == Lexer(["a"], None, Plain, false) by { assert [] + ["a"] == ["a"]; }
    assert Read(START, "a\tb") == Read(START, "a b") == Lexer(["a"], Some("b"), Plain, false) by {
      assert "" + ['b'] == "b";
    }
    assert ["a"] + ["b"] == ["a", "b"] && [] + [""] == [""];
  }

  lemma ReadTwo(s: string)
    requires |s| == 2
    ensures Read(START, s) == Step(Step(START, s[0]), s[1])
  {
    assert s[1..][1..] == "" && s[1..][0] == s[1];
    assert Read(Step(START, s[0]), s[1..]) == Read(Step(Step(START, s[0]), s[1]), "");
  }

  lemma ReadThree(s: string)
    requires |s| == 3
    ensures Read(START, s) == Step(Step(Step(START, s[0]), s[1]), s[2])
  {
    var b, c := s[1..], s[2..];
    assert b[1..] == c && c[1..] == "" && b[0] == s[1] && c[0] == s[2];
    var l1 := Step(START, s[0]);
    var l2 := Step(l1, b[0]);
    assert Read(START, s) == Read(l1, b) == Read(l2, c);
    assert Read(l2, c) == Read(Step(l2, c[0]), "");
  }
}
