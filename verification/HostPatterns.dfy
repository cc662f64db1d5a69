/** Host patterns of the OpenSSH client configuration (rust-core/src/providers/russh.rs). */
module HostPatterns {
  type Byte = x: int | 0 <= x < 256

  const STAR: Byte := 42
  const QUESTION: Byte := 63

  function ToLower(b: Byte): Byte { if 65 <= b <= 90 then b + 32 else b }

  /** `eq_ignore_ascii_case`. */
  predicate SameLetter(a: Byte, b: Byte) { ToLower(a) == ToLower(b) }

  predicate Inner(pattern: seq<Byte>, text: seq<Byte>)
    decreases |pattern| + |text|
  {
    if pattern == [] then text == []
    else if pattern[0] == STAR then
      Inner(pattern[1..], text) || (text != [] && Inner(pattern, text[1..]))
    else if pattern[0] == QUESTION then text != [] && Inner(pattern[1..], text[1..])
    else text != [] && SameLetter(pattern[0], text[0]) && Inner(pattern[1..], text[1..])
  }

  /** One pattern byte stands for one piece of the text. */
  predicate StandsFor(p: Byte, piece: seq<Byte>) {
    if p == STAR then true
    else if p == QUESTION then |piece| == 1
    else |piece| == 1 && SameLetter(p, piece[0])
  }

  function Concat(pieces: seq<seq<Byte>>): seq<Byte> {
    if pieces == [] then [] else pieces[0] + Concat(pieces[1..])
  }

  /** `pieces` cuts the text into one piece per pattern byte. */
  ghost predicate IsSplit(pattern: seq<Byte>, text: seq<Byte>, pieces: seq<seq<Byte>>) {
    && |pieces| == |pattern| && Concat(pieces) == text
    && forall i | 0 <= i < |pattern| :: StandsFor(pattern[i], pieces[i])
  }

  /** The recursion finds a split if there is one, and only then. */
  lemma MatchesIffSplit(pattern: seq<Byte>, text: seq<Byte>)
    ensures Inner(pattern, text) <==> exists pieces :: IsSplit(pattern, text, pieces)
  {
    if Inner(pattern, text) {
      var pieces := FindSplit(pattern, text);
    }
    if pieces :| IsSplit(pattern, text, pieces) {
      SplitMatches(pattern, text, pieces);
    }
  }

  lemma {:induction false} FindSplit(pattern: seq<Byte>, text: seq<Byte>) returns (pieces: seq<seq<Byte>>)
    requires Inner(pattern, text)
    ensures IsSplit(pattern, text, pieces)
    decreases |pattern| + |text|
  {
    if pattern == [] {
      pieces := [];
    } else if pattern[0] == STAR {
      if Inner(pattern[1..], text) {
        var rest := FindSplit(pattern[1..], text);
        pieces := [[]] + rest;
        assert pieces[1..] == rest;
      } else {
        var rest := FindSplit(pattern, text[1..]);
        pieces := [[text[0]] + rest[0]] + rest[1..];
        assert pieces[1..] == rest[1..];
        assert [text[0]] + rest[0] + Concat(rest[1..]) == [text[0]] + (rest[0] + Concat(rest[1..]));
      }
    } else {
      var rest := FindSplit(pattern[1..], text[1..]);
      pieces := [[text[0]]] + rest;
      assert pieces[1..] == rest;
    }
  }

  lemma {:induction false} SplitMatches(pattern: seq<Byte>, text: seq<Byte>, pieces: seq<seq<Byte>>)
    requires IsSplit(pattern, text, pieces)
    ensures Inner(pattern, text)
    decreases |pattern| + |text|
  {
    if pattern != [] {
      var p, rest := pieces[0], pieces[1..];
      assert text == p + Concat(rest);
      assert StandsFor(pattern[0], p);
      forall i | 0 <= i < |pattern| - 1 ensures StandsFor(pattern[1..][i], rest[i]) {
        assert StandsFor(pattern[i + 1], pieces[i + 1]);
      }
      if pattern[0] == STAR && p != [] {
        var shorter := [p[1..]] + rest;
        assert shorter[1..] == rest;
        assert text[1..] == p[1..] + Concat(rest);
        SplitMatches(pattern, text[1..], shorter);
      } else {
        assert text[|p|..] == Concat(rest);
        SplitMatches(pattern[1..], Concat(rest), rest);
        if p == [] { assert text == Concat(rest); }
      }
    }
  }

  /** Matching ignores ASCII case on both sides. */
  lemma {:induction false} CaseInsensitive(pattern: seq<Byte>, text: seq<Byte>, other: seq<Byte>)
    requires |other| == |text| && forall i | 0 <= i < |text| :: SameLetter(text[i], other[i])
    ensures Inner(pattern, text) == Inner(pattern, other)
    decreases |pattern| + |text|
  {
    if pattern != [] && pattern[0] == STAR {
      CaseInsensitive(pattern[1..], text, other);
    }
    if pattern != [] && text != [] {
      CaseInsensitive(if pattern[0] == STAR then pattern else pattern[1..], text[1..], other[1..]);
    }
  }

  // ---------------------------------------------------------------------------
  // Clauses: the words of a Host line.
  // ---------------------------------------------------------------------------

  /** A Unicode code point. */
  type Char = c: int | 0 <= c < 0x110000
  type Word = seq<Char>

  const BANG: Char := 33

  predicate IsWhite(c: Char) {
    9 <= c <= 13 || c in {0x20, 0x85, 0xA0, 0x1680, 0x2028, 0x2029, 0x202F, 0x205F, 0x3000} || 0x2000 <= c <= 0x200A
  }

  function Utf8(c: Char): seq<Byte> {
    if c < 0x80 then [c]
    else if c < 0x800 then [0xC0 + c / 0x40, 0x80 + c % 0x40]
    else if c < 0x10000 then [0xE0 + c / 0x1000, 0x80 + c / 0x40 % 0x40, 0x80 + c % 0x40]
    else [0xF0 + c / 0x40000, 0x80 + c / 0x1000 % 0x40, 0x80 + c / 0x40 % 0x40, 0x80 + c % 0x40]
  }

  function Encode(w: Word): seq<Byte> {
    if w == [] then [] else Utf8(w[0]) + Encode(w[1..])
  }

  function AsWords(w: Word): seq<Word> { if w == [] then [] else [w] }

  /** The words of `word` followed by `line`, where `word` is an unfinished word. */
  function Split(word: Word, line: Word): seq<Word>
    decreases |line|
  {
    if line == [] then AsWords(word)
    else if IsWhite(line[0]) then AsWords(word) + Split([], line[1..])
    else Split(word + [line[0]], line[1..])
  }

  function Words(line: Word): seq<Word> { Split([], line) }

  /** A gap separates words, and gaps are all that does. */
  lemma WordsAre(a: Word, gap: Char, b: Word)
    ensures IsWhite(gap) ==> Words(a + [gap] + b) == Words(a) + Words(b)
    ensures (forall c | c in a :: !IsWhite(c)) ==> Words(a) == AsWords(a)
  {
    if IsWhite(gap) { SplitAtGap([], a, gap, b); }
    if forall c | c in a :: !IsWhite(c) {
      OneWord([], a);
      assert [] + a == a;
    }
  }

  lemma {:induction false} SplitAtGap(word: Word, a: Word, gap: Char, b: Word)
    requires IsWhite(gap)
    ensures Split(word, a + [gap] + b) == Split(word, a) + Words(b)
    decreases |a|
  {
    var line := a + [gap] + b;
    if a == [] {
      assert line[1..] == b;
    } else {
      assert line[1..] == a[1..] + [gap] + b;
      if IsWhite(a[0]) {
        SplitAtGap([], a[1..], gap, b);
      } else {
        SplitAtGap(word + [a[0]], a[1..], gap, b);
      }
    }
  }

  lemma {:induction false} OneWord(word: Word, line: Word)
    requires forall c | c in line :: !IsWhite(c)
    ensures Split(word, line) == AsWords(word + line)
    decreases |line|
  {
    if line == [] {
      assert word + line == word;
    } else {
      OneWord(word + [line[0]], line[1..]);
      assert word + [line[0]] + line[1..] == word + line;
    }
  }

  method SplitWhitespace(line: Word) returns (words: seq<Word>)
    ensures words == Words(line)
  {
    var word: Word := [];
    words := [];
    for i := 0 to |line|
      invariant words + Split(word, line[i..]) == Words(line)
    {
      assert line[i..][1..] == line[i + 1..];
      if !IsWhite(line[i]) {
        word := word + [line[i]];
      } else {
        if word != [] { words := words + [word]; }
        word := [];
      }
    }
    assert line[|line|..] == [];
    if word != [] { words := words + [word]; }
  }

  predicate Negated(word: Word) { word != [] && word[0] == BANG }

  /** Some positive pattern matches and no negated one does. */
  ghost predicate ClauseMatches(words: seq<Word>, host: seq<Byte>) {
    && (exists w :: w in words && !Negated(w) && Inner(Encode(w), host))
    && (forall w | w in words && Negated(w) :: !Inner(Encode(w[1..]), host))
  }

  method HostClauseMatches(patterns: Word, host: seq<Byte>) returns (r: bool)
    ensures r <==> ClauseMatches(Words(patterns), host)
  {
    var words := SplitWhitespace(patterns);
    var positive := false;
    for i := 0 to |words|
      invariant positive <==> exists w :: w in words[..i] && !Negated(w) && Inner(Encode(w), host)
      invariant forall w | w in words[..i] && Negated(w) :: !Inner(Encode(w[1..]), host)
    {
      assert words[..i + 1] == words[..i] + [words[i]];
      var pattern := words[i];
      assert pattern in words;
      if Negated(pattern) {
        if Inner(Encode(pattern[1..]), host) {
          return false;
        }
      } else if Inner(Encode(pattern), host) {
        positive := true;
      }
    }
    assert words[..|words|] == words;
    r := positive;
  }

  /** The order and the repetition of the patterns of a clause do not matter. */
  lemma ClauseIsPermutable(a: seq<Word>, b: seq<Word>, host: seq<Byte>)
    requires multiset(a) == multiset(b) || (forall w :: w in a <==> w in b)
    ensures ClauseMatches(a, host) == ClauseMatches(b, host)
  {
    forall w ensures w in a <==> w in b {
      if multiset(a) == multiset(b) {
        assert w in a <==> w in multiset(a);
        assert w in b <==> w in multiset(b);
      }
    }
    if ClauseMatches(a, host) {
      var w :| w in a && !Negated(w) && Inner(Encode(w), host);
      assert w in b;
    }
    if ClauseMatches(b, host) {
      var w :| w in b && !Negated(w) && Inner(Encode(w), host);
      assert w in a;
    }
  }

  /** A negated pattern added to a clause excludes exactly the hosts it matches. */
  lemma NegationExcludes(words: seq<Word>, pattern: Word, host: seq<Byte>)
    ensures ClauseMatches(words + [[BANG] + pattern], host)
            <==> ClauseMatches(words, host) && !Inner(Encode(pattern), host)
  {
    var neg := [BANG] + pattern;
    var all := words + [neg];
    assert neg[1..] == pattern && Negated(neg) && neg in all;
    forall w ensures w in all <==> w in words || w == neg {}
    if ClauseMatches(all, host) {
      var w :| w in all && !Negated(w) && Inner(Encode(w), host);
      assert w in words;
    }
    if ClauseMatches(words, host) && !Inner(Encode(pattern), host) {
      var w :| w in words && !Negated(w) && Inner(Encode(w), host);
      assert w in all;
    }
  }

  // ---------------------------------------------------------------------------
  // The alphabet in numbers.
  // ---------------------------------------------------------------------------

  /** Bytes agree up to the case of the 26 ASCII letters, 0x41 to 0x5A and 0x61 to 0x7A. */
  lemma SameLetterIs(a: Byte, b: Byte)
    ensures SameLetter(a, b) <==> a == b || (0x41 <= a <= 0x5A && b == a + 0x20) || (0x41 <= b <= 0x5A && a == b + 0x20)
  {
  }

  /** The 25 characters with the Unicode property White_Space. */
  lemma WhiteIs(c: Char)
    ensures IsWhite(c) <==>
              c in {0x09, 0x0A, 0x0B, 0x0C, 0x0D, 0x20, 0x85, 0xA0, 0x1680, 0x2000, 0x2001, 0x2002, 0x2003, 0x2004,
                    0x2005, 0x2006, 0x2007, 0x2008, 0x2009, 0x200A, 0x2028, 0x2029, 0x202F, 0x205F, 0x3000}
  {
  }

  function Bits(b: Byte, mark: int): int {
    var value: int := b;
    value - mark
  }

  /** Reads one code point off a UTF-8 text (section 3 of RFC 3629). */
  function Decode(b: seq<Byte>): int
    requires b != []
  {
    if b[0] < 0x80 then b[0]
    else if b[0] < 0xE0 && |b| > 1 then Bits(b[0], 0xC0) * 64 + Bits(b[1], 0x80)
    else if b[0] < 0xF0 && |b| > 2 then (Bits(b[0], 0xE0) * 64 + Bits(b[1], 0x80)) * 64 + Bits(b[2], 0x80)
    else if |b| > 3 then
      ((Bits(b[0], 0xF0) * 64 + Bits(b[1], 0x80)) * 64 + Bits(b[2], 0x80)) * 64 + Bits(b[3], 0x80)
    else -1
  }

  /** The encoding decodes to its code point, has the shortest length, and only its first
      byte is not of the form 10xxxxxx. */
  lemma Utf8Is(c: Char)
    ensures var b := Utf8(c);
            && |b| == (if c <= 0x7F then 1 else if c <= 0x7FF then 2 else if c <= 0xFFFF then 3 else 4)
            && Decode(b) == c
            && (b[0] < 0x80 || 0xC0 <= b[0] < 0xF8)
            && forall i | 0 < i < |b| :: 0x80 <= b[i] < 0xC0
  {
    assert c == c / 64 * 64 + c % 64;
    assert c / 64 == c / 4096 * 64 + c / 64 % 64;
    assert c / 4096 == c / 262144 * 64 + c / 4096 % 64;
  }

  /** ASCII words are their own encoding. */
  lemma {:induction false} AsciiIsItself(w: Word)
    requires forall i | 0 <= i < |w| :: w[i] < 0x80
    ensures |Encode(w)| == |w| && forall i | 0 <= i < |w| :: Encode(w)[i] == w[i]
  {
    if w != [] { AsciiIsItself(w[1..]); }
  }

  /** A pattern without `*` and `?` matches itself alone, up to letter case. */
  lemma {:induction false} PlainPatternMatchesItself(pattern: seq<Byte>, text: seq<Byte>)
    requires forall i | 0 <= i < |pattern| :: pattern[i] != 0x2A && pattern[i] != 0x3F
    ensures Inner(pattern, text) <==>
              |text| == |pattern| && forall i | 0 <= i < |text| :: SameLetter(pattern[i], text[i])
    decreases |pattern|
  {
    if pattern != [] && text != [] {
      PlainPatternMatchesItself(pattern[1..], text[1..]);
      if Inner(pattern, text) {
        forall i | 0 < i < |text| ensures SameLetter(pattern[i], text[i]) {
          assert SameLetter(pattern[1..][i - 1], text[1..][i - 1]);
        }
      }
    }
  }

  /** `*` matches any text, `?` any single byte, `!` in front negates. */
  lemma WildcardsAre(text: seq<Byte>, w: Word)
    ensures Inner([0x2A], text) && (Inner([0x3F], text) <==> |text| == 1)
    ensures Negated(w) <==> w != [] && w[0] == 0x21
  {
    var star: seq<Byte> := [0x2A];
    assert IsSplit(star, text, [text]) by {
      assert [text][1..] == [];
      assert Concat([text]) == text + Concat([]) == text;
    }
    MatchesIffSplit(star, text);
    assert [QUESTION][1..] == [];
  }
}
