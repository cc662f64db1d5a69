/** The terminal view: the streaming control-sequence sanitiser with its carried
    suffix, the CR/BS filter and the bounded scrollback (app/cpp/TerminalViewModel.cpp). */
module Terminal {
  /** A UTF-16 code unit, as `QChar` holds it. */
  type QChar = c: int | 0 <= c <= 0xFFFF
  type Text = seq<QChar>

  const BEL: QChar := 0x07
  const BS: QChar := 0x08
  const TAB: QChar := 0x09
  const LF: QChar := 0x0A
  const CR: QChar := 0x0D
  const ESC: QChar := 0x1B
  const BACKSLASH: QChar := 0x5C
  const C1_CSI: QChar := 0x9B
  const MAX_PENDING := 4096
  const MAX_CHARS := 200000

  predicate IsCsiFinal(c: QChar) { 0x40 <= c <= 0x7E }
  predicate IsEscIntermediate(c: QChar) { 0x20 <= c <= 0x2F }
  predicate IsEscFinal(c: QChar) { 0x30 <= c <= 0x7E }
  /** `P`, `X`, `^`, `_`: DCS, SOS, PM and APC. */
  predicate IsStringIntro(c: QChar) { c == 0x50 || c == 0x58 || c == 0x5E || c == 0x5F }
  predicate IsIntroducer(c: QChar) { c == ESC || c == C1_CSI }

  // ---------------------------------------------------------------------------
  // Reference: a one-character-at-a-time automaton that never looks back.
  // ---------------------------------------------------------------------------

  datatype Mode = Ground | Escape | Csi | Osc | OscEsc | Str | StrEsc | Inter

  function Next(m: Mode, c: QChar): Mode {
    match m
    case Ground => if c == ESC then Escape else if c == C1_CSI then Csi else Ground
    case Escape =>
      if c == 0x5B then Csi
      else if c == 0x5D then Osc
      else if IsStringIntro(c) then Str
      else if IsEscIntermediate(c) then Inter
      else Ground
    case Csi => if IsCsiFinal(c) then Ground else Csi
    case Osc => if c == BEL then Ground else if c == ESC then OscEsc else Osc
    case OscEsc => if c == BACKSLASH || c == BEL then Ground else if c == ESC then OscEsc else Osc
    case Str => if c == ESC then StrEsc else Str
    case StrEsc => if c == BACKSLASH then Ground else if c == ESC then StrEsc else Str
    case Inter => if IsEscFinal(c) then Ground else Inter
  }

  /** Mode, the unfinished control sequence read so far, and the visible output. */
  datatype Scan = Scan(mode: Mode, held: Text, out: Text)

  const START := Scan(Ground, [], [])

  function Step(s: Scan, c: QChar): Scan {
    var m := Next(s.mode, c);
    Scan(m,
         if m == Ground then [] else s.held + [c],
         if s.mode == Ground && m == Ground then s.out + [c] else s.out)
  }

  function Feed(s: Scan, t: Text): Scan
    decreases |t|
  {
    if t == [] then s else Feed(Step(s, t[0]), t[1..])
  }

  lemma {:induction false} FeedConcat(s: Scan, a: Text, b: Text)
    ensures Feed(s, a + b) == Feed(Feed(s, a), b)
    decreases |a|
  {
    if a == [] {
      assert a + b == b;
    } else {
      assert (a + b)[1..] == a[1..] + b;
      FeedConcat(Step(s, a[0]), a[1..], b);
    }
  }

  lemma FeedOne(s: Scan, c: QChar)
    ensures Feed(s, [c]) == Step(s, c)
  {
    assert [c][1..] == [];
    assert Feed(s, [c]) == Feed(Step(s, c), []);
  }

  lemma FeedSnoc(s: Scan, t: Text, i: nat)
    requires i < |t|
    ensures Feed(s, t[..i + 1]) == Step(Feed(s, t[..i]), t[i])
  {
    assert t[..i + 1] == t[..i] + [t[i]];
    FeedConcat(s, t[..i], [t[i]]);
    FeedOne(Feed(s, t[..i]), t[i]);
  }

  lemma FeedNothing()
    ensures Feed(START, []) == START
  {
  }

  /** Earlier output never influences what follows. */
  lemma {:induction false} OutIsPrefix(s: Scan, out: Text, t: Text)
    ensures Feed(s.(out := out + s.out), t) == After(out, Feed(s, t))
    decreases |t|
  {
    if t != [] {
      var c := t[0];
      assert (out + s.out) + [c] == out + (s.out + [c]);
      assert Step(s.(out := out + s.out), c) == After(out, Step(s, c));
      OutIsPrefix(Step(s, c), out, t[1..]);
    }
  }

  /** `s` with `out` already shown before it. */
  function After(out: Text, s: Scan): Scan { s.(out := out + s.out) }

  lemma Assoc(a: Text, b: Text, c: Text)
    ensures (a + b) + c == a + (b + c)
  {
  }

  // ---------------------------------------------------------------------------
  // One call of the sanitiser, and a run of calls.
  // ---------------------------------------------------------------------------

  function Capped(held: Text): Text { if |held| > MAX_PENDING then [] else held }

  /** Visible output and carried suffix of one call. */
  function Sanitised(pending: Text, chunk: Text): (Text, Text) {
    var s := Feed(START, pending + chunk);
    (s.out, Capped(s.held))
  }

  function SanitisedAll(pending: Text, chunks: seq<Text>): (Text, Text)
    decreases |chunks|
  {
    if chunks == [] then ([], pending)
    else
      var (o, p) := Sanitised(pending, chunks[0]);
      var (o', p') := SanitisedAll(p, chunks[1..]);
      (o + o', p')
  }

  function Flatten(chunks: seq<Text>): Text {
    if chunks == [] then [] else chunks[0] + Flatten(chunks[1..])
  }

  /** What a carried suffix always satisfies: read from the start it is one
      unfinished control sequence and shows nothing. */
  ghost predicate Resumable(p: Text) {
    |p| <= MAX_PENDING && Feed(START, p).held == p && Feed(START, p).out == []
    && (p != [] ==> IsIntroducer(p[0]))
  }

  lemma {:induction false} HeldResumes(s: Scan, t: Text)
    requires s.held == [] <==> s.mode == Ground
    requires Feed(START, s.held) == Scan(s.mode, s.held, [])
    requires s.held != [] ==> IsIntroducer(s.held[0])
    ensures var r := Feed(s, t);
            && Feed(START, r.held) == Scan(r.mode, r.held, [])
            && (r.held == [] <==> r.mode == Ground)
            && (r.held != [] ==> IsIntroducer(r.held[0]))
    decreases |t|
  {
    if t != [] {
      var s' := Step(s, t[0]);
      if s'.mode != Ground {
        assert s'.held == s.held + [t[0]];
        FeedConcat(START, s.held, [t[0]]);
        assert [t[0]][1..] == [];
      }
      HeldResumes(s', t[1..]);
    }
  }

  /** The carried suffix invariant, over every call. */
  lemma PendingStaysResumable(pending: Text, chunk: Text)
    ensures Resumable(Sanitised(pending, chunk).1)
  {
    HeldResumes(START, pending + chunk);
  }

  /** Across every run of calls the carried suffix is empty or an unfinished control
      sequence of at most 4096 characters. */
  lemma {:induction false} RunStaysResumable(pending: Text, chunks: seq<Text>)
    requires Resumable(pending)
    ensures Resumable(SanitisedAll(pending, chunks).1)
    decreases |chunks|
  {
    if chunks != [] {
      PendingStaysResumable(pending, chunks[0]);
      RunStaysResumable(Sanitised(pending, chunks[0]).1, chunks[1..]);
    }
  }

  /** Rescanning the carried suffix together with the new chunk is the automaton
      resumed where it stopped. */
  lemma RescanIsResume(pending: Text, chunk: Text, s: Scan)
    requires Feed(START, pending) == s.(out := [])
    ensures Feed(s, chunk) == After(s.out, Feed(START, pending + chunk))
  {
    FeedConcat(START, pending, chunk);
    OutIsPrefix(s.(out := []), s.out, chunk);
    assert s.out + [] == s.out;
  }

  /** No chunk boundary other than the last one falls more than 4096 characters
      into a control sequence. */
  ghost predicate CarriesFit(s: Scan, chunks: seq<Text>)
    decreases |chunks|
  {
    |chunks| > 1 ==>
      var s' := Feed(s, chunks[0]);
      |s'.held| <= MAX_PENDING && CarriesFit(s', chunks[1..])
  }

  /** `s` stands where reading `pending` leaves the automaton. */
  ghost predicate StandsAt(s: Scan, pending: Text) {
    && s.held == pending && Feed(START, pending) == s.(out := [])
    && (s.held == [] <==> s.mode == Ground) && (s.held != [] ==> IsIntroducer(s.held[0]))
  }

  lemma ResumeOnce(pending: Text, s: Scan, c: Text)
    requires StandsAt(s, pending)
    ensures var r := Feed(START, pending + c); var s' := Feed(s, c);
            s' == After(s.out, r) && StandsAt(s', r.held)
  {
    RescanIsResume(pending, c, s);
    HeldResumes(START, pending + c);
  }

  lemma {:induction false} RunIsResume(pending: Text, s: Scan, chunks: seq<Text>)
    requires chunks != [] && CarriesFit(s, chunks) && StandsAt(s, pending)
    ensures Feed(s, Flatten(chunks)).out == s.out + SanitisedAll(pending, chunks).0
    ensures SanitisedAll(pending, chunks).1 == Capped(Feed(s, Flatten(chunks)).held)
    decreases |chunks|
  {
    var c, rest := chunks[0], chunks[1..];
    var r1 := Feed(START, pending + c);
    ResumeOnce(pending, s, c);
    assert Feed(s, Flatten(chunks)) == Feed(Feed(s, c), Flatten(rest)) by {
      FeedConcat(s, c, Flatten(rest));
    }
    if rest == [] {
      assert r1.out + [] == r1.out;
    } else {
      RunIsResume(r1.held, Feed(s, c), rest);
      var o := SanitisedAll(r1.held, rest).0;
      assert SanitisedAll(pending, chunks).0 == r1.out + o;
      Assoc(s.out, r1.out, o);
    }
  }

  /** Chunk independence: however a stream is cut, the concatenated outputs and the
      final carried suffix are those of one call on the whole stream. */
  lemma ChunkIndependence(chunks: seq<Text>)
    requires chunks != [] && CarriesFit(START, chunks)
    ensures SanitisedAll([], chunks) == Sanitised([], Flatten(chunks))
  {
    RunIsResume([], START, chunks);
    assert [] + Flatten(chunks) == Flatten(chunks);
    assert START.out + SanitisedAll([], chunks).0 == SanitisedAll([], chunks).0;
  }

  lemma {:induction false} PlainTextPasses(s: Scan, t: Text)
    requires s.mode == Ground && s.held == []
    requires forall i | 0 <= i < |t| :: !IsIntroducer(t[i])
    ensures Feed(s, t) == s.(out := s.out + t)
    decreases |t|
  {
    if t != [] {
      assert Step(s, t[0]) == s.(out := s.out + [t[0]]);
      hide Step;
      PlainTextPasses(s.(out := s.out + [t[0]]), t[1..]);
      assert (s.out + [t[0]]) + t[1..] == s.out + t;
    } else {
      assert s.out + t == s.out;
    }
  }

  lemma {:induction false} OutputNoLonger(s: Scan, t: Text)
    ensures |Feed(s, t).out| <= |s.out| + |t|
    ensures s.mode != Ground && t != [] ==> |Feed(s, t).out| < |s.out| + |t|
    decreases |t|
  {
    if t != [] {
      OutputNoLonger(Step(s, t[0]), t[1..]);
    }
  }

  lemma TwoChunks(a: Text, b: Text)
    ensures Flatten([a, b]) == a + b
    ensures SanitisedAll([], [a, b]) ==
            var (o, p) := Sanitised([], a); var (o', p') := Sanitised(p, b); (o + o', p')
  {
    assert [a, b][1..] == [b] && [b][1..] == [];
    assert Flatten([b]) == b + Flatten([b][1..]) == b;
    var p := Sanitised([], a).1;
    assert Sanitised(p, b).0 + [] == Sanitised(p, b).0;
    assert SanitisedAll(p, [b]) == Sanitised(p, b);
  }

  /** A cut before plain text `b` gives the same result as no cut if and only if the suffix
      carried over it fits or nothing follows. Other continuations may hide the loss. */
  lemma CutBeforeText(a: Text, b: Text)
    requires forall i | 0 <= i < |b| :: !IsIntroducer(b[i])
    ensures SanitisedAll([], [a, b]) == Sanitised([], a + b)
            <==> |Feed(START, a).held| <= MAX_PENDING || b == []
  {
    var s := Feed(START, a);
    TwoChunks(a, b);
    if |s.held| <= MAX_PENDING {
      assert CarriesFit(s, [a, b][1..]);
      ChunkIndependence([a, b]);
    } else if b == [] {
      assert a + b == a && [] + a == a && [] + b == [];
      assert s.out + [] == s.out;
    } else {
      OverflowShowsText(a, b);
    }
  }

  /** The cut after `a` is harmless whatever follows if and only if the suffix carried over
      it fits. */
  lemma CutIsHarmless(a: Text)
    ensures (forall b :: SanitisedAll([], [a, b]) == Sanitised([], a + b)) <==> |Feed(START, a).held| <= MAX_PENDING
  {
    var s := Feed(START, a);
    if |s.held| <= MAX_PENDING {
      forall b ensures SanitisedAll([], [a, b]) == Sanitised([], a + b) {
        TwoChunks(a, b);
        assert CarriesFit(s, [a, b][1..]);
        ChunkIndependence([a, b]);
      }
    } else {
      CutBeforeText(a, [0x61]);
    }
  }

  /** An OSC of 5000 characters is too long to carry: cut there, its end shows as text. */
  lemma LongOscShows()
    ensures var a: Text, b: Text := [ESC, 0x5D] + seq(5000, _ => 0x61), [BEL];
            |Feed(START, a).held| > MAX_PENDING && SanitisedAll([], [a, b]) != Sanitised([], a + b)
  {
    var body: Text := seq(5000, _ => 0x61);
    var a: Text := [ESC, 0x5D] + body;
    hide Feed;
    FeedConcat(START, [ESC, 0x5D], body);
    OscBegins();
    NoOscEnd(body);
    hide Ends;
    BodyIsHeld(Osc, [ESC, 0x5D], [], body);
    CutBeforeText(a, [BEL]);
  }

  lemma OscBegins()
    ensures Feed(START, [ESC, 0x5D]) == Scan(Osc, [ESC, 0x5D], [])
  {
    assert [ESC, 0x5D] == [ESC] + [0x5D] && [] + [ESC] == [ESC];
    FeedConcat(START, [ESC], [0x5D]);
    FeedOne(START, ESC);
    FeedOne(Step(START, ESC), 0x5D);
  }

  lemma NoOscEnd(body: Text)
    requires forall i | 0 <= i < |body| :: body[i] == 0x61
    ensures forall k | 0 <= k <= |body| :: !Ends(Osc, body[..k])
  {
  }

  lemma OverflowShowsText(a: Text, b: Text)
    requires forall i | 0 <= i < |b| :: !IsIntroducer(b[i])
    requires |Feed(START, a).held| > MAX_PENDING && b != []
    ensures var (o, p) := Sanitised([], a); var (o', p') := Sanitised(p, b);
            o + o' != Sanitised([], a + b).0
  {
    assert [] + a == a && [] + b == b && [] + (a + b) == a + b;
    FeedConcat(START, a, b);
    HeldResumes(START, a);
    OutputNoLonger(Feed(START, a), b);
    PlainTextPasses(START, b);
    assert [] + b == b;
  }

  // ---------------------------------------------------------------------------
  // What is removed and what is kept.
  // ---------------------------------------------------------------------------

  ghost predicate Subsequence(a: Text, b: Text) {
    if a == [] then true
    else if b == [] then false
    else if a[0] == b[0] && Subsequence(a[1..], b[1..]) then true
    else Subsequence(a, b[1..])
  }

  lemma {:induction false} OutputIsVisible(s: Scan, t: Text)
    requires s.out == []
    ensures Subsequence(Feed(s, t).out, t)
    ensures forall i | 0 <= i < |Feed(s, t).out| :: !IsIntroducer(Feed(s, t).out[i])
    decreases |t|
  {
    if t != [] {
      var s' := Step(s, t[0]);
      OutIsPrefix(s'.(out := []), s'.out, t[1..]);
      assert s'.out + [] == s'.out;
      OutputIsVisible(s'.(out := []), t[1..]);
      var rest := Feed(s'.(out := []), t[1..]).out;
      if s'.out != [] {
        assert ([t[0]] + rest)[1..] == rest;
      } else {
        assert Feed(s, t).out == rest;
      }
    }
  }

  /** On every input the output is a subsequence of the input without ESC or
      U+009B, and sanitising it again changes nothing. */
  lemma SanitiserOutput(pending: Text, chunk: Text)
    ensures var out := Sanitised(pending, chunk).0;
            && Subsequence(out, pending + chunk)
            && ESC !in out && C1_CSI !in out
            && Sanitised([], out) == (out, [])
  {
    var out := Sanitised(pending, chunk).0;
    hide Subsequence, Feed;
    OutputIsVisible(START, pending + chunk);
    CleanPasses(out);
  }

  lemma CleanPasses(out: Text)
    requires forall i | 0 <= i < |out| :: !IsIntroducer(out[i])
    ensures Sanitised([], out) == (out, [])
  {
    hide Feed;
    PlainTextPasses(START, out);
    assert [] + out == out;
  }

  /** How a control sequence ends, given what introduces it; the argument is all
      that follows the introducer (ECMA-48 sections 5.4 and 5.6). */
  ghost predicate EndsCsi(x: Text) { |x| > 0 && IsCsiFinal(x[|x| - 1]) }
  ghost predicate EndsSt(x: Text) { |x| > 1 && x[|x| - 2] == ESC && x[|x| - 1] == BACKSLASH }
  ghost predicate EndsOsc(x: Text) { EndsSt(x) || (|x| > 0 && x[|x| - 1] == BEL) }
  ghost predicate EndsInter(x: Text) { |x| > 0 && IsEscFinal(x[|x| - 1]) }

  ghost predicate Ends(m: Mode, x: Text) {
    match m
    case Csi => EndsCsi(x)
    case Osc => EndsOsc(x)
    case Str => EndsSt(x)
    case Inter => EndsInter(x)
    case _ => false
  }

  /** `x` is a body with its terminator: it ends, and no shorter prefix does. */
  ghost predicate CompleteBody(m: Mode, x: Text) {
    Ends(m, x) && forall k | 0 <= k < |x| :: !Ends(m, x[..k])
  }

  /** A complete control sequence, written without the automaton. */
  ghost predicate IsControl(e: Text) {
    || (|e| > 0 && e[0] == C1_CSI && CompleteBody(Csi, e[1..]))
    || (|e| > 1 && e[0] == ESC && e[1] == 0x5B && CompleteBody(Csi, e[2..]))
    || (|e| > 1 && e[0] == ESC && e[1] == 0x5D && CompleteBody(Osc, e[2..]))
    || (|e| > 1 && e[0] == ESC && IsStringIntro(e[1]) && CompleteBody(Str, e[2..]))
    || (|e| > 1 && e[0] == ESC && IsEscIntermediate(e[1]) && CompleteBody(Inter, e[2..]))
    || (|e| == 2 && e[0] == ESC && e[1] != 0x5B && e[1] != 0x5D && !IsStringIntro(e[1])
        && !IsEscIntermediate(e[1]))
  }

  /** The modes reachable while a body introduced in mode `m` is being read. */
  ghost predicate Reading(m: Mode, x: Text, m': Mode) {
    match m
    case Csi => m' == Csi
    case Inter => m' == Inter
    case Osc => m' == if x != [] && x[|x| - 1] == ESC then OscEsc else Osc
    case Str => m' == if x != [] && x[|x| - 1] == ESC then StrEsc else Str
    case _ => false
  }

  lemma {:induction false} BodyIsHeld(m: Mode, intro: Text, out: Text, x: Text)
    requires m in {Csi, Osc, Str, Inter}
    requires forall k | 0 <= k <= |x| :: !Ends(m, x[..k])
    ensures var r := Feed(Scan(m, intro, out), x);
            Reading(m, x, r.mode) && r.held == intro + x && r.out == out
  {
    if x == [] {
      assert intro + x == intro;
    } else {
      var n := |x| - 1;
      forall k | 0 <= k <= n ensures !Ends(m, x[..n][..k]) { assert x[..n][..k] == x[..k]; }
      BodyIsHeld(m, intro, out, x[..n]);
      FeedSnoc(Scan(m, intro, out), x, n);
      assert x[..n + 1] == x;
      assert !Ends(m, x);
      assert (intro + x[..n]) + [x[n]] == intro + x;
    }
  }

  lemma BodyIsSwallowed(m: Mode, intro: Text, out: Text, x: Text)
    requires m in {Csi, Osc, Str, Inter}
    requires CompleteBody(m, x)
    ensures Feed(Scan(m, intro, out), x) == Scan(Ground, [], out)
  {
    var n := |x| - 1;
    forall k | 0 <= k <= n ensures !Ends(m, x[..n][..k]) { assert x[..n][..k] == x[..k]; }
    BodyIsHeld(m, intro, out, x[..n]);
    FeedSnoc(Scan(m, intro, out), x, n);
    assert x[..n + 1] == x;
  }

  lemma ControlIsSwallowed(e: Text, out: Text)
    requires IsControl(e)
    ensures Feed(Scan(Ground, [], out), e) == Scan(Ground, [], out)
  {
    var s := Scan(Ground, [], out);
    if e[0] == C1_CSI {
      assert e == [e[0]] + e[1..];
      FeedConcat(s, [e[0]], e[1..]);
      FeedOne(s, e[0]);
      BodyIsSwallowed(Csi, [] + [e[0]], out, e[1..]);
    } else {
      var m := Next(Escape, e[1]);
      assert e == [e[0]] + ([e[1]] + e[2..]);
      FeedConcat(s, [e[0]], [e[1]] + e[2..]);
      FeedOne(s, e[0]);
      var s1 := Step(s, e[0]);
      FeedConcat(s1, [e[1]], e[2..]);
      FeedOne(s1, e[1]);
      if m != Ground {
        BodyIsSwallowed(m, s1.held + [e[1]], out, e[2..]);
      }
    }
  }

  datatype Piece = Plain(text: Text) | Control(seqn: Text)

  ghost predicate WellFormed(p: Piece) {
    match p
    case Plain(t) => forall i | 0 <= i < |t| :: !IsIntroducer(t[i])
    case Control(e) => IsControl(e)
  }

  function Render(ps: seq<Piece>): Text {
    if ps == [] then []
    else (match ps[0] case Plain(t) => t case Control(e) => e) + Render(ps[1..])
  }

  function Visible(ps: seq<Piece>): Text {
    if ps == [] then []
    else (match ps[0] case Plain(t) => t case Control(_) => []) + Visible(ps[1..])
  }

  lemma {:induction false} InterleavingFrom(ps: seq<Piece>, out: Text)
    requires forall i | 0 <= i < |ps| :: WellFormed(ps[i])
    ensures Feed(Scan(Ground, [], out), Render(ps)) == Scan(Ground, [], out + Visible(ps))
    decreases |ps|
  {
    if ps == [] {
      assert out + Visible(ps) == out;
    } else {
      PieceStep(ps[0], Render(ps[1..]), out);
      var now := match ps[0] case Plain(t) => t case Control(_) => [];
      InterleavingFrom(ps[1..], out + now);
      Assoc(out, now, Visible(ps[1..]));
    }
  }

  lemma PieceStep(p: Piece, rest: Text, out: Text)
    requires WellFormed(p)
    ensures var (raw, shown) := match p case Plain(t) => (t, t) case Control(e) => (e, []);
            Feed(Scan(Ground, [], out), raw + rest) == Feed(Scan(Ground, [], out + shown), rest)
  {
    match p {
      case Plain(t) =>
        FeedConcat(Scan(Ground, [], out), t, rest);
        PlainTextPasses(Scan(Ground, [], out), t);
      case Control(e) =>
        FeedConcat(Scan(Ground, [], out), e, rest);
        ControlIsSwallowed(e, out);
        assert out + [] == out;
    }
  }

  /** On any interleaving of plain text with complete control sequences exactly the
      text comes out, and nothing is carried. */
  lemma InterleavingKeepsText(ps: seq<Piece>)
    requires forall i | 0 <= i < |ps| :: WellFormed(ps[i])
    ensures Sanitised([], Render(ps)) == (Visible(ps), [])
  {
    InterleavingFrom(ps, []);
    assert [] + Render(ps) == Render(ps) && [] + Visible(ps) == Visible(ps);
  }

  // The forms of ECMA-48 in numbers: what is complete and, below, what is not.

  /** Section 5.4: CSI, parameter bytes, intermediate bytes, one final byte. */
  lemma EcmaCsiIsControl(c1: bool, params: Text, inters: Text, final: QChar)
    requires forall i | 0 <= i < |params| :: 0x30 <= params[i] <= 0x3F
    requires forall i | 0 <= i < |inters| :: 0x20 <= inters[i] <= 0x2F
    requires 0x40 <= final <= 0x7E
    ensures IsControl((if c1 then [0x9B] else [0x1B, 0x5B]) + params + inters + [final])
  {
    var x := params + inters + [final];
    forall k | 0 <= k < |x| ensures !EndsCsi(x[..k]) {
      if k > 0 { assert x[..k][k - 1] == (params + inters)[k - 1]; }
    }
    var e := (if c1 then [0x9B] else [0x1B, 0x5B]) + params + inters + [final];
    assert c1 ==> e[1..] == x;
    assert !c1 ==> e[2..] == x;
  }

  /** Escape sequences with intermediate bytes, such as charset designations. */
  lemma EcmaEscapeIsControl(inters: Text, final: QChar)
    requires inters != [] && forall i | 0 <= i < |inters| :: 0x20 <= inters[i] <= 0x2F
    requires 0x30 <= final <= 0x7E
    ensures IsControl([0x1B] + inters + [final])
  {
    var e := [0x1B] + inters + [final];
    var x := e[2..];
    assert e[1] == inters[0] && x[|x| - 1] == final;
    forall k | 0 <= k < |x| ensures !EndsInter(x[..k]) {
      if k > 0 { assert x[..k][k - 1] == inters[k]; }
    }
  }

  /** Escape sequences of two characters. */
  lemma TwoCharactersAreControl(c: QChar)
    requires c !in {0x50, 0x58, 0x5B, 0x5D, 0x5E, 0x5F} && !(0x20 <= c <= 0x2F)
    ensures IsControl([0x1B, c])
  {
  }

  /** No string terminator ends within `body`, or would with what follows it. */
  ghost predicate NoTerminator(body: Text) {
    forall k | 0 <= k < |body| - 1 :: !(body[k] == 0x1B && body[k + 1] == 0x5C)
  }

  lemma TerminatorIsFirst(m: Mode, body: Text, end: Text)
    requires (m == Str && end == [0x1B, 0x5C]) || (m == Osc && (end == [0x1B, 0x5C] || end == [0x07]))
    requires NoTerminator(body) && (m == Osc ==> 0x07 !in body)
    ensures CompleteBody(m, body + end)
  {
    var x := body + end;
    forall k | 0 <= k < |x| ensures !Ends(m, x[..k]) {
      if k > 0 { assert x[..k][k - 1] == x[k - 1]; }
      if k > 1 { assert x[..k][k - 2] == x[k - 2]; }
    }
    assert x[|x| - 1] == end[|end| - 1];
    if |end| == 2 { assert x[|x| - 2] == 0x1B; }
  }

  /** DCS, SOS, PM and APC end at ST; OSC ends at ST or BEL. */
  lemma EcmaStringIsControl(opener: QChar, body: Text, end: Text)
    requires opener in {0x50, 0x58, 0x5E, 0x5F, 0x5D} && NoTerminator(body)
    requires if opener == 0x5D then 0x07 !in body && (end == [0x07] || end == [0x1B, 0x5C]) else end == [0x1B, 0x5C]
    ensures IsControl([0x1B, opener] + body + end)
  {
    var e := [0x1B, opener] + body + end;
    assert e[2..] == body + end && e[0] == 0x1B && e[1] == opener;
    TerminatorIsFirst(if opener == 0x5D then Osc else Str, body, end);
  }

  lemma HoldsAll(m: Mode, intro: Text, x: Text)
    requires m in {Csi, Osc, Str, Inter} && Feed(START, intro) == Scan(m, intro, [])
    requires forall k | 0 <= k <= |x| :: !Ends(m, x[..k])
    ensures Feed(START, intro + x).held == intro + x && Feed(START, intro + x).out == []
  {
    FeedConcat(START, intro, x);
    BodyIsHeld(m, intro, [], x);
  }

  lemma IntroducersOpen(c: QChar)
    ensures Feed(START, [0x1B]) == Scan(Escape, [0x1B], []) && Feed(START, [0x9B]) == Scan(Csi, [0x9B], [])
    ensures Feed(START, [0x1B, c]) == Step(Scan(Escape, [0x1B], []), c)
    ensures [0x1B] + [c] == [0x1B, c]
  {
    FeedOne(START, 0x1B);
    FeedOne(START, 0x9B);
    FeedConcat(START, [0x1B], [c]);
    FeedOne(Scan(Escape, [0x1B], []), c);
    assert [] + [ESC] == [ESC] && [] + [C1_CSI] == [C1_CSI];
  }

  /** Nothing of an unfinished sequence is shown, all of it is held: CSI without a final
      byte, an escape with intermediates without one, a string or OSC without terminator. */
  lemma UnfinishedIsHeld(opener: QChar, x: Text)
    ensures Feed(START, [0x1B]).held == [0x1B]
    ensures (forall c | c in x :: !(0x40 <= c <= 0x7E)) ==>
              var r, s := Feed(START, [0x9B] + x), Feed(START, [0x1B, 0x5B] + x);
              r.held == [0x9B] + x && r.out == [] && s.held == [0x1B, 0x5B] + x && s.out == []
    ensures 0x20 <= opener <= 0x2F && (forall c | c in x :: !(0x30 <= c <= 0x7E)) ==>
              var r := Feed(START, [0x1B, opener] + x); r.held == [0x1B, opener] + x && r.out == []
    ensures opener in {0x50, 0x58, 0x5E, 0x5F, 0x5D} && NoTerminator(x) && (opener == 0x5D ==> 0x07 !in x) ==>
              var r := Feed(START, [0x1B, opener] + x); r.held == [0x1B, opener] + x && r.out == []
  {
    hide Feed;
    IntroducersOpen(0x5B);
    IntroducersOpen(opener);
    forall k | 0 < k <= |x| ensures x[..k][k - 1] == x[k - 1] && x[k - 1] in x {}
    forall k | 1 < k <= |x| ensures x[..k][k - 2] == x[k - 2] {}
    if forall c | c in x :: !(0x40 <= c <= 0x7E) {
      HoldsAll(Csi, [0x9B], x);
      HoldsAll(Csi, [0x1B, 0x5B], x);
    }
    if 0x20 <= opener <= 0x2F && forall c | c in x :: !(0x30 <= c <= 0x7E) {
      HoldsAll(Inter, [0x1B, opener], x);
    }
    if opener in {0x50, 0x58, 0x5E, 0x5F, 0x5D} && NoTerminator(x) && (opener == 0x5D ==> 0x07 !in x) {
      HoldsAll(if opener == 0x5D then Osc else Str, [0x1B, opener], x);
    }
  }

  /** A suffix of 4096 characters is carried, one more is not. */
  lemma CapIsExact(n: nat)
    ensures var a: Text := [0x1B, 0x5D] + seq(n, _ => 0x61);
            Sanitised([], a) == ([], if n + 2 <= 4096 then a else [])
  {
    var body: Text := seq(n, _ => 0x61);
    UnfinishedIsHeld(0x5D, body);
    assert [] + ([0x1B, 0x5D] + body) == [0x1B, 0x5D] + body;
  }

  // ---------------------------------------------------------------------------
  // The filter behind the sanitiser, and the scrollback.
  // ---------------------------------------------------------------------------

  /** One step of the filter: CR and CR LF become LF, BS erases back to the line
      start, other control characters vanish. Yields the next index and the result. */
  function FilterStep(chunk: Text, i: nat, acc: Text): (r: (nat, Text))
    requires i < |chunk|
    ensures i < r.0 <= |chunk|
  {
    var u := chunk[i];
    if u == CR then (if i + 1 < |chunk| && chunk[i + 1] == LF then i + 2 else i + 1, acc + [LF])
    else if u == BS then
      (i + 1, if acc != [] && acc[|acc| - 1] != LF then acc[..|acc| - 1] else acc)
    else if u == LF || u == TAB || u >= 0x20 then (i + 1, acc + [u])
    else (i + 1, acc)
  }

  function Filtered(chunk: Text, i: nat, acc: Text): Text
    requires i <= |chunk|
    decreases |chunk| - i
  {
    if i == |chunk| then acc
    else
      var (j, acc') := FilterStep(chunk, i, acc);
      Filtered(chunk, j, acc')
  }

  ghost predicate Printable(t: Text) {
    forall k | 0 <= k < |t| :: t[k] == LF || t[k] == TAB || t[k] >= 0x20
  }

  lemma {:induction false} FilteredIsPrintable(chunk: Text, i: nat, acc: Text)
    requires i <= |chunk| && Printable(acc)
    ensures Printable(Filtered(chunk, i, acc))
    decreases |chunk| - i
  {
    if i < |chunk| {
      var (j, acc') := FilterStep(chunk, i, acc);
      assert Printable(acc');
      FilteredIsPrintable(chunk, j, acc');
    }
  }

  // The filter, unlike the sanitiser, starts afresh with every chunk.

  predicate AtLineStart(acc: Text) { acc == [] || acc[|acc| - 1] == LF }

  /** With `n` characters on the line, a BS meets an empty line before the first line end. */
  predicate Reaches(chunk: Text, i: nat, n: nat)
    requires i <= |chunk|
    decreases |chunk| - i
  {
    if i == |chunk| || chunk[i] == CR || chunk[i] == LF then false
    else if chunk[i] == BS then n == 0 || Reaches(chunk, i + 1, n - 1)
    else Reaches(chunk, i + 1, if chunk[i] == TAB || chunk[i] >= 0x20 then n + 1 else n)
  }

  predicate CutsLineEnd(a: Text, b: Text) { a != [] && a[|a| - 1] == CR && b != [] && b[0] == LF }

  lemma {:induction false} FilterShift(a: Text, b: Text, i: nat, acc: Text)
    requires i <= |b|
    ensures Filtered(a + b, |a| + i, acc) == Filtered(b, i, acc)
    decreases |b| - i
  {
    if i < |b| {
      var (j, acc') := FilterStep(b, i, acc);
      FilterShift(a, b, j, acc');
    }
  }

  /** Without a CR LF cut in two, filtering goes on in the second chunk where it stopped. */
  lemma {:induction false} FilterSplit(a: Text, b: Text, i: nat, acc: Text)
    requires i <= |a| && !CutsLineEnd(a, b)
    ensures Filtered(a + b, i, acc) == Filtered(b, 0, Filtered(a, i, acc))
    decreases |a| - i
  {
    if i == |a| {
      FilterShift(a, b, 0, acc);
    } else {
      var (j, acc') := FilterStep(a, i, acc);
      assert FilterStep(a + b, i, acc) == (j, acc');
      FilterSplit(a, b, j, acc');
    }
  }

  /** Finished lines are out of reach. */
  lemma {:induction false} FinishedLinesStay(t: Text, i: nat, p: Text, q: Text)
    requires i <= |t| && AtLineStart(p)
    ensures Filtered(t, i, p + q) == p + Filtered(t, i, q)
    decreases |t| - i
  {
    if i < |t| {
      var (j, q') := FilterStep(t, i, q);
      assert FilterStep(t, i, p + q) == (j, p + q') by { FilterStepPrefix(t, i, p, q); }
      FinishedLinesStay(t, j, p, q');
    }
  }

  /** A step on a longer text does the same to its end, unless a BS finds that end empty. */
  lemma FilterStepPrefix(t: Text, i: nat, p: Text, q: Text)
    requires i < |t| && (t[i] == BS && q == [] ==> AtLineStart(p))
    ensures var (j, q') := FilterStep(t, i, q); FilterStep(t, i, p + q) == (j, p + q')
  {
    assert (p + q) + [LF] == p + (q + [LF]) && (p + q) + [t[i]] == p + (q + [t[i]]);
    if q != [] {
      assert (p + q)[..|p + q| - 1] == p + q[..|q| - 1];
    } else {
      assert p + q == p;
    }
  }

  /** A chunk that erases no more than it wrote leaves the text before it alone. */
  lemma {:induction false} OwnLineOnly(t: Text, i: nat, p: Text, q: Text)
    requires i <= |t| && LF !in q && !Reaches(t, i, |q|)
    ensures Filtered(t, i, p + q) == p + Filtered(t, i, q)
    decreases |t| - i
  {
    if i < |t| {
      var (j, q') := FilterStep(t, i, q);
      FilterStepPrefix(t, i, p, q);
      if t[i] == CR || t[i] == LF {
        FinishedLinesStay(t, j, p + q', []);
        FinishedLinesStay(t, j, q', []);
        assert p + q' + [] == p + q' && q' + [] == q';
        Assoc(p, q', Filtered(t, j, []));
      } else {
        OwnLineOnly(t, j, p, q');
      }
    }
  }

  /** What came before can be shortened, never lengthened. */
  lemma {:induction false} FilterNoLonger(t: Text, i: nat, p: Text, q: Text)
    requires i <= |t|
    ensures |Filtered(t, i, p + q)| <= |p| + |Filtered(t, i, q)|
    decreases |t| - i
  {
    if i < |t| {
      var (j, q') := FilterStep(t, i, q);
      if t[i] == BS && q == [] && !AtLineStart(p) {
        assert p + q == p && p[..|p| - 1] + q' == p[..|p| - 1];
        FilterNoLonger(t, j, p[..|p| - 1], q');
      } else {
        FilterStepPrefix(t, i, p, q);
        FilterNoLonger(t, j, p, q');
      }
    }
  }

  /** A chunk that erases beyond its own line does shorten an unfinished line before it. */
  lemma {:induction false} ReachingErases(t: Text, i: nat, p: Text, q: Text)
    requires i <= |t| && !AtLineStart(p) && LF !in q && Reaches(t, i, |q|)
    ensures |Filtered(t, i, p + q)| < |p| + |Filtered(t, i, q)|
    decreases |t| - i
  {
    var (j, q') := FilterStep(t, i, q);
    if t[i] == BS && q == [] {
      assert p + q == p && p[..|p| - 1] + [] == p[..|p| - 1];
      FilterNoLonger(t, j, p[..|p| - 1], []);
    } else {
      FilterStepPrefix(t, i, p, q);
      ReachingErases(t, j, p, q');
    }
  }

  lemma CutLineEndDoubles(a: Text, b: Text)
    requires CutsLineEnd(a, b)
    ensures Filtered(a + b, 0, []) != Filtered(a, 0, []) + Filtered(b, 0, [])
  {
    var n := |a| - 1;
    var f := Filtered(a[..n], 0, []);
    var rest := Filtered(b, 1, []);
    assert a == a[..n] + [CR] && a + b == a[..n] + ([CR] + b);
    FilterSplit(a[..n], [CR], 0, []);
    FilterSplit(a[..n], [CR] + b, 0, []);
    assert Filtered([CR], 0, f) == Filtered([CR], 1, f + [LF]) == f + [LF];
    assert FilterStep([CR] + b, 0, f) == (2, f + [LF]);
    FilterShift([CR], b, 1, f + [LF]);
    FinishedLinesStay(b, 1, f + [LF], []);
    FinishedLinesStay(b, 1, [LF], []);
    assert Filtered(b, 0, []) == Filtered(b, 1, [] + [LF]);
    assert f + [LF] + [] == f + [LF] && [LF] + [] == [LF] && [] + [LF] == [LF];
    assert |Filtered(a + b, 0, [])| == |f| + 1 + |rest| && |Filtered(b, 0, [])| == 1 + |rest|;
  }

  /** Cutting a text before the filter is harmless if and only if it does not cut a CR LF,
      and the second part does not erase into an unfinished line of the first. */
  lemma FilterCut(a: Text, b: Text)
    ensures Filtered(a + b, 0, []) == Filtered(a, 0, []) + Filtered(b, 0, [])
            <==> !CutsLineEnd(a, b) && (!Reaches(b, 0, 0) || AtLineStart(Filtered(a, 0, [])))
  {
    var shown := Filtered(a, 0, []);
    assert shown + [] == shown;
    if CutsLineEnd(a, b) {
      CutLineEndDoubles(a, b);
    } else {
      FilterSplit(a, b, 0, []);
      if AtLineStart(shown) {
        FinishedLinesStay(b, 0, shown, []);
      } else if Reaches(b, 0, 0) {
        ReachingErases(b, 0, shown, []);
      } else {
        OwnLineOnly(b, 0, shown, []);
      }
    }
  }

  /** The filter in numbers, one more character at a time: CR and LF end a line, CR LF ends
      one line, BS takes back the last character of an unfinished line, TAB and everything
      from 0x20 up stay, other control characters vanish. */
  lemma FilterMeaning(t: Text, c: QChar)
    ensures Filtered([], 0, []) == []
    ensures Filtered(t + [0x0D, 0x0A], 0, []) == Filtered(t, 0, []) + [0x0A]
    ensures !(c == 0x0A && t != [] && t[|t| - 1] == 0x0D) ==>
              var shown, now := Filtered(t, 0, []), Filtered(t + [c], 0, []);
              && (c == 0x0D || c == 0x0A ==> now == shown + [0x0A])
              && (c == 0x09 || c >= 0x20 ==> now == shown + [c])
              && (c == 0x08 ==> now == if shown == [] || shown[|shown| - 1] == 0x0A then shown
                                       else shown[..|shown| - 1])
              && (c < 0x20 && c !in {0x08, 0x09, 0x0A, 0x0D} ==> now == shown)
  {
    var shown := Filtered(t, 0, []);
    FilterSplit(t, [0x0D, 0x0A], 0, []);
    assert Filtered([0x0D, 0x0A], 0, shown) == Filtered([0x0D, 0x0A], 2, shown + [0x0A]);
    if !CutsLineEnd(t, [c]) {
      FilterSplit(t, [c], 0, []);
      var (j, next) := FilterStep([c], 0, shown);
      assert j == 1 && Filtered([c], 0, shown) == Filtered([c], 1, next) == next;
    }
  }

  /** A CR LF cut in two gives two line ends, and a BS cut off from its line erases nothing. */
  lemma FilterIsChunkLocal()
    ensures Filtered([CR, LF], 0, []) == [LF]
    ensures Filtered([CR], 0, []) + Filtered([LF], 0, []) == [LF, LF]
    ensures Filtered([0x61, BS], 0, []) == []
    ensures Filtered([0x61], 0, []) + Filtered([BS], 0, []) == [0x61]
  {
    assert Filtered([CR, LF], 2, [LF]) == [LF];
    assert Filtered([CR], 1, [LF]) == [LF] && Filtered([LF], 1, [LF]) == [LF];
    assert [] + [LF] == [LF] && [] + [0x61] == [0x61];
    assert Filtered([0x61, BS], 1, [0x61]) == Filtered([0x61, BS], 2, []) == [];
    assert Filtered([0x61], 1, [0x61]) == [0x61] && Filtered([BS], 1, []) == [];
  }

  /** The last `n` characters of `s`. */
  function Suffix(s: Text, n: nat): Text { if |s| <= n then s else s[|s| - n..] }

  lemma SuffixAbsorbs(a: Text, b: Text, n: nat)
    ensures Suffix(Suffix(a, n) + b, n) == Suffix(a + b, n)
  {
    var l := Suffix(Suffix(a, n) + b, n);
    var r := Suffix(a + b, n);
    assert |l| == |r|;
    forall i | 0 <= i < |l| ensures l[i] == r[i] {}
  }

  datatype ScrollOp = Append(chunk: Text) | Clear

  /** Everything appended since the last clear. */
  function SinceClear(ops: seq<ScrollOp>): Text {
    if ops == [] then []
    else
      var n := |ops| - 1;
      match ops[n] case Clear => [] case Append(c) => SinceClear(ops[..n]) + c
  }

  function Scrollback(text: Text, op: ScrollOp): Text {
    match op case Clear => [] case Append(c) => Suffix(text + c, MAX_CHARS)
  }

  function ScrollRun(ops: seq<ScrollOp>): Text {
    if ops == [] then [] else Scrollback(ScrollRun(ops[..|ops| - 1]), ops[|ops| - 1])
  }

  /** Scrollback refinement: what a run of appends and clears of any sizes leaves is
      the last 200000 characters appended since the last clear. */
  lemma {:induction false} ScrollRunIsSuffix(ops: seq<ScrollOp>)
    ensures ScrollRun(ops) == Suffix(SinceClear(ops), MAX_CHARS)
  {
    if ops != [] {
      var n := |ops| - 1;
      ScrollRunIsSuffix(ops[..n]);
      match ops[n] {
        case Clear =>
        case Append(c) => SuffixAbsorbs(SinceClear(ops[..n]), c, MAX_CHARS);
      }
    }
  }

  /** The same, character by character. */
  lemma ScrollbackIsTheEnd(ops: seq<ScrollOp>)
    ensures var t, all := ScrollRun(ops), SinceClear(ops);
            && |t| == (if |all| <= 200000 then |all| else 200000)
            && forall i | 0 <= i < |t| :: t[i] == all[|all| - |t| + i]
  {
    ScrollRunIsSuffix(ops);
  }

  /** What counts as appended since the last clear. */
  lemma {:induction false} SinceClearIs(before: seq<ScrollOp>, chunks: seq<Text>)
    ensures var ops := before + [ScrollOp.Clear] + seq(|chunks|, i requires 0 <= i < |chunks| => Append(chunks[i]));
            SinceClear(ops) == Flatten(chunks)
    decreases |chunks|
  {
    var after := seq(|chunks|, i requires 0 <= i < |chunks| => Append(chunks[i]));
    var ops := before + [ScrollOp.Clear] + after;
    if chunks == [] {
      assert ops == before + [ScrollOp.Clear];
    } else {
      var n := |chunks| - 1;
      SinceClearIs(before, chunks[..n]);
      var less := seq(n, i requires 0 <= i < n => Append(chunks[..n][i]));
      assert ops[..|ops| - 1] == before + [ScrollOp.Clear] + less;
      FlattenSnoc(chunks[..n], chunks[n]);
      assert chunks[..n] + [chunks[n]] == chunks;
    }
  }

  lemma {:induction false} FlattenSnoc(chunks: seq<Text>, c: Text)
    ensures Flatten(chunks + [c]) == Flatten(chunks) + c
    decreases |chunks|
  {
    if chunks == [] {
      assert (chunks + [c])[1..] == [];
      assert Flatten([c]) == c + Flatten([]) == c;
    } else {
      assert (chunks + [c])[1..] == chunks[1..] + [c];
      FlattenSnoc(chunks[1..], c);
    }
  }

  class TerminalViewModel {
    var text: Text
    var pendingControl: Text

    ghost predicate Valid()
      reads this
    {
      Resumable(pendingControl) && |text| <= MAX_CHARS
    }

    constructor ()
      ensures Valid() && text == [] && pendingControl == []
    {
      text, pendingControl := [], [];
    }

    /** First index in `input[from..]` whose character closes a CSI sequence, plus one. */
    static method ScanToCsiFinal(input: Text, from: nat) returns (j: nat, complete: bool)
      requires from <= |input|
      ensures from <= j <= |input|
      ensures complete ==> from < j && IsCsiFinal(input[j - 1])
      ensures forall k | from <= k < (if complete then j - 1 else j) :: !IsCsiFinal(input[k])
      ensures !complete ==> j == |input|
    {
      j, complete := from, false;
      while j < |input|
        invariant from <= j <= |input|
        invariant forall k | from <= k < j :: !IsCsiFinal(input[k])
      {
        if IsCsiFinal(input[j]) {
          return j + 1, true;
        }
        j := j + 1;
      }
    }

    /** The same for the final byte of an intermediate-byte escape. */
    static method ScanToEscFinal(input: Text, from: nat) returns (j: nat, complete: bool)
      requires from <= |input|
      ensures from <= j <= |input|
      ensures complete ==> from < j && IsEscFinal(input[j - 1])
      ensures forall k | from <= k < (if complete then j - 1 else j) :: !IsEscFinal(input[k])
      ensures !complete ==> j == |input|
    {
      j, complete := from, false;
      while j < |input|
        invariant from <= j <= |input|
        invariant forall k | from <= k < j :: !IsEscFinal(input[k])
      {
        if IsEscFinal(input[j]) {
          return j + 1, true;
        }
        j := j + 1;
      }
    }

    /** Scans an OSC (`bel`) or DCS/SOS/PM/APC body for its terminator. */
    static method ScanToSt(input: Text, from: nat, bel: bool) returns (j: nat, complete: bool)
      requires from <= |input|
      ensures from <= j <= |input|
      ensures Found(if bel then Osc else Str, input, from, j, complete)
    {
      j, complete := from, false;
      ghost var m := if bel then Osc else Str;
      assert input[from..from] == [] && !Ends(m, []);
      hide Ends;
      while j < |input|
        invariant from <= j <= |input|
        invariant forall k | from <= k <= j :: !Ends(m, input[from..k])
        invariant from < j < |input| ==> !(input[j - 1] == ESC && input[j] == BACKSLASH)
      {
        var cur := input[j];
        EndsAt(m, input, from, j);
        if bel && cur == BEL {
          EndsHere(m, input, from, j + 1);
          return j + 1, true;
        }
        if cur == ESC {
          if j + 1 >= |input| {
            return |input|, false;
          }
          if input[j + 1] == BACKSLASH {
            EndsAt(m, input, from, j + 1);
            EndsHere(m, input, from, j + 2);
            return j + 2, true;
          }
        }
        j := j + 1;
      }
    }

    /** Whether a string control ends at `j` is a matter of one or two characters. */
    static lemma EndsAt(m: Mode, input: Text, from: nat, j: nat)
      requires (m == Osc || m == Str) && from <= j < |input|
      ensures Ends(m, input[from..j + 1]) <==>
                (m == Osc && input[j] == BEL) || (from < j && input[j - 1] == ESC && input[j] == BACKSLASH)
    {
      var x := input[from..j + 1];
      assert x[|x| - 1] == input[j] && (from < j ==> x[|x| - 2] == input[j - 1]);
    }

    static lemma EndsHere(m: Mode, input: Text, from: nat, j: nat)
      requires from <= j <= |input| && Ends(m, input[from..j])
      requires forall k | from <= k < j :: !Ends(m, input[from..k])
      ensures CompleteBody(m, input[from..j])
    {
      forall k | 0 <= k < j - from ensures !Ends(m, input[from..j][..k]) {
        assert input[from..j][..k] == input[from..from + k];
      }
    }

    /** What a scan loop started at `from` reports about a body of mode `m`. */
    ghost static predicate Found(m: Mode, input: Text, from: nat, j: nat, complete: bool)
      requires from <= j <= |input|
    {
      if complete then CompleteBody(m, input[from..j])
      else forall k | from <= k <= |input| :: !Ends(m, input[from..k])
    }

    /** A finished scan lets the automaton step over the whole control sequence; an
        unfinished one leaves it holding the rest of the input. */
    static lemma Scanned(m: Mode, input: Text, i: nat, from: nat, j: nat, complete: bool, out: Text)
      requires m in {Csi, Osc, Str, Inter}
      requires i < from <= j <= |input|
      requires Feed(START, input[..from]) == Scan(m, input[i..from], out)
      requires Found(m, input, from, j, complete)
      ensures complete ==> Feed(START, input[..j]) == Scan(Ground, [], out)
      ensures !complete ==> Feed(START, input).held == input[i..] && Feed(START, input).out == out
    {
      if complete {
        ScanEnds(input, from, j, Scan(m, input[i..from], out));
        BodyIsSwallowed(m, input[i..from], out, input[from..j]);
      } else {
        ScannedHeld(m, input, i, from, out);
      }
    }

    static lemma ScannedHeld(m: Mode, input: Text, i: nat, from: nat, out: Text)
      requires m in {Csi, Osc, Str, Inter}
      requires i < from <= |input|
      requires Feed(START, input[..from]) == Scan(m, input[i..from], out)
      requires forall k | from <= k <= |input| :: !Ends(m, input[from..k])
      ensures Feed(START, input).held == input[i..] && Feed(START, input).out == out
    {
      hide Ends, Feed;
      var x := input[from..];
      ScanEnds(input, from, |input|, Scan(m, input[i..from], out));
      assert input[..|input|] == input && input[from..|input|] == x;
      forall k | 0 <= k <= |x| ensures !Ends(m, x[..k]) {
        assert x[..k] == input[from..from + k];
      }
      BodyIsHeld(m, input[i..from], out, x);
      Rejoin(input, i, from);
    }

    static lemma ScanEnds(input: Text, from: nat, e: nat, s: Scan)
      requires from <= e <= |input| && Feed(START, input[..from]) == s
      ensures Feed(START, input[..e]) == Feed(s, input[from..e])
    {
      assert input[..e] == input[..from] + input[from..e];
      FeedConcat(START, input[..from], input[from..e]);
    }

    static lemma Rejoin(t: Text, i: nat, j: nat)
      requires i <= j <= |t|
      ensures t[i..j] + t[j..] == t[i..]
    {
    }

    /** Finals found by a scan loop, as a body of mode `m`. */
    static lemma FinalScan(m: Mode, input: Text, from: nat, j: nat, complete: bool)
      requires m == Csi || m == Inter
      requires from <= j <= |input|
      requires var f := (c: QChar) => if m == Csi then IsCsiFinal(c) else IsEscFinal(c);
               && (complete ==> from < j && f(input[j - 1]))
               && (forall k | from <= k < (if complete then j - 1 else j) :: !f(input[k]))
      requires !complete ==> j == |input|
      ensures Found(m, input, from, j, complete)
    {
      var last := if complete then j - 1 else j;
      forall k | from <= k <= last ensures !Ends(m, input[from..k]) {
        if k > from { assert input[from..k][k - 1 - from] == input[k - 1]; }
      }
      if complete {
        assert input[from..j][j - 1 - from] == input[j - 1];
        EndsHere(m, input, from, j);
      }
    }

    /** Scans the control sequence introduced at `i`; `out` is what came before it. */
    static method ScanControl(input: Text, i: nat, ghost out: Text) returns (j: nat, complete: bool)
      requires i < |input| && IsIntroducer(input[i])
      requires Feed(START, input[..i]) == Scan(Ground, [], out)
      ensures complete ==> i < j <= |input| && Feed(START, input[..j]) == Scan(Ground, [], out)
      ensures !complete ==> var r := Feed(START, input); r.held == input[i..] && r.out == out
    {
      hide Feed, Found;
      FeedSnoc(START, input, i);
      if input[i] == C1_CSI {
        j, complete := ScanToCsiFinal(input, i + 1);
        FinalScan(Csi, input, i + 1, j, complete);
        assert input[i..i + 1] == [] + [C1_CSI];
        Scanned(Csi, input, i, i + 1, j, complete, out);
      } else if i + 1 >= |input| {
        assert input[..i + 1] == input && input[i..] == [] + [ESC];
        j, complete := i, false;
      } else {
        FeedSnoc(START, input, i + 1);
        assert input[i..i + 2] == [] + [ESC] + [input[i + 1]];
        j, complete := ScanEscape(input, i + 2);
        if Next(Escape, input[i + 1]) != Ground {
          Scanned(Next(Escape, input[i + 1]), input, i, i + 2, j, complete, out);
        }
      }
    }

    /** Scans what follows ESC and the character before `from`. */
    static method ScanEscape(input: Text, from: nat) returns (j: nat, complete: bool)
      requires 2 <= from <= |input|
      ensures from <= j <= |input|
      ensures var m := Next(Escape, input[from - 1]);
              if m == Ground then complete && j == from else Found(m, input, from, j, complete)
    {
      var n := input[from - 1];
      if n == 0x5B {
        j, complete := ScanToCsiFinal(input, from);
        FinalScan(Csi, input, from, j, complete);
      } else if n == 0x5D {
        j, complete := ScanToSt(input, from, true);
      } else if IsStringIntro(n) {
        j, complete := ScanToSt(input, from, false);
      } else if IsEscIntermediate(n) {
        j, complete := ScanToEscFinal(input, from);
        FinalScan(Inter, input, from, j, complete);
      } else {
        j, complete := from, true;
      }
    }

    method SanitiseTerminalChunk(chunk: Text) returns (out: Text)
      requires Valid()
      modifies this`pendingControl
      ensures Valid()
      ensures (out, pendingControl) == Sanitised(old(pendingControl), chunk)
    {
      hide Feed;
      var input := pendingControl + chunk;
      PendingStaysResumable(pendingControl, chunk);
      FeedNothing();
      pendingControl := [];
      out := [];
      var i := 0;
      while i < |input|
        invariant 0 <= i <= |input|
        invariant Feed(START, input[..i]) == Scan(Ground, [], out)
        invariant pendingControl == []
      {
        var u := input[i];
        if IsIntroducer(u) {
          var j, complete := ScanControl(input, i, out);
          if !complete {
            HoldPending(input, i);
            return;
          }
          i := j;
        } else {
          FeedSnoc(START, input, i);
          out := out + [u];
          i := i + 1;
        }
      }
      assert input[..i] == input;
    }

    method HoldPending(input: Text, start: nat)
      requires start <= |input|
      modifies this`pendingControl
      ensures pendingControl == Capped(input[start..])
    {
      pendingControl := input[start..];
      if |pendingControl| > MAX_PENDING {
        pendingControl := [];
      }
    }

    /** Sanitise, filter, append; `chunk` is the decoded text of the bytes received. */
    method AppendBytes(chunk: Text)
      requires Valid()
      modifies this
      ensures Valid()
      ensures var (out, pending) := Sanitised(old(pendingControl), chunk);
              && pendingControl == pending
              && text == Scrollback(old(text), Append(Filtered(out, 0, [])))
    {
      var clean := SanitiseTerminalChunk(chunk);
      var filtered: Text := [];
      var i := 0;
      while i < |clean|
        invariant 0 <= i <= |clean|
        invariant Filtered(clean, i, filtered) == Filtered(clean, 0, [])
      {
        var u := clean[i];
        if u == CR {
          if i + 1 < |clean| && clean[i + 1] == LF {
            i := i + 1;
          }
          filtered := filtered + [LF];
        } else if u == BS {
          if filtered != [] && filtered[|filtered| - 1] != LF {
            filtered := filtered[..|filtered| - 1];
          }
        } else if u == LF || u == TAB || u >= 0x20 {
          filtered := filtered + [u];
        }
        i := i + 1;
      }
      AppendText(filtered);
    }

    method AppendText(chunk: Text)
      requires Valid()
      modifies this`text
      ensures Valid()
      ensures text == Scrollback(old(text), Append(chunk))
    {
      if chunk == [] {
        assert text + chunk == text;
        return;
      }
      text := text + chunk;
      if |text| > MAX_CHARS {
        text := text[|text| - MAX_CHARS..];
      }
    }

    method Clear()
      requires Valid()
      modifies this`text
      ensures Valid()
      ensures text == Scrollback(old(text), ScrollOp.Clear)
    {
      if text == [] {
        return;
      }
      text := [];
    }
  }
}
