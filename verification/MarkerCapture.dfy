/** Cutting the marked resource snapshot out of the terminal stream, chunk by chunk
    (app/cpp/AppController.cpp). Text is ASCII, so bytes and characters agree. */
module MarkerCapture {
  const BEGIN: string := "__RSSH_RESOURCE_BEGIN__"
  const END: string := "__RSSH_RESOURCE_END__"
  const MAX_CAPTURE: nat := 50000

  // ---------------------------------------------------------------------------
  // Searching.
  // ---------------------------------------------------------------------------

  predicate OccursAt(p: string, s: string, i: int) { 0 <= i && i + |p| <= |s| && s[i..i + |p|] == p }

  /** `indexOf`: the leftmost occurrence, or -1. */
  function IndexOf(p: string, s: string): (r: int)
    ensures r >= 0 ==> OccursAt(p, s, r) && forall i | 0 <= i < r :: !OccursAt(p, s, i)
    ensures r < 0 ==> r == -1 && forall i :: !OccursAt(p, s, i)
  {
    IndexFrom(p, s, 0)
  }

  function IndexFrom(p: string, s: string, from: nat): (r: int)
    requires from <= |s|
    ensures r >= from ==> OccursAt(p, s, r) && forall i | from <= i < r :: !OccursAt(p, s, i)
    ensures r < from ==> r == -1 && forall i | from <= i :: !OccursAt(p, s, i)
    decreases |s| - from
  {
    if OccursAt(p, s, from) then from
    else if from == |s| then -1
    else IndexFrom(p, s, from + 1)
  }

  function Right(s: string, n: nat): string { if |s| <= n then s else s[|s| - n..] }

  function Max(a: int, b: int): int { if a < b then b else a }

  /** Appending neither destroys an occurrence nor makes one inside the old text. */
  lemma OccursInPrefix(p: string, s: string, more: string, i: int)
    requires 0 <= i && i + |p| <= |s|
    ensures OccursAt(p, s + more, i) == OccursAt(p, s, i)
  {
    assert (s + more)[i..i + |p|] == s[i..i + |p|];
  }

  /** A suffix has the occurrences of the whole that lie in it. */
  lemma OccursInSuffix(p: string, s: string, o: nat, i: int)
    requires o <= |s| && 0 <= i
    ensures OccursAt(p, s[o..], i) == OccursAt(p, s, o + i)
  {
    if i + |p| <= |s| - o { assert s[o..][i..i + |p|] == s[o + i..o + i + |p|]; }
  }

  lemma IndexStays(p: string, s: string, more: string)
    requires IndexOf(p, s) >= 0
    ensures IndexOf(p, s + more) == IndexOf(p, s)
  {
    forall i | 0 <= i <= IndexOf(p, s) ensures OccursAt(p, s + more, i) == OccursAt(p, s, i) {
      OccursInPrefix(p, s, more, i);
    }
  }

  /** Looking only at the last `|p| - 1` characters and the new ones finds a first
      occurrence just as well. */
  lemma TailSuffices(p: string, s: string, more: string)
    requires p != "" && IndexOf(p, s) < 0
    ensures var t := Right(s, |p| - 1); var o := |s| - |t|; var i := IndexOf(p, t + more);
            && t + more == (s + more)[o..]
            && IndexOf(p, s + more) == (if i < 0 then -1 else o + i)
            && (i >= 0 ==> |s| < o + i + |p|)
  {
    var t := Right(s, |p| - 1);
    var o := |s| - |t|;
    var all := s + more;
    assert t + more == all[o..];
    forall j | 0 <= j ensures OccursAt(p, all[o..], j) == OccursAt(p, all, o + j) { OccursInSuffix(p, all, o, j); }
    forall j | 0 <= j && j + |p| <= |s| ensures !OccursAt(p, all, j) { OccursInPrefix(p, s, more, j); }
    var i := IndexOf(p, t + more);
    if i < 0 {
      forall j ensures !OccursAt(p, all, j) {
        if j >= o { assert !OccursAt(p, all[o..], j - o); }
      }
    } else {
      forall j | 0 <= j < o + i ensures !OccursAt(p, all, j) {
        if j >= o { assert !OccursAt(p, all[o..], j - o); }
      }
    }
  }

  // ---------------------------------------------------------------------------
  // The capture.
  // ---------------------------------------------------------------------------

  /** `terminal` is all that was appended to the terminal, `parsed` the texts handed to the
      snapshot parser. */
  datatype State = State(busy: bool, capture: string, tail: string, terminal: string, parsed: seq<string>)

  /** A snapshot was just requested. */
  function Init(): State { State(true, "", "", "", []) }

  /** With text captured: give up if it is too long, hand it over if it is complete. */
  function Settle(s: State): State {
    var end := IndexOf(END, s.capture);
    if |s.capture| > MAX_CAPTURE then s.(busy := false, capture := "", tail := "")
    else if end >= 0 then
      var n := end + |END|;
      State(false, "", "", s.terminal + s.capture[n..], s.parsed + [s.capture[..n]])
    else s
  }

  function Ingest(s: State, data: string): State {
    if !s.busy then s.(terminal := s.terminal + data)
    else if s.capture == "" then
      var probe := s.tail + data;
      var begin := IndexOf(BEGIN, probe);
      if begin < 0 then s.(tail := Right(probe, |BEGIN| - 1), terminal := s.terminal + data)
      else
        Settle(s.(capture := probe[begin..], tail := "",
                  terminal := s.terminal + data[..Clip(begin - |s.tail|, |data|)]))
    else Settle(s.(capture := s.capture + data))
  }

  function Clip(n: int, max: nat): (r: nat)
    ensures r <= max
  {
    if n < 0 then 0 else if n > max then max else n
  }

  function Run(chunks: seq<string>): State {
    if chunks == [] then Init() else Ingest(Run(chunks[..|chunks| - 1]), chunks[|chunks| - 1])
  }

  function Concat(chunks: seq<string>): string {
    if chunks == [] then "" else Concat(chunks[..|chunks| - 1]) + chunks[|chunks| - 1]
  }

  /** Where the `k`-th chunk ends in the stream. */
  function Boundary(chunks: seq<string>, k: nat): nat
    requires k <= |chunks|
  {
    |Concat(chunks[..k])|
  }

  // ---------------------------------------------------------------------------
  // What a run has done, in terms of the stream.
  // ---------------------------------------------------------------------------

  ghost predicate Watching(st: State, s: string) {
    && IndexOf(BEGIN, s) < 0
    && st == State(true, "", Right(s, |BEGIN| - 1), s, [])
  }

  /** The terminal got the stream up to the begin marker, or up to the boundary `c` inside
      the marker if the chunk before had already been shown. */
  ghost predicate Begun(s: string, c: nat) {
    var b := IndexOf(BEGIN, s);
    b >= 0 && c < b + |BEGIN| && b + |BEGIN| <= |s|
  }

  function Shown(s: string, c: nat): string {
    var n := Max(IndexOf(BEGIN, s), c);
    if 0 <= n <= |s| then s[..n] else s
  }

  ghost predicate Capturing(st: State, s: string, c: nat) {
    && Begun(s, c)
    && var cap := s[IndexOf(BEGIN, s)..];
       |cap| <= MAX_CAPTURE && IndexOf(END, cap) < 0 && st == State(true, cap, "", Shown(s, c), [])
  }

  /** The marked text of a stream: from the first begin marker through the first end marker
      at or after it. */
  ghost predicate Marked(s: string) {
    IndexOf(BEGIN, s) >= 0 && IndexOf(END, s[IndexOf(BEGIN, s)..]) >= 0
  }

  function MarkedEnd(s: string): int {
    var b := IndexOf(BEGIN, s);
    if b < 0 then 0 else b + IndexOf(END, s[b..]) + |END|
  }

  ghost predicate Parsed(st: State, s: string, c: nat) {
    && Begun(s, c) && Marked(s)
    && st == State(false, "", "", Shown(s, c) + s[MarkedEnd(s)..], [s[IndexOf(BEGIN, s)..MarkedEnd(s)]])
  }

  /** The capture was given up at `x`, before which no end marker had been seen by `y`. */
  ghost predicate GivenUp(st: State, s: string, c: nat, y: nat, x: nat) {
    && Begun(s, c) && x <= |s| && x - IndexOf(BEGIN, s) > MAX_CAPTURE
    && st == State(false, "", "", Shown(s, c) + s[x..], [])
    && (Marked(s) ==> y < MarkedEnd(s))
  }

  /** Once begun, more text changes neither the marker nor what the terminal showed. */
  lemma BegunStays(s: string, data: string, c: nat)
    requires Begun(s, c)
    ensures Begun(s + data, c) && IndexOf(BEGIN, s + data) == IndexOf(BEGIN, s) && Shown(s + data, c) == Shown(s, c)
    ensures (s + data)[IndexOf(BEGIN, s)..] == s[IndexOf(BEGIN, s)..] + data
  {
    IndexStays(BEGIN, s, data);
    var n := Max(IndexOf(BEGIN, s), c);
    assert (s + data)[..n] == s[..n];
  }

  lemma MarkedStays(s: string, data: string, c: nat)
    requires Begun(s, c) && Marked(s)
    ensures Marked(s + data) && MarkedEnd(s + data) == MarkedEnd(s) <= |s|
  {
    BegunStays(s, data, c);
    IndexStays(END, s[IndexOf(BEGIN, s)..], data);
  }

  /** An end marker that more text completes ends in that text. */
  lemma MarkedLate(s: string, data: string, c: nat)
    requires Begun(s, c) && !Marked(s) && Marked(s + data)
    ensures |s| < MarkedEnd(s + data)
  {
    BegunStays(s, data, c);
    var b := IndexOf(BEGIN, s);
    var e := IndexOf(END, (s + data)[b..]);
    if b + e + |END| <= |s| { OccursInPrefix(END, s[b..], data, e); }
  }

  lemma EndNotInBegin(s: string, e: nat)
    requires OccursAt(BEGIN, s, 0) && OccursAt(END, s, e)
    ensures e >= 2
  {
    assert s[16] == s[..|BEGIN|][16] == BEGIN[16] && s[2] == s[..|BEGIN|][2] == BEGIN[2];
    assert s[e + 16] == s[e..e + |END|][16] == END[16] && s[e + 1] == s[e..e + |END|][1] == END[1];
  }

  lemma EndsLater(s: string, b: nat, n: nat)
    requires Marked(s) && b == IndexOf(BEGIN, s) && n < b + |BEGIN|
    ensures n < MarkedEnd(s)
  {
    OccursInSuffix(BEGIN, s, b, 0);
    EndNotInBegin(s[b..], IndexOf(END, s[b..]));
  }

  /** What the probe and the shown part are in terms of the stream. */
  lemma ProbeIsStream(s: string, data: string, t: string, o: nat, b: nat)
    requires o + |t| == |s| && t + data == (s + data)[o..] && o <= b <= |s + data| && b == IndexOf(BEGIN, s + data)
    ensures (t + data)[b - o..] == (s + data)[b..]
    ensures s + data[..Clip(b - o - |t|, |data|)] == Shown(s + data, |s|)
  {
    hide IndexOf;
    if b > |s| { assert (s + data)[..b] == s + data[..b - |s|]; } else { assert s + data[..0] == (s + data)[..|s|]; }
  }

  lemma RightAgrees(s: string, data: string, n: nat)
    ensures Right(Right(s, n) + data, n) == Right(s + data, n)
  {
  }

  lemma WatchingStep(st: State, s: string, data: string)
    requires Watching(st, s)
    ensures var s' := s + data; var b := IndexOf(BEGIN, s');
            || Watching(Ingest(st, data), s')
            || (&& Begun(s', |s|) && (Marked(s') ==> |s| < MarkedEnd(s'))
                && Ingest(st, data) == Settle(State(true, s'[b..], "", Shown(s', |s|), [])))
  {
    hide OccursAt, IndexOf, Settle, Shown, Clip, Marked, MarkedEnd;
    TailSuffices(BEGIN, s, data);
    RightAgrees(s, data, |BEGIN| - 1);
    var s' := s + data;
    var t := Right(s, |BEGIN| - 1);
    var b := IndexOf(BEGIN, s');
    if b >= 0 {
      BeginsInside(s', b);
      ProbeIsStream(s, data, t, |s| - |t|, b);
      if Marked(s') { EndsLater(s', b, |s|); }
    }
  }

  lemma BeginsInside(s: string, b: int)
    requires b == IndexOf(BEGIN, s) && b >= 0
    ensures b + |BEGIN| <= |s|
  {
  }

  lemma SettleStep(s: string, c: nat, y: nat)
    requires Begun(s, c) && (Marked(s) ==> y < MarkedEnd(s))
    ensures var b := IndexOf(BEGIN, s); var n := Settle(State(true, s[b..], "", Shown(s, c), []));
            || Capturing(n, s, c)
            || (Parsed(n, s, c) && |s| - b <= MAX_CAPTURE && y < MarkedEnd(s) <= |s|)
            || GivenUp(n, s, c, y, |s|)
  {
    var b := IndexOf(BEGIN, s);
    var cap := s[b..];
    var end := IndexOf(END, cap);
    if |cap| <= MAX_CAPTURE && end >= 0 {
      assert cap[end + |END|..] == s[MarkedEnd(s)..] && cap[..end + |END|] == s[b..MarkedEnd(s)];
      assert [] + [cap[..end + |END|]] == [s[b..MarkedEnd(s)]];
    } else {
      assert Shown(s, c) + s[|s|..] == Shown(s, c);
    }
  }

  lemma CapturingStep(st: State, s: string, data: string, c: nat)
    requires Capturing(st, s, c)
    ensures var s' := s + data; var b := IndexOf(BEGIN, s');
            && Begun(s', c) && (Marked(s') ==> |s| < MarkedEnd(s'))
            && Ingest(st, data) == Settle(State(true, s'[b..], "", Shown(s', c), []))
  {
    BegunStays(s, data, c);
    if Marked(s + data) { MarkedLate(s, data, c); }
  }

  lemma RestGoesOn(front: string, s: string, data: string, n: nat)
    requires n <= |s|
    ensures front + (s + data)[n..] == (front + s[n..]) + data
  {
    assert (s + data)[n..] == s[n..] + data;
  }

  /** A finished capture lets everything else through to the terminal. */
  lemma ParsedStep(st: State, s: string, data: string, c: nat)
    requires Parsed(st, s, c)
    ensures Parsed(Ingest(st, data), s + data, c) && MarkedEnd(s + data) == MarkedEnd(s)
  {
    BegunStays(s, data, c);
    MarkedStays(s, data, c);
    var b, m := IndexOf(BEGIN, s), MarkedEnd(s);
    hide IndexOf, Shown, MarkedEnd;
    RestGoesOn(Shown(s, c), s, data, m);
    assert (s + data)[b..m] == s[b..m];
  }

  lemma GivenUpStep(st: State, s: string, data: string, c: nat, y: nat, x: nat)
    requires GivenUp(st, s, c, y, x) && y <= |s|
    ensures GivenUp(Ingest(st, data), s + data, c, y, x)
  {
    BegunStays(s, data, c);
    if Marked(s) {
      MarkedStays(s, data, c);
    } else if Marked(s + data) {
      MarkedLate(s, data, c);
    }
    hide IndexOf, Shown, MarkedEnd, Marked;
    RestGoesOn(Shown(s, c), s, data, x);
  }

  /** The four ways a run can stand; `k` is the chunk that completed or broke the capture. */
  ghost predicate Tracks(chunks: seq<string>, c: nat, k: nat) {
    var st, s := Run(chunks), Concat(chunks);
    || Watching(st, s)
    || Capturing(st, s, c)
    || (&& 0 < k <= |chunks| && Parsed(st, s, c)
        && Boundary(chunks, k - 1) < MarkedEnd(s) <= Boundary(chunks, k) <= IndexOf(BEGIN, s) + MAX_CAPTURE)
    || (0 < k <= |chunks| && GivenUp(st, s, c, Boundary(chunks, k - 1), Boundary(chunks, k)))
  }

  lemma BoundaryOfInit(chunks: seq<string>, data: string, k: nat)
    requires k <= |chunks|
    ensures Boundary(chunks + [data], k) == Boundary(chunks, k)
    ensures Boundary(chunks + [data], |chunks| + 1) == |Concat(chunks) + data|
    ensures Boundary(chunks, |chunks|) == |Concat(chunks)|
  {
    assert (chunks + [data])[..k] == chunks[..k];
    assert (chunks + [data])[..|chunks| + 1] == chunks + [data] && chunks[..|chunks|] == chunks;
  }

  lemma {:induction false} BoundariesGrow(chunks: seq<string>, k: nat, n: nat)
    requires k <= n <= |chunks|
    ensures Boundary(chunks, k) <= Boundary(chunks, n) <= |Concat(chunks)|
    decreases |chunks| - k + |chunks| - n
  {
    if n < |chunks| {
      BoundariesGrow(chunks, k, n + 1);
      assert chunks[..n + 1][..n] == chunks[..n];
      if k < n { BoundariesGrow(chunks, k + 1, n); assert chunks[..k + 1][..k] == chunks[..k]; }
    } else {
      assert chunks[..n] == chunks;
      if k < n { BoundariesGrow(chunks, k + 1, n); assert chunks[..k + 1][..k] == chunks[..k]; }
    }
  }

  lemma {:induction false} RunTracks(chunks: seq<string>) returns (c: nat, k: nat)
    ensures Tracks(chunks, c, k)
    decreases |chunks|
  {
    c, k := 0, 0;
    if chunks != [] {
      var n := |chunks| - 1;
      c, k := RunTracks(chunks[..n]);
      c, k := TrackStep(chunks[..n], chunks[n], c, k);
      assert chunks[..n] + [chunks[n]] == chunks;
    }
  }

  lemma TrackStep(chunks: seq<string>, data: string, c: nat, k: nat) returns (c': nat, k': nat)
    requires Tracks(chunks, c, k)
    ensures Tracks(chunks + [data], c', k')
  {
    var st, s, n := Run(chunks), Concat(chunks), |chunks|;
    assert (chunks + [data])[..n] == chunks;
    assert Run(chunks + [data]) == Ingest(st, data) && Concat(chunks + [data]) == s + data;
    c', k' := c, k;
    BoundaryOfInit(chunks, data, n);
    if Watching(st, s) {
      WatchingStep(st, s, data);
      if !Watching(Ingest(st, data), s + data) {
        c', k' := |s|, n + 1;
        SettleStep(s + data, c', |s|);
      }
    } else if Capturing(st, s, c) {
      CapturingStep(st, s, data, c);
      k' := n + 1;
      SettleStep(s + data, c, |s|);
    } else {
      BoundaryOfInit(chunks, data, k);
      BoundaryOfInit(chunks, data, k - 1);
      BoundariesGrow(chunks, k - 1, k);
      BoundariesGrow(chunks, k, k);
      if Parsed(st, s, c) {
        ParsedStep(st, s, data, c);
        BegunStays(s, data, c);
      } else {
        GivenUpStep(st, s, data, c, Boundary(chunks, k - 1), Boundary(chunks, k));
      }
    }
  }

  /** The capture was given up at a chunk boundary more than 50000 characters after its start;
      the text up to there is lost, and the terminal goes on behind it. */
  ghost predicate Dropped(st: State, chunks: seq<string>, c: nat) {
    var s := Concat(chunks);
    exists k :: 0 <= k <= |chunks| && IndexOf(BEGIN, s) + 50000 < Boundary(chunks, k) <= |s| && c <= |s|
                && st == State(false, "", "", s[..c] + s[Boundary(chunks, k)..], [])
  }

  /** The whole story of a stream with a complete snapshot in it. The snapshot is parsed
      exactly if the first chunk boundary at or after its end is at most 50000 characters
      after its start; then, however the stream was cut, the parser got the marked text once,
      and the terminal got everything before (plus at most all but one character of the
      begin marker) and everything after it. */
  lemma CaptureIsChunkIndependent(chunks: seq<string>) returns (c: nat)
    requires Marked(Concat(chunks))
    ensures var s, st := Concat(chunks), Run(chunks); var b := IndexOf(BEGIN, s);
            && (st.parsed != [] <==>
                  exists k :: 0 <= k <= |chunks| && MarkedEnd(s) <= Boundary(chunks, k) <= b + 50000)
            && 0 <= b < MarkedEnd(s) <= |s| && b <= c < b + |BEGIN| && c <= |s|
            && (st.parsed == [] ==> Dropped(st, chunks, c))
            && (st.parsed != [] ==>
                  st == State(false, "", "", s[..c] + s[MarkedEnd(s)..], [s[b..MarkedEnd(s)]]))
  {
    var s, st := Concat(chunks), Run(chunks);
    var b := IndexOf(BEGIN, s);
    var c0, k := RunTracks(chunks);
    c := if b < 0 || c0 > b then c0 else b;
    if st.parsed != [] {
      assert Parsed(st, s, c0);
    } else {
      assert !Watching(st, s) && !Capturing(st, s, c0);
      assert GivenUp(st, s, c0, Boundary(chunks, k - 1), Boundary(chunks, k));
      forall n | 0 <= n <= |chunks| && MarkedEnd(s) <= Boundary(chunks, n)
        ensures b + MAX_CAPTURE < Boundary(chunks, n)
      {
        if n <= k - 1 { BoundariesGrow(chunks, n, k - 1); } else { BoundariesGrow(chunks, k, n); }
      }
    }
  }

  /** A stream whose snapshot is parsed if it is cut behind the end marker, and dropped if
      the text behind it comes in the same chunk. */
  lemma LongChunkLosesSnapshot()
    ensures var more := seq(MAX_CAPTURE, _ => 'x');
            && Concat([BEGIN + END, more]) == Concat([BEGIN + END + more]) && Marked(Concat([BEGIN + END + more]))
            && Run([BEGIN + END, more]).parsed != []
            && Run([BEGIN + END + more]).parsed == []
  {
    var more := seq(MAX_CAPTURE, _ => 'x');
    var s := BEGIN + END + more;
    var one, two := [s], [BEGIN + END, more];
    assert two[..1] == [BEGIN + END] && two[..2] == two && [BEGIN + END][..0] == [];
    assert one[..0] == [] && one[..1] == one;
    assert Concat([BEGIN + END]) == "" + (BEGIN + END) == BEGIN + END;
    assert Concat(one) == "" + s == s && Concat(two) == s && two[..0] == [];
    assert OccursAt(BEGIN, s, 0) by { assert s[0..|BEGIN|] == BEGIN; }
    assert OccursAt(END, s[0..], |BEGIN|) by { assert s[0..] == s && s[|BEGIN|..|BEGIN| + |END|] == END; }
    var c := CaptureIsChunkIndependent(one);
    var d := CaptureIsChunkIndependent(two);
    assert Boundary(one, 0) == 0 && Boundary(one, 1) == |s|;
    assert MarkedEnd(s) <= Boundary(two, 1) <= MAX_CAPTURE;
  }

  /** Two ways of cutting a stream that both stay within the limit parse the same text. */
  lemma CuttingDoesNotMatter(a: seq<string>, b: seq<string>)
    requires Concat(a) == Concat(b) && Run(a).parsed != [] && Run(b).parsed != []
    ensures Run(a).parsed == Run(b).parsed
  {
    var c, k := RunTracks(a);
    var d, n := RunTracks(b);
  }

  /** A stream without a complete snapshot is never parsed. Without a begin marker the
      terminal gets all of it; with one the text from there on is held, or has been dropped. */
  lemma NothingMarkedNothingParsed(chunks: seq<string>) returns (c: nat)
    requires !Marked(Concat(chunks))
    ensures Run(chunks).parsed == []
    ensures IndexOf(BEGIN, Concat(chunks)) < 0 ==> Run(chunks).terminal == Concat(chunks) && Run(chunks).busy
    ensures var s := Concat(chunks); var b := IndexOf(BEGIN, s);
            b >= 0 ==>
              && b <= c < b + |BEGIN| && c <= |s|
              && (Dropped(Run(chunks), chunks, c)
                  || (|s| - b <= 50000 && Run(chunks) == State(true, s[b..], "", s[..c], [])))
  {
    var s := Concat(chunks);
    var c0, k := RunTracks(chunks);
    c := if IndexOf(BEGIN, s) < 0 || c0 > IndexOf(BEGIN, s) then c0 else IndexOf(BEGIN, s);
    if 0 < k <= |chunks| && GivenUp(Run(chunks), s, c0, Boundary(chunks, k - 1), Boundary(chunks, k)) {
      assert Dropped(Run(chunks), chunks, c);
    }
  }

  // ---------------------------------------------------------------------------
  // The controller.
  // ---------------------------------------------------------------------------

  class AppController {
    var resourceSnapshotBusy: bool
    var resourceCapture: string
    var resourceMarkerTail: string
    var terminal: string
    var parsed: seq<string>

    ghost function View(): State
      reads this
    {
      State(resourceSnapshotBusy, resourceCapture, resourceMarkerTail, terminal, parsed)
    }

    /** A controller with a snapshot request just sent. */
    constructor ()
      ensures View() == Init()
    {
      resourceSnapshotBusy, resourceCapture, resourceMarkerTail, terminal, parsed := true, "", "", "", [];
    }

    method AppendBytes(data: string)
      modifies this`terminal
      ensures terminal == old(terminal) + data
    {
      terminal := terminal + data;
    }

    /** The snapshot parser; whatever it finds, the request is over. */
    method ParseResourceSnapshot(text: string)
      modifies this`parsed, this`resourceSnapshotBusy
      ensures parsed == old(parsed) + [text] && !resourceSnapshotBusy
    {
      parsed := parsed + [text];
      resourceSnapshotBusy := false;
    }

    /** Takes a chunk if it belongs to the snapshot; otherwise the terminal gets it. */
    method CaptureResourceOutput(data: string) returns (taken: bool)
      modifies this
      ensures View() == if taken then Ingest(old(View()), data)
                        else Ingest(old(View()), data).(terminal := old(terminal))
      ensures !taken ==> Ingest(old(View()), data).terminal == old(terminal) + data
    {
      hide IndexOf, Right, Settle;
      if !resourceSnapshotBusy { return false; }
      if resourceCapture == "" {
        var probe := resourceMarkerTail + data;
        var begin := IndexOf(BEGIN, probe);
        if begin < 0 {
          resourceMarkerTail := Right(probe, |BEGIN| - 1);
          return false;
        }
        var chunkStart := Clip(begin - |resourceMarkerTail|, |data|);
        if chunkStart > 0 { AppendBytes(data[..chunkStart]); } else { assert terminal + data[..0] == terminal; }
        resourceCapture := probe[begin..];
        resourceMarkerTail := "";
      } else {
        resourceCapture := resourceCapture + data;
      }
      taken := true;
      SettleCapture();
    }

    method SettleCapture()
      modifies this
      ensures View() == Settle(old(View()))
    {
      if |resourceCapture| > MAX_CAPTURE {
        resourceSnapshotBusy := false;
        resourceCapture, resourceMarkerTail := "", "";
        return;
      }
      var end := IndexOf(END, resourceCapture);
      if end >= 0 {
        var capturedEnd := end + |END|;
        var captured, trailing := resourceCapture[..capturedEnd], resourceCapture[capturedEnd..];
        resourceCapture, resourceMarkerTail := "", "";
        ParseResourceSnapshot(captured);
        if trailing != "" { AppendBytes(trailing); }
      }
    }

    /** The data events of a batch. */
    method IngestData(chunks: seq<string>, ghost before: seq<string>)
      requires View() == Run(before)
      modifies this
      ensures View() == Run(before + chunks)
    {
      assert before + chunks[..0] == before;
      for i := 0 to |chunks|
        invariant View() == Run(before + chunks[..i])
      {
        assert before + chunks[..i + 1] == before + chunks[..i] + [chunks[i]];
        assert (before + chunks[..i + 1])[..|before| + i] == before + chunks[..i];
        var taken := CaptureResourceOutput(chunks[i]);
        if !taken { AppendBytes(chunks[i]); }
      }
      assert before + chunks[..|chunks|] == before + chunks;
    }
  }
}
