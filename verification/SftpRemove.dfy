/** Recursive removal over SFTP (rust-core/src/providers/russh.rs) against a model of the
    server's file tree with symbolic links. */
module SftpRemove {
  import opened Wrappers

  /** A canonical location: the names from the root down. */
  type Loc = seq<string>

  /** A path as written, cut at its slashes; "" components come from doubled or trailing
      slashes. */
  datatype Path = Path(absolute: bool, parts: seq<string>)

  datatype Entry = Dir | File | Other | Link(target: Path)

  type Tree = map<Loc, Entry>

  /** How many links one lookup may follow. */
  const MAX_LINKS: nat := 40

  predicate Proper(name: string) { name != "" && name != "." && name != ".." && '/' !in name }

  function Parent(l: Loc): Loc { if l == [] then [] else l[..|l| - 1] }

  predicate IsDir(t: Tree, l: Loc) { l in t && t[l] == Dir }

  /** Every entry but the root has a proper name and sits in a directory. */
  ghost predicate WellFormed(t: Tree) {
    IsDir(t, []) && forall l {:trigger Parent(l)} | l in t && l != [] :: Proper(l[|l| - 1]) && IsDir(t, Parent(l))
  }

  // ---------------------------------------------------------------------------
  // Path lookup on the server.
  // ---------------------------------------------------------------------------

  datatype Found = Found(at: Loc, links: nat)

  /** Looks `parts` up from `at`. Links on the way are followed, the last one only if
      `follow`; a component after it makes it one on the way. */
  function Walk(t: Tree, at: Loc, parts: seq<string>, follow: bool, links: nat): Option<Found>
    decreases links, |parts|
  {
    if parts == [] then Some(Found(at, links))
    else if !IsDir(t, at) then None
    else
      var c, rest := parts[0], parts[1..];
      if c == "" || c == "." then Walk(t, at, rest, follow, links)
      else if c == ".." then Walk(t, Parent(at), rest, follow, links)
      else if at + [c] !in t then None
      else
        var e := t[at + [c]];
        if e.Link? && (rest != [] || follow) then
          if links == 0 then None
          else Walk(t, if e.target.absolute then [] else at, e.target.parts + rest, follow, links - 1)
        else Walk(t, at + [c], rest, follow, links)
  }

  /** The entry a path denotes, for a server whose working directory is `cwd`. */
  function Lookup(t: Tree, cwd: Loc, p: Path, follow: bool): (r: Option<Loc>)
    ensures r.Some? ==> r.value in t
  {
    var w := Walk(t, if p.absolute then [] else cwd, p.parts, follow, MAX_LINKS);
    if w.Some? && w.value.at in t then Some(w.value.at) else None
  }

  /** Where names, dots and links lead, from a directory. */
  lemma WalkIs(t: Tree, at: Loc, c: string, rest: seq<string>, follow: bool, links: nat)
    requires WellFormed(t) && IsDir(t, at) && Proper(c)
    ensures Walk(t, at, ["."] + rest, follow, links) == Walk(t, at, [""] + rest, follow, links)
         == Walk(t, at, rest, follow, links)
    ensures IsDir(t, at + [c]) ==>
              && Walk(t, at, [c, ".."] + rest, follow, links) == Walk(t, at, rest, follow, links)
              && Walk(t, at, [c], follow, links) == Some(Found(at + [c], links))
    ensures Walk(t, [], [".."] + rest, follow, links) == Walk(t, [], rest, follow, links)
    ensures at + [c] !in t ==> Walk(t, at, [c] + rest, follow, links).None?
    ensures at + [c] in t && t[at + [c]].Link? ==>
              && Walk(t, at, [c], false, links) == Some(Found(at + [c], links))
              && (links == 0 ==> Walk(t, at, [c] + rest, true, links).None?)
              && var to := t[at + [c]].target;
                 && (links > 0 && to.absolute ==>
                       Walk(t, at, [c] + rest, true, links) == Walk(t, [], to.parts + rest, true, links - 1))
                 && (links > 0 && !to.absolute ==>
                       Walk(t, at, [c] + rest, true, links) == Walk(t, at, to.parts + rest, true, links - 1))
  {
    forall a: string, b: seq<string> ensures ([a] + b)[0] == a && ([a] + b)[1..] == b {}
    assert [c, ".."] + rest == [c] + ([".."] + rest);
    assert [c] == [c] + [] && Parent(at + [c]) == at;
    assert IsDir(t, at + [c]) ==>
        Walk(t, at, [c] + ([".."] + rest), follow, links) == Walk(t, at + [c], [".."] + rest, follow, links);
  }

  /** Looking up `a + b` is looking up `a`, links and all, and going on from there. */
  lemma {:induction false} WalkAppend(t: Tree, at: Loc, a: seq<string>, b: seq<string>, follow: bool, links: nat)
    requires b != []
    ensures var w := Walk(t, at, a, true, links);
            Walk(t, at, a + b, follow, links) ==
              if w.None? then None else Walk(t, w.value.at, b, follow, w.value.links)
    decreases links, |a|
  {
    if a == [] {
      assert a + b == b;
    } else if IsDir(t, at) {
      var c, rest := a[0], a[1..];
      assert (a + b)[0] == c && (a + b)[1..] == rest + b;
      if c == "" || c == "." {
        WalkAppend(t, at, rest, b, follow, links);
      } else if c == ".." {
        WalkAppend(t, Parent(at), rest, b, follow, links);
      } else if at + [c] in t {
        var e := t[at + [c]];
        if e.Link? {
          if links > 0 {
            assert e.target.parts + (rest + b) == (e.target.parts + rest) + b;
            WalkAppend(t, if e.target.absolute then [] else at, e.target.parts + rest, b, follow, links - 1);
          }
        } else {
          WalkAppend(t, at + [c], rest, b, follow, links);
        }
      }
    }
  }

  /** `small` lacks some entries of `big`. */
  ghost predicate Fewer(small: Tree, big: Tree) {
    forall l | l in small :: l in big && small[l] == big[l]
  }

  /** Deleting entries never makes a path denote something else. */
  lemma {:induction false} FewerFinds(small: Tree, big: Tree, at: Loc, parts: seq<string>, follow: bool, links: nat)
    requires Fewer(small, big)
    ensures var w := Walk(small, at, parts, follow, links);
            w.Some? ==> w == Walk(big, at, parts, follow, links)
    decreases links, |parts|
  {
    if parts != [] && IsDir(small, at) {
      var c, rest := parts[0], parts[1..];
      if c == "" || c == "." {
        FewerFinds(small, big, at, rest, follow, links);
      } else if c == ".." {
        FewerFinds(small, big, Parent(at), rest, follow, links);
      } else if at + [c] in small {
        var e := small[at + [c]];
        if e.Link? && (rest != [] || follow) {
          if links > 0 {
            FewerFinds(small, big, if e.target.absolute then [] else at, e.target.parts + rest, follow, links - 1);
          }
        } else {
          FewerFinds(small, big, at + [c], rest, follow, links);
        }
      }
    }
  }

  /** Where a lookup ends at something other than a link, following links changes nothing. */
  lemma {:induction false} FollowingIsMoot(t: Tree, at: Loc, parts: seq<string>, links: nat)
    requires var w := Walk(t, at, parts, false, links); w.Some? && !(w.value.at in t && t[w.value.at].Link?)
    ensures Walk(t, at, parts, true, links) == Walk(t, at, parts, false, links)
    ensures Visits(t, at, parts, true, links) == Visits(t, at, parts, false, links)
    decreases links, |parts|
  {
    if parts != [] {
      var c, rest := parts[0], parts[1..];
      if c == "" || c == "." {
        FollowingIsMoot(t, at, rest, links);
      } else if c == ".." {
        FollowingIsMoot(t, Parent(at), rest, links);
      } else {
        var e := t[at + [c]];
        if e.Link? && rest != [] {
          FollowingIsMoot(t, if e.target.absolute then [] else at, e.target.parts + rest, links - 1);
        } else {
          FollowingIsMoot(t, at + [c], rest, links);
        }
      }
    }
  }

  /** The entries a lookup depends on, its end among them. */
  function Visits(t: Tree, at: Loc, parts: seq<string>, follow: bool, links: nat): set<Loc>
    decreases links, |parts|
  {
    if parts == [] || !IsDir(t, at) then {at}
    else
      var c, rest := parts[0], parts[1..];
      if c == "" || c == "." then Visits(t, at, rest, follow, links)
      else if c == ".." then {at} + Visits(t, Parent(at), rest, follow, links)
      else if at + [c] !in t then {at}
      else
        var e := t[at + [c]];
        if e.Link? && (rest != [] || follow) then
          if links == 0 then {at}
          else
            {at, at + [c]}
            + Visits(t, if e.target.absolute then [] else at, e.target.parts + rest, follow, links - 1)
        else {at} + Visits(t, at + [c], rest, follow, links)
  }

  lemma {:induction false} VisitedExist(t: Tree, at: Loc, parts: seq<string>, follow: bool, links: nat)
    requires var w := Walk(t, at, parts, follow, links); w.Some? && w.value.at in t
    ensures Visits(t, at, parts, follow, links) <= t.Keys
    ensures Walk(t, at, parts, follow, links).value.at in Visits(t, at, parts, follow, links)
    decreases links, |parts|
  {
    if parts != [] {
      var c, rest := parts[0], parts[1..];
      if c == "" || c == "." {
        VisitedExist(t, at, rest, follow, links);
      } else if c == ".." {
        VisitedExist(t, Parent(at), rest, follow, links);
      } else {
        var e := t[at + [c]];
        if e.Link? && (rest != [] || follow) {
          VisitedExist(t, if e.target.absolute then [] else at, e.target.parts + rest, follow, links - 1);
        } else {
          VisitedExist(t, at + [c], rest, follow, links);
        }
      }
    }
  }

  /** After deletions a path is still found if and only if all its lookup depends on is
      there. */
  lemma {:induction false} FoundIffVisitedStay(small: Tree, big: Tree, at: Loc, parts: seq<string>, follow: bool,
                                               links: nat)
    requires Fewer(small, big) && var w := Walk(big, at, parts, follow, links); w.Some? && w.value.at in big
    ensures var w, v := Walk(small, at, parts, follow, links), Visits(big, at, parts, follow, links);
            && (w.Some? && w.value.at in small <==> v <= small.Keys)
            && (v <= small.Keys ==>
                  w == Walk(big, at, parts, follow, links) && Visits(small, at, parts, follow, links) == v)
    decreases links, |parts|
  {
    VisitedExist(big, at, parts, follow, links);
    if parts != [] {
      var c, rest := parts[0], parts[1..];
      if c == "" || c == "." {
        FoundIffVisitedStay(small, big, at, rest, follow, links);
        BeginVisited(big, at, rest, follow, links);
      } else if c == ".." {
        FoundIffVisitedStay(small, big, Parent(at), rest, follow, links);
      } else {
        var e := big[at + [c]];
        if e.Link? && (rest != [] || follow) {
          var from := if e.target.absolute then [] else at;
          FoundIffVisitedStay(small, big, from, e.target.parts + rest, follow, links - 1);
        } else {
          FoundIffVisitedStay(small, big, at + [c], rest, follow, links);
          BeginVisited(big, at + [c], rest, follow, links);
        }
      }
    }
  }

  lemma {:induction false} BeginVisited(t: Tree, at: Loc, parts: seq<string>, follow: bool, links: nat)
    ensures at in Visits(t, at, parts, follow, links)
    decreases |parts|
  {
    if parts != [] && IsDir(t, at) && (parts[0] == "" || parts[0] == ".") {
      BeginVisited(t, at, parts[1..], follow, links);
    }
  }

  lemma {:induction false} VisitsAppend(t: Tree, at: Loc, a: seq<string>, b: seq<string>, follow: bool, links: nat)
    requires b != [] && Walk(t, at, a, true, links).Some?
    ensures var w := Walk(t, at, a, true, links).value;
            Visits(t, at, a + b, follow, links) == Visits(t, at, a, true, links) + Visits(t, w.at, b, follow, w.links)
    decreases links, |a|
  {
    if a == [] {
      assert a + b == b;
      BeginVisited(t, at, b, follow, links);
    } else {
      var c, rest := a[0], a[1..];
      assert (a + b)[0] == c && (a + b)[1..] == rest + b;
      if c == "" || c == "." {
        VisitsAppend(t, at, rest, b, follow, links);
      } else if c == ".." {
        VisitsAppend(t, Parent(at), rest, b, follow, links);
      } else {
        var e := t[at + [c]];
        if e.Link? {
          assert e.target.parts + (rest + b) == (e.target.parts + rest) + b;
          VisitsAppend(t, if e.target.absolute then [] else at, e.target.parts + rest, b, follow, links - 1);
        } else {
          VisitsAppend(t, at + [c], rest, b, follow, links);
        }
      }
    }
  }

  // ---------------------------------------------------------------------------
  // Paths as the provider builds them.
  // ---------------------------------------------------------------------------

  function TrimSlashes(parts: seq<string>): (r: seq<string>)
    ensures r <= parts && forall i | |r| <= i < |parts| :: parts[i] == ""
  {
    if parts != [] && parts[|parts| - 1] == "" then TrimSlashes(parts[..|parts| - 1]) else parts
  }

  function JoinPath(dir: Path, more: seq<string>): Path {
    Path(dir.absolute, TrimSlashes(dir.parts) + more)
  }

  /** Empty components go nowhere, in a directory. */
  lemma {:induction false} BlankGoesNowhere(t: Tree, at: Loc, parts: seq<string>, follow: bool, links: nat)
    requires forall i | 0 <= i < |parts| :: parts[i] == ""
    ensures Walk(t, at, parts, follow, links) == if parts == [] || IsDir(t, at) then Some(Found(at, links)) else None
    ensures Visits(t, at, parts, follow, links) == {at}
    decreases |parts|
  {
    if parts != [] && IsDir(t, at) { BlankGoesNowhere(t, at, parts[1..], follow, links); }
  }

  /** If `dir` denotes a directory, `dir` joined with `more` is looked up from there. */
  lemma JoinedWalk(t: Tree, at: Loc, parts: seq<string>, more: seq<string>, follow: bool, links: nat)
    requires more != [] && var w := Walk(t, at, parts, false, links); w.Some? && IsDir(t, w.value.at)
    ensures var w := Walk(t, at, parts, false, links).value;
            Walk(t, at, TrimSlashes(parts) + more, follow, links) == Walk(t, w.at, more, follow, w.links)
  {
    var trimmed := TrimSlashes(parts);
    var blanks := parts[|trimmed|..];
    assert parts == trimmed + blanks;
    FollowingIsMoot(t, at, parts, links);
    if blanks == [] {
      assert parts == trimmed;
    } else {
      WalkAppend(t, at, trimmed, blanks, true, links);
      var w := Walk(t, at, trimmed, true, links);
      BlankGoesNowhere(t, w.value.at, blanks, true, w.value.links);
    }
    WalkAppend(t, at, trimmed, more, follow, links);
  }

  /** And the lookup of a child depends on the child besides what its directory's does. */
  lemma JoinedVisits(t: Tree, at: Loc, parts: seq<string>, name: string, links: nat)
    requires var w := Walk(t, at, parts, false, links); w.Some? && IsDir(t, w.value.at) && w.value.at + [name] in t
    requires Proper(name)
    ensures Visits(t, at, TrimSlashes(parts) + [name], false, links)
         == Visits(t, at, parts, false, links) + {Walk(t, at, parts, false, links).value.at + [name]}
  {
    var trimmed := TrimSlashes(parts);
    var blanks := parts[|trimmed|..];
    assert parts == trimmed + blanks;
    FollowingIsMoot(t, at, parts, links);
    if blanks == [] {
      assert parts == trimmed;
    } else {
      WalkAppend(t, at, trimmed, blanks, true, links);
      var w := Walk(t, at, trimmed, true, links);
      BlankGoesNowhere(t, w.value.at, blanks, true, w.value.links);
      VisitsAppend(t, at, trimmed, blanks, true, links);
    }
    var w := Walk(t, at, trimmed, true, links).value;
    VisitedExist(t, at, trimmed, true, links);
    VisitsAppend(t, at, trimmed, [name], false, links);
    assert [name][1..] == [];
  }

  /** The empty path and "." mean the home directory; other relative paths start there. */
  function Resolved(home: Path, p: Path): Path {
    if p == Path(false, []) || p == Path(false, ["."]) then home
    else if p.absolute then p
    else JoinPath(home, p.parts)
  }

  /** `canonicalize(".")` gave the working directory, or failed. */
  predicate HomeOk(home: Path, cwd: Loc) { home == Path(true, cwd) || home == Path(false, ["."]) }

  /** What is left of the way to the working directory is made of directories. */
  ghost predicate CwdOk(t: Tree, cwd: Loc) {
    && (forall i | 0 <= i < |cwd| :: Proper(cwd[i]))
    && (forall i | 0 <= i <= |cwd| :: cwd[..i] in t ==> IsDir(t, cwd[..i]))
  }

  lemma {:induction false} WalkToCwd(t: Tree, cwd: Loc, n: nat, follow: bool, links: nat)
    requires WellFormed(t) && CwdOk(t, cwd) && n <= |cwd| && (cwd[..n] in t || n == 0)
    ensures Walk(t, cwd[..n], cwd[n..], follow, links) == if cwd in t then Some(Found(cwd, links)) else None
    decreases |cwd| - n
  {
    assert cwd[..0] == [] && cwd[..|cwd|] == cwd;
    if n < |cwd| {
      assert cwd[..n] + [cwd[n]] == cwd[..n + 1] && cwd[n..][1..] == cwd[n + 1..];
      if cwd[..n + 1] in t {
        WalkToCwd(t, cwd, n + 1, follow, links);
      } else if cwd in t {
        AncestorsExist(t, cwd, n + 1);
      }
    } else {
      assert cwd[n..] == [];
    }
  }

  lemma {:induction false} AncestorsExist(t: Tree, l: Loc, n: nat)
    requires WellFormed(t) && l in t && n <= |l|
    ensures l[..n] in t && (n < |l| ==> IsDir(t, l[..n]))
    decreases |l|
  {
    if n < |l| {
      AncestorsExist(t, Parent(l), n);
      assert Parent(l)[..n] == l[..n];
    } else {
      assert l[..n] == l;
    }
  }

  /** The path with "" read as "."; relative to the working directory, it is the same
      place as the resolved one. */
  function AsWritten(p: Path): Path { if p == Path(false, []) then Path(false, ["."]) else p }

  /** A string cut at its slashes is absolute, empty, or starts with a non-empty part. */
  predicate Written(p: Path) { p.absolute || p.parts == [] || p.parts[0] != "" }

  lemma ResolvingStaysPut(t: Tree, cwd: Loc, home: Path, p: Path, follow: bool)
    requires WellFormed(t) && CwdOk(t, cwd) && HomeOk(home, cwd)
    ensures Lookup(t, cwd, Resolved(home, p), follow) == Lookup(t, cwd, AsWritten(p), follow)
  {
    assert cwd[..0] == [] && cwd[0..] == cwd && cwd[..|cwd|] == cwd;
    WalkToCwd(t, cwd, 0, follow, MAX_LINKS);
    WalkToCwd(t, cwd, 0, true, MAX_LINKS);
    if !p.absolute && p.parts != [] {
      WalkAppend(t, [], cwd, p.parts, follow, MAX_LINKS);
      assert (["."] + p.parts)[1..] == p.parts;
      ProperTrim(cwd);
    }
  }

  lemma ProperTrim(cwd: Loc)
    requires forall i | 0 <= i < |cwd| :: Proper(cwd[i])
    ensures TrimSlashes(cwd) == cwd
  {
  }

  // ---------------------------------------------------------------------------
  // What a removal may do.
  // ---------------------------------------------------------------------------

  /** Entries disappear only at or below `loc`. */
  ghost predicate OnlyBelow(before: Tree, after: Tree, loc: Option<Loc>) {
    && Fewer(after, before)
    && forall l | l in before && l !in after :: loc.Some? && loc.value <= l
  }

  ghost predicate ChildlessIn(t: Tree, loc: Loc) {
    forall l | l in t && l != [] :: Parent(l) != loc
  }

  ghost function Doomed(t: Tree, loc: Option<Loc>): set<Loc> {
    set l | l in t && loc.Some? && loc.value <= l
  }

  /** With no children there is nothing below. */
  lemma {:induction false} ChildlessIsBare(t: Tree, loc: Loc, l: Loc)
    requires WellFormed(t) && ChildlessIn(t, loc) && l in t && loc <= l
    ensures l == loc
    decreases |l|
  {
    if l != loc {
      assert loc <= Parent(l);
      ChildlessIsBare(t, loc, Parent(l));
    }
  }

  lemma RemovingLeaf(t: Tree, loc: Loc, cwd: Loc)
    requires WellFormed(t) && CwdOk(t, cwd) && loc in t && loc != [] && ChildlessIn(t, loc)
    ensures WellFormed(t - {loc}) && CwdOk(t - {loc}, cwd)
  {
  }

  /** A file or link has no children. */
  lemma NotDirIsChildless(t: Tree, loc: Loc)
    requires WellFormed(t) && loc in t && t[loc] != Dir
    ensures ChildlessIn(t, loc)
  {
    forall l | l in t && l != [] ensures Parent(l) != loc { assert IsDir(t, Parent(l)); }
  }

  /** Removing entries below a directory never changes what its path denotes. */
  lemma StillThere(before: Tree, after: Tree, cwd: Loc, p: Path, follow: bool)
    requires Fewer(after, before)
    ensures Lookup(after, cwd, p, follow).Some? ==> Lookup(after, cwd, p, follow) == Lookup(before, cwd, p, follow)
  {
    FewerFinds(after, before, if p.absolute then [] else cwd, p.parts, follow, MAX_LINKS);
  }

  /** A child's path denotes the child. */
  lemma ChildPath(t: Tree, cwd: Loc, dir: Path, name: string)
    requires Proper(name) && var d := Lookup(t, cwd, dir, false); d.Some? && IsDir(t, d.value)
    ensures var c := Lookup(t, cwd, dir, false).value + [name];
            Lookup(t, cwd, JoinPath(dir, [name]), false) == if c in t then Some(c) else None
  {
    JoinedWalk(t, if dir.absolute then [] else cwd, dir.parts, [name], false, MAX_LINKS);
  }

  /** `parts` leads from `at` to `loc` through directories alone, without links or dots. */
  ghost predicate Steady(t: Tree, at: Loc, parts: seq<string>, loc: Loc)
    decreases |parts|
  {
    if parts == [] then at == loc
    else
      && IsDir(t, at)
      && (parts[0] == "" || Proper(parts[0]))
      && Steady(t, if parts[0] == "" then at else at + [parts[0]], parts[1..], loc)
  }

  lemma {:induction false} SteadyWalk(t: Tree, at: Loc, parts: seq<string>, loc: Loc, links: nat)
    requires Steady(t, at, parts, loc) && loc in t && WellFormed(t)
    ensures at <= loc && Walk(t, at, parts, false, links) == Some(Found(loc, links))
    ensures forall v | v in Visits(t, at, parts, false, links) :: v <= loc
    ensures forall i | 0 <= i < |parts| :: parts[i] == "" || Proper(parts[i])
    decreases |parts|
  {
    if parts != [] {
      var next := if parts[0] == "" then at else at + [parts[0]];
      SteadyWalk(t, next, parts[1..], loc, links);
      AncestorsExist(t, loc, |next|);
      assert loc[..|next|] == next;
      if parts[1..] != [] { assert IsDir(t, next); }
      forall i | 0 < i < |parts| ensures parts[i] == "" || Proper(parts[i]) {
        assert parts[1..][i - 1] == parts[i];
      }
    }
  }

  method InAnyOrder(s: set<string>) returns (r: seq<string>)
    ensures forall n :: n in r <==> n in s
    ensures forall i, j | 0 <= i < j < |r| :: r[i] != r[j]
  {
    r := [];
    var rest := s;
    while rest != {}
      invariant forall n :: n in s <==> n in r || n in rest
      invariant forall n | n in r :: n !in rest
      invariant forall i, j | 0 <= i < j < |r| :: r[i] != r[j]
      decreases rest
    {
      var n :| n in rest;
      r, rest := r + [n], rest - {n};
    }
  }

  /** The server. Any request may be refused, unless the server is `reliable`. */
  class SftpServer {
    var tree: Tree
    const cwd: Loc
    const reliable: bool

    constructor (tree: Tree, cwd: Loc, reliable: bool)
      ensures this.tree == tree && this.cwd == cwd && this.reliable == reliable
    {
      this.tree, this.cwd, this.reliable := tree, cwd, reliable;
    }

    ghost predicate Valid()
      reads this`tree
    {
      WellFormed(tree) && CwdOk(tree, cwd)
    }

    method Refuses() returns (refused: bool)
      ensures reliable ==> !refused
    {
      refused := *;
      if reliable { refused := false; }
    }

    /** REALPATH of the working directory. */
    method Canonicalize() returns (r: Option<Path>)
      ensures r.Some? ==> r.value == Path(true, cwd)
      ensures reliable && cwd in tree ==> r.Some?
    {
      var refused := Refuses();
      if refused || cwd !in tree { return None; }
      r := Some(Path(true, cwd));
    }

    /** LSTAT. */
    method SymlinkMetadata(p: Path) returns (r: Option<Entry>)
      ensures r.Some? ==> Lookup(tree, cwd, p, false).Some? && r.value == tree[Lookup(tree, cwd, p, false).value]
      ensures reliable && Lookup(tree, cwd, p, false).Some? ==> r.Some?
    {
      var refused := Refuses();
      var at := Lookup(tree, cwd, p, false);
      if refused || at.None? { return None; }
      r := Some(tree[at.value]);
    }

    /** The names in a directory, in any order; "." and ".." may be among them. */
    method ReadDir(p: Path) returns (r: Option<seq<string>>)
      requires Valid()
      ensures r.Some? ==>
                var at := Lookup(tree, cwd, p, true);
                at.Some? && IsDir(tree, at.value) && Lists(r.value, tree, at.value)
      ensures reliable && Lookup(tree, cwd, p, true).Some? && IsDir(tree, Lookup(tree, cwd, p, true).value) ==> r.Some?
    {
      var refused := Refuses();
      var at := Lookup(tree, cwd, p, true);
      if refused || at.None? || tree[at.value] != Dir { return None; }
      var loc := at.value;
      var names := InAnyOrder(KidNames(tree, at.value));
      KidNamesAre(tree, at.value, ".");
      r := Some(["."] + names);
    }

    /** RMDIR: only an empty directory, and not by way of "." or "..". */
    method RemoveDir(p: Path) returns (ok: bool)
      requires Valid()
      modifies this`tree
      ensures Valid()
      ensures !ok ==> tree == old(tree)
      ensures ok ==> var at := Lookup(old(tree), cwd, p, false);
                && at.Some? && at.value != [] && old(IsDir(tree, at.value)) && old(ChildlessIn(tree, at.value))
                && !EndsInDots(p) && tree == old(tree) - {at.value}
      ensures reliable ==> var at := Lookup(old(tree), cwd, p, false);
                (at.Some? && at.value != [] && old(IsDir(tree, at.value)) && old(ChildlessIn(tree, at.value))
                 && !EndsInDots(p)) ==> ok
    {
      var refused := Refuses();
      var at := Lookup(tree, cwd, p, false);
      if refused || EndsInDots(p) || at.None? || at.value == [] || tree[at.value] != Dir { return false; }
      var kids := set l | l in tree && l != [] && Parent(l) == at.value;
      if kids != {} {
        assert exists l :: l in kids;
        return false;
      }
      assert forall l | l in tree && l != [] && Parent(l) == at.value :: l in kids;
      RemovingLeaf(tree, at.value, cwd);
      tree := tree - {at.value};
      ok := true;
    }

    /** REMOVE: unlinks anything but a directory, a link itself included. */
    method RemoveFile(p: Path) returns (ok: bool)
      requires Valid()
      modifies this`tree
      ensures Valid()
      ensures !ok ==> tree == old(tree)
      ensures ok ==> var at := Lookup(old(tree), cwd, p, false);
                at.Some? && !old(IsDir(tree, at.value)) && tree == old(tree) - {at.value}
      ensures reliable ==> var at := Lookup(old(tree), cwd, p, false);
                at.Some? && !old(IsDir(tree, at.value)) ==> ok
    {
      var refused := Refuses();
      var at := Lookup(tree, cwd, p, false);
      if refused || at.None? || tree[at.value] == Dir { return false; }
      NotDirIsChildless(tree, at.value);
      RemovingLeaf(tree, at.value, cwd);
      tree := tree - {at.value};
      ok := true;
    }
  }

  /** The names of the children of `loc`. */
  function KidNames(t: Tree, loc: Loc): set<string> {
    set l | l in t && l != [] && Parent(l) == loc :: l[|l| - 1]
  }

  lemma KidNamesAre(t: Tree, loc: Loc, n: string)
    requires WellFormed(t)
    ensures n in KidNames(t, loc) <==> Proper(n) && loc + [n] in t
  {
    if n in KidNames(t, loc) {
      var l :| l in t && l != [] && Parent(l) == loc && l[|l| - 1] == n;
      assert loc + [n] == l;
    }
    if loc + [n] in t { assert Parent(loc + [n]) == loc; }
  }

  /** `names` are the children of `loc`, once each, and perhaps "." and "..". */
  ghost predicate Lists(names: seq<string>, t: Tree, loc: Loc) {
    && (forall i | 0 <= i < |names| :: names[i] == "." || names[i] == ".." || names[i] in KidNames(t, loc))
    && (forall i, j | 0 <= i < j < |names| :: names[i] != names[j])
    && (forall n | n in KidNames(t, loc) :: n in names)
  }

  predicate EndsInDots(p: Path) {
    var r := TrimSlashes(p.parts);
    r != [] && (r[|r| - 1] == "." || r[|r| - 1] == "..")
  }

  /** Everything at or below the place is gone; unless `recursive` it was one entry. */
  ghost predicate Emptied(before: Tree, after: Tree, loc: Option<Loc>, recursive: bool) {
    && loc.Some?
    && (forall l | l in after :: !(loc.value <= l))
    && (!recursive ==> forall l | l in before && loc.value <= l :: l == loc.value)
  }

  ghost predicate AtMostOne(before: Tree, after: Tree) {
    forall a, b | a in before && a !in after && b in before && b !in after :: a == b
  }

  /** A completed removal takes exactly the entries at or below the place. */
  lemma RemovalIsExact(before: Tree, after: Tree, loc: Loc, recursive: bool)
    requires OnlyBelow(before, after, Some(loc)) && Emptied(before, after, Some(loc), recursive)
    ensures after == before - Doomed(before, Some(loc))
    ensures !recursive && loc in before ==> after == before - {loc}
  {
    var d := Doomed(before, Some(loc));
    assert forall l :: l in after <==> l in before && l !in d;
    if !recursive && loc in before { assert d == {loc}; }
  }

  function Trimmed(p: Path): Path { Path(p.absolute, TrimSlashes(p.parts)) }

  /** A path whose last name is that of a link denotes the link if and only if no slash
      follows; with one it denotes the directory the link leads to, if any. */
  lemma SlashLeavesLink(t: Tree, cwd: Loc, p: Path, loc: Loc)
    requires Lookup(t, cwd, Trimmed(p), false) == Some(loc) && t[loc].Link?
    ensures Lookup(t, cwd, p, false) == Some(loc) <==> p == Trimmed(p)
    ensures p != Trimmed(p) ==>
              var target := Lookup(t, cwd, Trimmed(p), true);
              Lookup(t, cwd, p, false) == if target.Some? && IsDir(t, target.value) then target else None
  {
    var trimmed := TrimSlashes(p.parts);
    var blanks := p.parts[|trimmed|..];
    assert p.parts == trimmed + blanks;
    if blanks != [] {
      var at := if p.absolute then [] else cwd;
      WalkAppend(t, at, trimmed, blanks, false, MAX_LINKS);
      var w := Walk(t, at, trimmed, true, MAX_LINKS);
      if w.Some? { BlankGoesNowhere(t, w.value.at, blanks, false, w.value.links); }
    } else {
      assert p.parts == trimmed;
    }
  }

  /** Removing by the name of a link, no slash behind it, spares its target and everything
      else. */
  lemma LinkTargetSpared(before: Tree, after: Tree, cwd: Loc, p: Path, loc: Loc)
    requires WellFormed(before) && Lookup(before, cwd, Trimmed(p), false) == Some(loc) && before[loc].Link?
    requires p == Trimmed(p) && OnlyBelow(before, after, Lookup(before, cwd, p, false))
    ensures forall l | l in before && l != loc :: l in after && after[l] == before[l]
  {
    NotDirIsChildless(before, loc);
    forall l | l in before && l != loc ensures l in after {
      if loc <= l { ChildlessIsBare(before, loc, l); }
    }
  }

  /** With a slash behind it the target is what a removal is about. */
  lemma SlashEntersTarget()
    ensures var t := map[[] := Dir, ["d"] := Dir, ["l"] := Link(Path(true, ["d"]))];
            Lookup(t, [], Path(true, ["l"]), false) == Some(["l"])
            && Lookup(t, [], Path(true, ["l", ""]), false) == Some(["d"])
  {
    var t := map[[] := Dir, ["d"] := Dir, ["l"] := Link(Path(true, ["d"]))];
    assert ["l"][1..] == [] && ["l", ""][1..] == [""] && [""][1..] == [] && ["d"] + [""] == ["d", ""];
    assert ["d", ""][1..] == [""] && [] + ["l"] == ["l"] && [] + ["d"] == ["d"];
    assert ["l"] != ["d"] by { assert ["l"][0] != ["d"][0]; }
    assert Walk(t, [], ["d", ""], false, MAX_LINKS - 1) == Walk(t, ["d"], [""], false, MAX_LINKS - 1);
    assert Walk(t, ["d"], [""], false, MAX_LINKS - 1) == Some(Found(["d"], MAX_LINKS - 1));
  }

  /** The lookup depends on nothing strictly below where it ends. */
  ghost predicate PathClear(t: Tree, parts: seq<string>, loc: Loc) {
    forall v | v in Visits(t, [], parts, false, MAX_LINKS) && loc <= v :: v == loc
  }

  /** What a server refusing nothing can remove. A directory must not be the root, not be
      named by way of "." or "..", be bare unless the removal is recursive, and its path must
      not run through what is below it. */
  ghost predicate Removable(t: Tree, cwd: Loc, path: Path, recursive: bool) {
    var p := Resolved(Path(true, cwd), path);
    var at := Lookup(t, cwd, p, false);
    && (path.absolute || cwd in t) && at.Some?
    && (IsDir(t, at.value) ==>
          && at.value != [] && !EndsInDots(p) && (recursive || ChildlessIn(t, at.value))
          && PathClear(t, p.parts, at.value))
  }

  /** A plain path, without links and dots, is no obstacle. */
  lemma PlainPathIsRemovable(t: Tree, cwd: Loc, p: Path, loc: Loc, recursive: bool)
    requires WellFormed(t) && p.absolute && loc in t && loc != [] && Steady(t, [], p.parts, loc)
    requires recursive || ChildlessIn(t, loc)
    ensures Removable(t, cwd, p, recursive)
  {
    SteadyWalk(t, [], p.parts, loc, MAX_LINKS);
  }

  /** A directory whose path runs through a link inside it cannot be removed by that path. */
  lemma PathThroughItself()
    ensures var t := map[[] := Dir, ["d"] := Dir, ["d", "l"] := Link(Path(true, []))];
            && Lookup(t, [], Path(true, ["d", "l", "d"]), false) == Some(["d"])
            && !Removable(t, [], Path(true, ["d", "l", "d"]), true)
  {
    var t := map[[] := Dir, ["d"] := Dir, ["d", "l"] := Link(Path(true, []))];
    var p := ["d", "l", "d"];
    assert p[1..] == ["l", "d"] && ["l", "d"][1..] == ["d"] && ["d"][1..] == [] && [] + ["d"] == ["d"];
    assert ["d"] + ["l"] == ["d", "l"];
    assert Walk(t, [], p, false, MAX_LINKS) == Walk(t, ["d"], ["l", "d"], false, MAX_LINKS);
    assert Walk(t, ["d"], ["l", "d"], false, MAX_LINKS) == Walk(t, [], ["d"], false, MAX_LINKS - 1);
    assert Walk(t, [], ["d"], false, MAX_LINKS - 1) == Some(Found(["d"], MAX_LINKS - 1));
    assert ["d", "l"] in Visits(t, ["d"], ["l", "d"], false, MAX_LINKS);
    assert ["d", "l"] in Visits(t, [], p, false, MAX_LINKS);
    assert ["d"] <= ["d", "l"];
  }

  /** Entries disappeared only below the children of `loc` named in `names`. */
  ghost predicate Cleared(before: Tree, now: Tree, loc: Loc, names: seq<string>) {
    && Fewer(now, before)
    && forall l | l in before && l !in now :: exists n :: n in names && Proper(n) && loc + [n] <= l
  }

  lemma FollowDir(t: Tree, cwd: Loc, p: Path)
    requires var at := Lookup(t, cwd, p, false); at.Some? && IsDir(t, at.value)
    ensures Lookup(t, cwd, p, true) == Lookup(t, cwd, p, false)
  {
    FollowingIsMoot(t, if p.absolute then [] else cwd, p.parts, MAX_LINKS);
  }

  ghost predicate ListedGone(now: Tree, loc: Loc, names: seq<string>) {
    forall j | 0 <= j < |names| && Proper(names[j]) :: loc + [names[j]] !in now
  }

  lemma OneMoreGone(now: Tree, next: Tree, loc: Loc, names: seq<string>, name: string, w: Option<Loc>)
    requires ListedGone(now, loc, names) && OnlyBelow(now, next, w)
    requires Proper(name) ==> Emptied(now, next, w, true) && w == Some(loc + [name])
    ensures ListedGone(next, loc, names + [name])
  {
  }

  lemma ClearedGrows(before: Tree, now: Tree, loc: Loc, names: seq<string>, name: string)
    requires Cleared(before, now, loc, names)
    ensures Cleared(before, now, loc, names + [name])
  {
    forall l | l in before && l !in now ensures exists n :: n in names + [name] && Proper(n) && loc + [n] <= l {
      var n :| n in names && Proper(n) && loc + [n] <= l;
      assert n in names + [name];
    }
  }

  lemma ChildCleared(before: Tree, now: Tree, next: Tree, loc: Loc, names: seq<string>, name: string, w: Option<Loc>)
    requires Cleared(before, now, loc, names) && Proper(name)
    requires OnlyBelow(now, next, w) && (w.None? || w == Some(loc + [name]))
    ensures Cleared(before, next, loc, names + [name])
  {
    ClearedGrows(before, now, loc, names, name);
    forall l | l in before && l !in next ensures exists n :: n in names + [name] && Proper(n) && loc + [n] <= l {
      if l in now { assert name in names + [name]; }
    }
  }

  lemma ClearedIsBelow(before: Tree, now: Tree, loc: Loc, names: seq<string>)
    requires Cleared(before, now, loc, names)
    ensures OnlyBelow(before, now, Some(loc)) && forall l | l in before && l <= loc :: l in now
  {
    forall l | l in before && l !in now ensures loc <= l && loc != l {
      var n :| n in names && Proper(n) && loc + [n] <= l;
      assert loc <= loc + [n];
    }
  }

  /** A child about to be removed is found where it was, if it is found at all. */
  lemma EnterChild(before: Tree, now: Tree, cwd: Loc, p: Path, loc: Loc, name: string)
    requires Lookup(before, cwd, p, false) == Some(loc) && IsDir(before, loc) && Fewer(now, before)
    requires Proper(name) && Written(p) && p != Path(false, [])
    ensures var c := JoinPath(p, [name]); var w := Lookup(now, cwd, c, false);
            && Written(c) && AsWritten(c) == c
            && (w.None? || w == Some(loc + [name]))
            && Doomed(now, w) < Doomed(before, Some(loc))
  {
    var c := JoinPath(p, [name]);
    ChildPath(before, cwd, p, name);
    StillThere(before, now, cwd, c, false);
    if !p.absolute { KeepsFirst(p.parts); }
    var w := Lookup(now, cwd, c, false);
    assert loc in Doomed(before, Some(loc)) && loc !in Doomed(now, w);
    forall l | l in Doomed(now, w) ensures l in Doomed(before, Some(loc)) {
      assert loc <= loc + [name] <= l;
    }
  }

  lemma {:induction false} KeepsFirst(parts: seq<string>)
    requires parts != [] && parts[0] != ""
    ensures TrimSlashes(parts) != [] && TrimSlashes(parts)[0] == parts[0]
    decreases |parts|
  {
    if parts[|parts| - 1] == "" { KeepsFirst(parts[..|parts| - 1]); }
  }

  /** What the path depends on is still there. */
  lemma StaysFound(before: Tree, now: Tree, cwd: Loc, p: Path, loc: Loc, names: seq<string>)
    requires Cleared(before, now, loc, names) && p.absolute
    requires Lookup(before, cwd, p, false) == Some(loc) && PathClear(before, p.parts, loc)
    ensures Lookup(now, cwd, p, false) == Some(loc) && now[loc] == before[loc] && PathClear(now, p.parts, loc)
  {
    VisitedExist(before, [], p.parts, false, MAX_LINKS);
    FoundIffVisitedStay(now, before, [], p.parts, false, MAX_LINKS);
    forall v | v in Visits(before, [], p.parts, false, MAX_LINKS) ensures v in now {
      ClearedIsBelow(before, now, loc, names);
    }
  }

  lemma SiblingsApart(loc: Loc, a: string, b: string)
    requires a != b
    ensures !(loc + [a] <= loc + [b])
  {
    assert (loc + [a])[|loc|] == a && (loc + [b])[|loc|] == b;
  }

  lemma ChildIsRemovable(before: Tree, now: Tree, cwd: Loc, p: Path, loc: Loc, names: seq<string>, name: string)
    requires IsDir(before, loc) && Cleared(before, now, loc, names) && p.absolute
    requires Lookup(before, cwd, p, false) == Some(loc) && PathClear(before, p.parts, loc)
    requires loc + [name] in before && Proper(name) && name !in names
    ensures Removable(now, cwd, JoinPath(p, [name]), true)
    ensures Lookup(now, cwd, JoinPath(p, [name]), false) == Some(loc + [name])
  {
    StaysFound(before, now, cwd, p, loc, names);
    forall n | n in names ensures !(loc + [n] <= loc + [name]) { SiblingsApart(loc, n, name); }
    assert IsDir(now, loc) && loc + [name] in now;
    ChildPath(now, cwd, p, name);
    JoinedVisits(now, [], p.parts, name, MAX_LINKS);
    var parts := TrimSlashes(p.parts) + [name];
    assert TrimSlashes(parts) == parts;
    forall v | v in Visits(now, [], parts, false, MAX_LINKS) && loc + [name] <= v ensures v == loc + [name] {
      PrefixOf(loc, name, v);
    }
  }

  lemma PrefixOf(loc: Loc, name: string, v: Loc)
    requires loc + [name] <= v
    ensures loc <= v && loc != v
  {
    assert loc <= loc + [name];
  }

  /** Once every child is gone the directory is bare. */
  lemma AllCleared(now: Tree, before: Tree, loc: Loc, names: seq<string>)
    requires WellFormed(before) && Cleared(before, now, loc, names) && Lists(names, before, loc)
    requires ListedGone(now, loc, names)
    ensures ChildlessIn(now, loc)
  {
    forall l | l in before && l != [] && Parent(l) == loc ensures l !in now { ChildListed(now, before, loc, names, l); }
  }

  lemma ChildListed(now: Tree, before: Tree, loc: Loc, names: seq<string>, l: Loc)
    requires WellFormed(before) && Lists(names, before, loc) && ListedGone(now, loc, names)
    requires l in before && l != [] && Parent(l) == loc
    ensures l !in now
  {
    var n := l[|l| - 1];
    assert n in KidNames(before, loc);
    KidNamesAre(before, loc, n);
    var j :| 0 <= j < |names| && names[j] == n;
    assert loc + [names[j]] == l;
  }

  /** The directory itself goes last, if its path still leads to it. */
  lemma LastStep(before: Tree, now: Tree, cwd: Loc, p: Path, loc: Loc, names: seq<string>, recursive: bool)
    requires WellFormed(now) && Cleared(before, now, loc, names) && loc in before
    requires Lookup(before, cwd, p, false) == Some(loc)
    ensures Lookup(now, cwd, p, false).Some? ==> Lookup(now, cwd, p, false) == Some(loc)
    ensures OnlyBelow(before, now, Some(loc)) && OnlyBelow(before, now - {loc}, Some(loc))
    ensures ChildlessIn(now, loc) && (recursive || now == before) ==> Emptied(before, now - {loc}, Some(loc), recursive)
    ensures now == before ==> AtMostOne(before, now) && AtMostOne(before, now - {loc})
  {
    ClearedIsBelow(before, now, loc, names);
    StillThere(before, now, cwd, p, false);
    if ChildlessIn(now, loc) {
      forall l | l in now && loc <= l ensures l == loc { ChildlessIsBare(now, loc, l); }
    }
  }

  /** If the last step can succeed, nothing stood in the way to begin with. */
  lemma ThenRemovable(before: Tree, now: Tree, cwd: Loc, path: Path, p: Path, loc: Loc, recursive: bool)
    requires WellFormed(now) && Fewer(now, before) && p.absolute && p == Resolved(Path(true, cwd), path)
    requires Lookup(before, cwd, p, false) == Some(loc) && IsDir(before, loc) && (path.absolute || cwd in before)
    requires Lookup(now, cwd, p, false).Some? && loc != [] && !EndsInDots(p) && ChildlessIn(now, loc)
    requires recursive || now == before
    ensures Removable(before, cwd, path, recursive)
  {
    FoundIffVisitedStay(now, before, [], p.parts, false, MAX_LINKS);
    forall v | v in Visits(before, [], p.parts, false, MAX_LINKS) && loc <= v ensures v == loc {
      ChildlessIsBare(now, loc, v);
    }
  }

  /** A relative path denotes something only in an existing working directory. */
  lemma RelativeNeedsCwd(t: Tree, cwd: Loc, path: Path)
    requires Lookup(t, cwd, AsWritten(path), false).Some? && !path.absolute
    ensures cwd in t
  {
  }

  lemma ResolvedIsAbsolute(cwd: Loc, path: Path)
    ensures Resolved(Path(true, cwd), path).absolute && (path.absolute ==> Resolved(Path(true, cwd), path) == path)
  {
  }

  lemma LeafStep(t: Tree, loc: Loc, recursive: bool)
    requires WellFormed(t) && loc in t && t[loc] != Dir
    ensures OnlyBelow(t, t - {loc}, Some(loc)) && AtMostOne(t, t - {loc}) && Emptied(t, t - {loc}, Some(loc), recursive)
  {
    NotDirIsChildless(t, loc);
    forall l | l in t && loc <= l ensures l == loc { ChildlessIsBare(t, loc, l); }
  }

  lemma NothingYet(t: Tree, at: Option<Loc>, names: seq<string>)
    ensures names[..0] == [] && OnlyBelow(t, t, at) && AtMostOne(t, t)
    ensures at.Some? ==> Cleared(t, t, at.value, []) && ListedGone(t, at.value, [])
  {
  }

  /** `Removable` for the path the provider resolved, where `at` is what it denotes. */
  lemma RemovableIs(t: Tree, cwd: Loc, path: Path, p: Path, recursive: bool, reliable: bool)
    requires Lookup(t, cwd, p, false) == Lookup(t, cwd, AsWritten(path), false)
    requires path.absolute ==> p == path
    requires !path.absolute && reliable && cwd in t ==> p == Resolved(Path(true, cwd), path)
    ensures var at := Lookup(t, cwd, p, false);
            && (reliable && Removable(t, cwd, path, recursive) ==>
                  && p.absolute && at.Some?
                  && (IsDir(t, at.value) ==>
                        && at.value != [] && !EndsInDots(p) && (recursive || ChildlessIn(t, at.value))
                        && PathClear(t, p.parts, at.value)))
            && (reliable && at.Some? ==>
                  p.absolute && p == Resolved(Path(true, cwd), path) && (path.absolute || cwd in t))
            && (reliable && at.Some? && !IsDir(t, at.value) ==> Removable(t, cwd, path, recursive))
  {
    ResolvedIsAbsolute(cwd, path);
    if !path.absolute && Lookup(t, cwd, p, false).Some? { RelativeNeedsCwd(t, cwd, path); }
  }

  class SftpFileProvider {
    const sftp: SftpServer
    var home: Option<Path>

    constructor (sftp: SftpServer)
      ensures this.sftp == sftp && home == None
    {
      this.sftp, home := sftp, None;
    }

    ghost predicate Valid()
      reads this`home, sftp`tree
    {
      && sftp.Valid()
      && (home.Some? ==>
            && HomeOk(home.value, sftp.cwd)
            && (sftp.reliable && sftp.cwd in sftp.tree ==> home.value.absolute))
    }

    /** Where a path leads now, its last component not followed. */
    ghost function Where(p: Path): Option<Loc>
      reads sftp`tree
    {
      Lookup(sftp.tree, sftp.cwd, AsWritten(p), false)
    }

    method HomeDir() returns (h: Path)
      requires Valid()
      modifies this`home
      ensures Valid() && home == Some(h) && (old(home).Some? ==> home == old(home))
    {
      if home.Some? { return home.value; }
      var r := sftp.Canonicalize();
      h := if r.Some? then r.value else Path(false, ["."]);
      home := Some(h);
    }

    method ResolvePath(p: Path) returns (r: Path)
      requires Valid() && Written(p)
      modifies this`home
      ensures Valid() && Written(r) && r != Path(false, [])
      ensures Lookup(sftp.tree, sftp.cwd, r, false) == Where(p)
      ensures p.absolute ==> r == p
      ensures !p.absolute && sftp.reliable && sftp.cwd in sftp.tree ==> r == Resolved(Path(true, sftp.cwd), p)
    {
      if p.absolute { return p; }
      var h := HomeDir();
      ResolvingStaysPut(sftp.tree, sftp.cwd, h, p, false);
      r := Resolved(h, p);
    }

    /** Removes what the path itself denotes; a link named without a slash behind it is
        not followed. On a server that refuses nothing success is exactly `Removable`. */
    method Remove(path: Path, recursive: bool) returns (ok: bool)
      requires Valid() && Written(path)
      modifies this`home, sftp`tree
      ensures Valid()
      ensures OnlyBelow(old(sftp.tree), sftp.tree, old(Where(path)))
      ensures ok ==> Emptied(old(sftp.tree), sftp.tree, old(Where(path)), recursive)
      ensures !recursive ==> AtMostOne(old(sftp.tree), sftp.tree)
      ensures sftp.reliable ==> (ok <==> old(Removable(sftp.tree, sftp.cwd, path, recursive)))
      decreases Doomed(sftp.tree, Where(path)), 1
    {
      hide WellFormed, CwdOk, Lookup, Removable, PathClear, Cleared, Lists, OnlyBelow, Emptied;
      hide AtMostOne, Doomed, ChildlessIn, ListedGone, Resolved, AsWritten;
      ghost var before, cwd := sftp.tree, sftp.cwd;
      ghost var sure := sftp.reliable && Removable(before, cwd, path, recursive);
      var p := ResolvePath(path);
      NothingYet(before, Where(path), []);
      RemovableIs(before, cwd, path, p, recursive, sftp.reliable);
      var meta := sftp.SymlinkMetadata(p);
      if meta.None? { return false; }
      ghost var loc, names := Where(path).value, [];
      if meta.value == Dir {
        if recursive {
          FollowDir(before, cwd, p);
          var entries := sftp.ReadDir(p);
          if entries.None? { return false; }
          names := entries.value;
          NothingYet(before, Some(loc), names);
          var i := 0;
          while i < |entries.value|
            invariant Valid() && 0 <= i <= |names|
            invariant Cleared(before, sftp.tree, loc, names[..i])
            invariant sure ==> ListedGone(sftp.tree, loc, names[..i])
          {
            var ok := RemoveEntry(before, p, loc, entries.value, i, sure);
            if !ok { return false; }
            i := i + 1;
          }
          assert names[..i] == names;
          if sure { AllCleared(sftp.tree, before, loc, names); }
        }
        if sure { StaysFound(before, sftp.tree, cwd, p, loc, names); }
        LastStep(before, sftp.tree, cwd, p, loc, names, recursive);
        ghost var now := sftp.tree;
        ok := sftp.RemoveDir(p);
        if ok && sftp.reliable { ThenRemovable(before, now, cwd, path, p, loc, recursive); }
      } else {
        LeafStep(before, loc, recursive);
        ok := sftp.RemoveFile(p);
      }
    }

    /** One turn of the loop over the directory `loc` that `p` led to. */
    method RemoveEntry(ghost before: Tree, p: Path, ghost loc: Loc, names: seq<string>, i: nat, ghost sure: bool)
      returns (ok: bool)
      requires Valid() && Written(p) && p != Path(false, []) && i < |names|
      requires WellFormed(before) && Lookup(before, sftp.cwd, p, false) == Some(loc) && IsDir(before, loc)
      requires Lists(names, before, loc) && Cleared(before, sftp.tree, loc, names[..i])
      requires sure ==> sftp.reliable && p.absolute && PathClear(before, p.parts, loc)
      requires sure ==> ListedGone(sftp.tree, loc, names[..i])
      modifies this`home, sftp`tree
      ensures Valid() && Cleared(before, sftp.tree, loc, names[..i + 1])
      ensures OnlyBelow(before, sftp.tree, Some(loc))
      ensures sure ==> ok && ListedGone(sftp.tree, loc, names[..i + 1])
      decreases Doomed(before, Some(loc)), 0
    {
      hide WellFormed, CwdOk, Lookup, Removable, PathClear, Cleared, OnlyBelow, Emptied;
      hide AtMostOne, Doomed, ChildlessIn, ListedGone;
      ghost var now, cwd := sftp.tree, sftp.cwd;
      var name := names[i];
      assert names[..i + 1] == names[..i] + [name];
      ClearedGrows(before, now, loc, names[..i], name);
      ClearedIsBelow(before, now, loc, names[..i]);
      if name == "." || name == ".." {
        NothingYet(now, None, []);
        if sure { OneMoreGone(now, now, loc, names[..i], name, None); }
        return true;
      }
      KidNamesAre(before, loc, name);
      EnterChild(before, now, cwd, p, loc, name);
      if sure { ChildIsRemovable(before, now, cwd, p, loc, names[..i], name); }
      ghost var w := Lookup(now, cwd, JoinPath(p, [name]), false);
      ok := Remove(JoinPath(p, [name]), true);
      ChildCleared(before, now, sftp.tree, loc, names[..i], name, w);
      ClearedIsBelow(before, sftp.tree, loc, names[..i + 1]);
      if sure {
        OneMoreGone(now, sftp.tree, loc, names[..i], name, w);
      }
    }
  }
}
