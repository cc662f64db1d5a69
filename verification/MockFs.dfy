/** The in-memory file system behind the mock provider: prefix-rewriting rename and copy,
    and removal (rust-core/src/providers/mock.rs). */
module MockFs {
  import opened RemotePaths

  type Bytes = seq<bv8>

  datatype Fs = Fs(dirs: set<string>, files: map<string, Bytes>)

  datatype Status = Done | NotFound(path: string) | NotEmpty

  // ---------------------------------------------------------------------------
  // Paths.
  // ---------------------------------------------------------------------------

  /** What the paths below a directory start with. */
  function Prefix(dir: string): (r: string)
    ensures r != "" && r[|r| - 1] == '/'
  {
    TrimAll(dir) + "/"
  }

  predicate Below(p: string, dir: string) { Prefix(dir) <= p }

  predicate Within(p: string, dir: string) { p == dir || Below(p, dir) }

  /** `replacen(pat, by, 1)`: rewrites the first occurrence, searching from the left. */
  function ReplaceFirst(s: string, pat: string, sub: string): string {
    if pat <= s then sub + s[|pat|..]
    else if s == "" then ""
    else [s[0]] + ReplaceFirst(s[1..], pat, sub)
  }

  /** Where a directory and a file of the subtree of `from` end up. */
  function DirImage(d: string, from: string, to: string): string {
    if d == from then to else FileImage(d, from, to)
  }

  function FileImage(p: string, from: string, to: string): string {
    ReplaceFirst(p, Prefix(from), Prefix(to))
  }

  /** On the subtree the rewriting is prefix substitution, and undone by the opposite one. */
  lemma SubtreeRewriting(p: string, q: string, from: string, to: string)
    requires Below(p, from) && Below(q, from)
    ensures FileImage(p, from, to) == Prefix(to) + p[|Prefix(from)|..]
    ensures Below(FileImage(p, from, to), to) && FileImage(FileImage(p, from, to), to, from) == p
    ensures FileImage(p, from, to) == FileImage(q, from, to) ==> p == q
  {
    var a, b := Prefix(from), Prefix(to);
    assert p == a + p[|a|..] && q == a + q[|a|..];
    var x, y := b + p[|a|..], b + q[|a|..];
    assert x[|b|..] == p[|a|..] && y[|b|..] == q[|a|..];
  }

  // ---------------------------------------------------------------------------
  // Operations on the value.
  // ---------------------------------------------------------------------------

  function KeptDirs(fs: Fs, dir: string): set<string> { set d | d in fs.dirs && !Within(d, dir) }

  function DirImages(fs: Fs, from: string, to: string): set<string> {
    set d | d in fs.dirs && Within(d, from) :: DirImage(d, from, to)
  }

  function KeptFiles(fs: Fs, dir: string): map<string, Bytes> {
    map p | p in fs.files && !Below(p, dir) :: fs.files[p]
  }

  function FileImages(fs: Fs, from: string, to: string): set<string> {
    set p | p in fs.files && Below(p, from) :: FileImage(p, from, to)
  }

  /** The files of the subtree under their new names. */
  function ImageFiles(fs: Fs, from: string, to: string): map<string, Bytes> {
    map x | x in FileImages(fs, from, to) && FileImage(x, to, from) in fs.files :: fs.files[FileImage(x, to, from)]
  }

  function Renamed(fs: Fs, from: string, to: string): (Fs, Status) {
    if from in fs.files then (fs.(files := (fs.files - {from})[to := fs.files[from]]), Done)
    else if from !in fs.dirs then (fs, NotFound(from))
    else (Fs(KeptDirs(fs, from) + DirImages(fs, from, to), KeptFiles(fs, from) + ImageFiles(fs, from, to)), Done)
  }

  function Copied(fs: Fs, from: string, to: string): (Fs, Status) {
    if from in fs.files then (fs.(files := fs.files[to := fs.files[from]]), Done)
    else if from !in fs.dirs then (fs, NotFound(from))
    else (Fs(fs.dirs + DirImages(fs, from, to), fs.files + ImageFiles(fs, from, to)), Done)
  }

  predicate HasChildren(fs: Fs, dir: string) {
    (exists d :: d in fs.dirs && Below(d, dir)) || (exists p :: p in fs.files && Below(p, dir))
  }

  function Removed(fs: Fs, path: string, recursive: bool): (Fs, Status) {
    if path in fs.files then (fs.(files := fs.files - {path}), Done)
    else if path !in fs.dirs then (fs, NotFound(path))
    else if HasChildren(fs, path) && !recursive then (fs, NotEmpty)
    else (Fs(KeptDirs(fs, path), KeptFiles(fs, path)), Done)
  }

  // ---------------------------------------------------------------------------
  // Laws.
  // ---------------------------------------------------------------------------

  /** Nothing exists at or below `root`. */
  ghost predicate Vacant(fs: Fs, root: string) {
    (forall d | d in fs.dirs :: !Within(d, root)) && (forall p | p in fs.files :: !Within(p, root))
  }

  /** A second entry, besides `from`, would be rewritten to `to` itself; that takes a `to`
      with a trailing slash. */
  predicate Clashes(k: string, from: string, to: string) {
    k != from && Below(k, from) && FileImage(k, from, to) == to
  }

  ghost predicate DirClash(fs: Fs, from: string, to: string) { exists d :: d in fs.dirs && Clashes(d, from, to) }

  ghost predicate FileClash(fs: Fs, from: string, to: string) { exists p :: p in fs.files && Clashes(p, from, to) }

  lemma {:induction false} TrimmedHasNoSlash(s: string)
    ensures TrimAll(s) <= s && (TrimAll(s) == "" || TrimAll(s)[|TrimAll(s)| - 1] != '/')
    decreases |s|
  {
    if s != "" && s[|s| - 1] == '/' { TrimmedHasNoSlash(s[..|s| - 1]); }
  }

  lemma ClashNeedsSlash(k: string, from: string, to: string)
    requires Clashes(k, from, to)
    ensures to != "" && to[|to| - 1] == '/'
  {
    SubtreeRewriting(k, k, from, to);
    TrimmedHasNoSlash(to);
  }

  /** Renaming a directory to a vacant place: outside the two subtrees nothing changes,
      nothing stays in the old one, and the new one is the old one under new names. */
  lemma RenameMovesSubtree(fs: Fs, from: string, to: string, p: string)
    requires from in fs.dirs && from !in fs.files && Vacant(fs, to)
    ensures var g := Renamed(fs, from, to).0;
            && Renamed(fs, from, to).1 == Done
            && (!Within(p, from) && !Within(p, to) ==>
                  (p in g.dirs <==> p in fs.dirs) && (p in g.files <==> p in fs.files)
                  && (p in fs.files ==> g.files[p] == fs.files[p]))
            && (Within(p, from) && !Within(p, to) ==> p !in g.dirs && p !in g.files)
            && to in g.dirs
            && (Below(p, from) && p != from && !Clashes(p, from, to) ==>
                  (p in fs.dirs <==> FileImage(p, from, to) in g.dirs))
            && (Below(p, from) ==>
                  (p in fs.files <==> FileImage(p, from, to) in g.files)
                  && (p in fs.files ==> g.files[FileImage(p, from, to)] == fs.files[p]))
  {
    var g := Renamed(fs, from, to).0;
    forall d | d in fs.dirs && Below(d, from)
      ensures Below(FileImage(d, from, to), to)
    {
      SubtreeRewriting(d, d, from, to);
    }
    forall d | d in fs.files && Below(d, from)
      ensures Below(FileImage(d, from, to), to)
    {
      SubtreeRewriting(d, d, from, to);
    }
    assert DirImage(from, from, to) == to;
    if Below(p, from) {
      SubtreeRewriting(p, p, from, to);
      var x := FileImage(p, from, to);
      forall d | d in fs.dirs && Below(d, from) && FileImage(d, from, to) == x
        ensures d == p
      {
        SubtreeRewriting(d, p, from, to);
      }
      forall d | d in fs.files && Below(d, from) && FileImage(d, from, to) == x
        ensures d == p
      {
        SubtreeRewriting(d, p, from, to);
      }
      if p in fs.dirs && p != from { assert DirImage(p, from, to) == x; }
    }
  }

  /** `x` is a directory of the renamed tree inside `to` exactly if it is an image. */
  lemma RenamedDirs(fs: Fs, from: string, to: string, x: string)
    requires from in fs.dirs && from !in fs.files && Vacant(fs, to)
    ensures var g := Renamed(fs, from, to).0;
            && (x in g.dirs && Within(x, to) <==> x in DirImages(fs, from, to))
            && (x in g.dirs && !Within(x, to) <==> x in KeptDirs(fs, from))
            && (x in g.files && Below(x, to) <==> x in FileImages(fs, from, to))
            && (x in g.files && !Below(x, to) <==> x in KeptFiles(fs, from))
  {
    forall d | d in fs.dirs && Below(d, from)
      ensures Below(FileImage(d, from, to), to)
    {
      SubtreeRewriting(d, d, from, to);
    }
    forall d | d in fs.files && Below(d, from)
      ensures Below(FileImage(d, from, to), to) && FileImage(FileImage(d, from, to), to, from) == d
    {
      SubtreeRewriting(d, d, from, to);
    }
  }

  /** Renaming back finds every directory again, unless two were merged. */
  lemma DirsComeBack(fs: Fs, from: string, to: string, x: string)
    requires from in fs.dirs && from !in fs.files && Vacant(fs, to)
    ensures var g := Renamed(fs, from, to).0;
            (x in KeptDirs(g, to) + DirImages(g, to, from)) <==> x in fs.dirs && !Clashes(x, from, to)
  {
    var g := Renamed(fs, from, to).0;
    RenamedDirs(fs, from, to, x);
    if x in fs.dirs && Within(x, from) && !Clashes(x, from, to) {
      var y := DirImage(x, from, to);
      assert y in DirImages(fs, from, to);
      RenamedDirs(fs, from, to, y);
      if x != from { SubtreeRewriting(x, x, from, to); }
      assert DirImage(y, to, from) == x;
    }
    if x in DirImages(g, to, from) {
      var y :| y in g.dirs && Within(y, to) && DirImage(y, to, from) == x;
      RenamedDirs(fs, from, to, y);
      var d :| d in fs.dirs && Within(d, from) && DirImage(d, from, to) == y;
      if d != from { SubtreeRewriting(d, d, from, to); }
      if y != to { assert x == d; }
    }
    if Clashes(x, from, to) { SubtreeRewriting(x, x, from, to); }
  }

  lemma FilesComeBack(fs: Fs, from: string, to: string, x: string)
    requires from in fs.dirs && from !in fs.files && Vacant(fs, to)
    ensures var g := Renamed(fs, from, to).0; var back := KeptFiles(g, to) + ImageFiles(g, to, from);
            && (x in back <==> x in fs.files)
            && (x in fs.files ==> back[x] == fs.files[x])
  {
    hide FileImage, DirImage, KeptDirs, DirImages;
    var g := Renamed(fs, from, to).0;
    RenamedDirs(fs, from, to, x);
    if x in fs.files && Below(x, from) {
      SubtreeRewriting(x, x, from, to);
      RenameMovesSubtree(fs, from, to, x);
    }
    if x in FileImages(g, to, from) {
      var y :| y in g.files && Below(y, to) && FileImage(y, to, from) == x;
      RenamedDirs(fs, from, to, y);
      var d :| d in fs.files && Below(d, from) && FileImage(d, from, to) == y;
      SubtreeRewriting(d, d, from, to);
    }
  }

  lemma ImageAtTarget(fs: Fs, from: string, to: string)
    requires from !in fs.files && to in FileImages(fs, from, to)
    ensures FileClash(fs, from, to)
  {
    var k :| k in fs.files && Below(k, from) && FileImage(k, from, to) == to;
    assert Clashes(k, from, to);
  }

  /** Renaming to a vacant place and back restores every entry exactly, if and only if no
      other entry of the subtree was rewritten to `to` itself. */
  lemma RenameRoundTrip(fs: Fs, from: string, to: string)
    requires from in fs.dirs && from !in fs.files && Vacant(fs, to)
    ensures Renamed(Renamed(fs, from, to).0, to, from) == (fs, Done)
            <==> !DirClash(fs, from, to) && !FileClash(fs, from, to)
  {
    var g := Renamed(fs, from, to).0;
    RenamedDirs(fs, from, to, to);
    if k :| k in fs.files && Clashes(k, from, to) {
      FileClashLoses(fs, from, to, k);
    } else {
      if to in FileImages(fs, from, to) { ImageAtTarget(fs, from, to); }
      ComesBack(fs, from, to);
    }
  }

  /** A file now called `to` is what renaming back moves. */
  lemma FileClashLoses(fs: Fs, from: string, to: string, k: string)
    requires from in fs.dirs && from !in fs.files && Vacant(fs, to) && k in fs.files && Clashes(k, from, to)
    ensures Renamed(Renamed(fs, from, to).0, to, from).0 != fs
  {
    var g := Renamed(fs, from, to).0;
    RenameMovesSubtree(fs, from, to, k);
    RenamedDirs(fs, from, to, from);
    assert to in g.files && from !in g.dirs;
  }

  lemma RenamedDirectory(fs: Fs, from: string, to: string)
    requires from in fs.dirs && from !in fs.files
    ensures var dirs := KeptDirs(fs, from) + DirImages(fs, from, to);
            var files := KeptFiles(fs, from) + ImageFiles(fs, from, to);
            Renamed(fs, from, to) == (Fs(dirs, files), Done)
  {
  }

  lemma ComesBack(fs: Fs, from: string, to: string)
    requires from in fs.dirs && from !in fs.files && Vacant(fs, to) && to !in Renamed(fs, from, to).0.files
    ensures Renamed(Renamed(fs, from, to).0, to, from) == (fs, Done) <==> !DirClash(fs, from, to)
  {
    hide Renamed, Clashes, KeptDirs, DirImages, KeptFiles, ImageFiles, FileImage, Within, Vacant;
    var g := Renamed(fs, from, to).0;
    var dirs, files := KeptDirs(g, to) + DirImages(g, to, from), KeptFiles(g, to) + ImageFiles(g, to, from);
    RenameMovesSubtree(fs, from, to, from);
    RenamedDirectory(g, to, from);
    forall x ensures x in dirs <==> x in fs.dirs && !Clashes(x, from, to) { DirsComeBack(fs, from, to, x); }
    forall x
      ensures (x in files <==> x in fs.files) && (x in fs.files ==> files[x] == fs.files[x])
    {
      FilesComeBack(fs, from, to, x);
    }
    assert files == fs.files;
    if DirClash(fs, from, to) {
      var k :| k in fs.dirs && Clashes(k, from, to);
      assert k !in dirs;
    } else {
      assert dirs == fs.dirs;
    }
  }

  lemma {:induction false} InjectiveImage(s: set<string>, f: string -> string)
    requires forall x, y | x in s && y in s && f(x) == f(y) :: x == y
    ensures |set x | x in s :: f(x)| == |s|
  {
    if s != {} {
      var x :| x in s;
      InjectiveImage(s - {x}, f);
      assert (set y | y in s :: f(y)) == (set y | y in s - {x} :: f(y)) + {f(x)};
    }
  }

  lemma CountSplit(before: set<string>, after: set<string>, kept: set<string>, moved: set<string>, f: string -> string)
    requires forall x :: x in before <==> x in kept || x in moved
    requires forall x :: !(x in kept && x in moved)
    requires forall x, y | x in moved && y in moved && f(x) == f(y) :: x == y
    requires forall x | x in moved :: f(x) in after && f(x) !in kept
    requires forall x | x in kept :: x in after
    requires forall x | x in after :: x in kept || exists m :: m in moved && f(m) == x
    ensures |after| == |before|
  {
    var images := set x | x in moved :: f(x);
    InjectiveImage(moved, f);
    assert before == kept + moved && after == kept + images && kept !! moved && kept !! images;
  }

  /** No file is lost. */
  lemma RenameKeepsFileCount(fs: Fs, from: string, to: string)
    requires from in fs.dirs && from !in fs.files && Vacant(fs, to)
    ensures |Renamed(fs, from, to).0.files| == |fs.files|
  {
    var g := Renamed(fs, from, to).0;
    var kept, moved := KeptFiles(fs, from).Keys, set p | p in fs.files && Below(p, from);
    forall x
      ensures x in g.files <==> x in kept || x in FileImages(fs, from, to)
      ensures !(x in kept && x in FileImages(fs, from, to))
    {
      RenamedDirs(fs, from, to, x);
    }
    hide Renamed;
    forall x, y | x in moved && y in moved && FileImage(x, from, to) == FileImage(y, from, to)
      ensures x == y
    {
      SubtreeRewriting(x, y, from, to);
    }
    hide FileImage;
    CountSplit(fs.files.Keys, g.files.Keys, kept, moved, p => FileImage(p, from, to));
  }

  /** No directory is lost, unless two were merged. */
  lemma RenameKeepsDirCount(fs: Fs, from: string, to: string)
    requires from in fs.dirs && from !in fs.files && Vacant(fs, to) && !DirClash(fs, from, to)
    ensures |Renamed(fs, from, to).0.dirs| == |fs.dirs|
  {
    var g := Renamed(fs, from, to).0;
    var kept, moved := KeptDirs(fs, from), set d | d in fs.dirs && Within(d, from);
    forall x ensures !(x in kept && x in DirImages(fs, from, to)) { RenamedDirs(fs, from, to, x); }
    forall x, y | x in moved && y in moved && DirImage(x, from, to) == DirImage(y, from, to) ensures x == y {
      if x != from && y != from { SubtreeRewriting(x, y, from, to); }
      assert !Clashes(x, from, to) && !Clashes(y, from, to);
    }
    assert g.dirs == kept + DirImages(fs, from, to);
    hide Renamed, DirImage;
    CountSplit(fs.dirs, g.dirs, kept, moved, d => DirImage(d, from, to));
  }

  /** Copying a directory to a vacant place and removing the copy restores every entry,
      if and only if no file was copied onto `to` itself. */
  lemma CopyThenRemove(fs: Fs, from: string, to: string)
    requires from in fs.dirs && from !in fs.files && Vacant(fs, to)
    ensures Removed(Copied(fs, from, to).0, to, true) == (fs, Done) <==> !FileClash(fs, from, to)
  {
    var g := Copied(fs, from, to).0;
    assert DirImage(from, from, to) == to;
    forall d | d in fs.dirs && Below(d, from)
      ensures Below(FileImage(d, from, to), to)
    {
      SubtreeRewriting(d, d, from, to);
    }
    forall d | d in fs.files && Below(d, from)
      ensures Below(FileImage(d, from, to), to) && FileImage(FileImage(d, from, to), to, from) == d
    {
      SubtreeRewriting(d, d, from, to);
    }
    assert to in g.dirs;
    if k :| k in fs.files && Clashes(k, from, to) {
      assert to in g.files && to !in fs.dirs;
    } else {
      if to in FileImages(fs, from, to) { ImageAtTarget(fs, from, to); }
      assert KeptDirs(g, to) == fs.dirs;
      assert KeptFiles(g, to) == fs.files;
    }
  }

  /** A copy leaves the source and everything else alone and duplicates the subtree. */
  lemma CopyDuplicates(fs: Fs, from: string, to: string, p: string)
    requires from in fs.dirs && from !in fs.files && Vacant(fs, to)
    ensures var g := Copied(fs, from, to).0;
            && (!Within(p, to) ==> (p in g.dirs <==> p in fs.dirs) && (p in g.files <==> p in fs.files))
            && (p in fs.files ==> p in g.files && g.files[p] == fs.files[p])
            && (Below(p, from) && p in fs.files ==>
                  FileImage(p, from, to) in g.files && g.files[FileImage(p, from, to)] == fs.files[p])
            && (Within(p, from) && p in fs.dirs ==> p in g.dirs && DirImage(p, from, to) in g.dirs)
  {
    forall d | d in fs.dirs && Below(d, from)
      ensures Below(FileImage(d, from, to), to)
    {
      SubtreeRewriting(d, d, from, to);
    }
    forall d | d in fs.files && Below(d, from)
      ensures Below(FileImage(d, from, to), to) && FileImage(FileImage(d, from, to), to, from) == d
    {
      SubtreeRewriting(d, d, from, to);
    }
  }

  /** "Below" is a matter of the path with one slash behind it, however many it was given. */
  lemma PrefixIs(dir: string)
    ensures dir == "" || dir[|dir| - 1] != '/' ==> Prefix(dir) == dir + "/"
    ensures Prefix(dir + "/") == Prefix(dir)
  {
    assert (dir + "/")[..|dir|] == dir;
  }

  /** A removal in full, on any entry `p`. */
  lemma RemovalIs(fs: Fs, path: string, recursive: bool, p: string)
    ensures var (g, status) := Removed(fs, path, recursive); var pre := Prefix(path);
            && (path in fs.files ==>
                  && status == Done && g.dirs == fs.dirs
                  && (p in g.files <==> p in fs.files && p != path)
                  && (p in g.files ==> g.files[p] == fs.files[p]))
            && (path !in fs.files && path !in fs.dirs ==> g == fs && status == NotFound(path))
            && (path !in fs.files && path in fs.dirs && !recursive && (p in fs.dirs || p in fs.files) && pre <= p ==>
                  g == fs && status == NotEmpty)
            && (path !in fs.files && path in fs.dirs && status != Done ==>
                  !recursive && exists q :: (q in fs.dirs || q in fs.files) && pre <= q)
            && (path !in fs.files && path in fs.dirs && status == Done ==>
                  && (p in g.dirs <==> p in fs.dirs && p != path && !(pre <= p))
                  && (p in g.files <==> p in fs.files && !(pre <= p))
                  && (p in g.files ==> g.files[p] == fs.files[p]))
  {
    if path !in fs.files && path in fs.dirs && HasChildren(fs, path) {
      if q :| q in fs.dirs && Below(q, path) {
        assert Prefix(path) <= q;
      } else {
        var q :| q in fs.files && Below(q, path);
        assert Prefix(path) <= q;
      }
    }
  }

  /** Renaming and copying a single file, and what is not there. */
  lemma SingleFile(fs: Fs, from: string, to: string, p: string)
    ensures var (g, status) := Renamed(fs, from, to); var (h, copied) := Copied(fs, from, to);
            && (from in fs.files ==>
                  && status == Done && copied == Done && g.dirs == fs.dirs && h.dirs == fs.dirs
                  && to in g.files && g.files[to] == fs.files[from]
                  && to in h.files && h.files[to] == fs.files[from]
                  && (p != to ==> (p in g.files <==> p in fs.files && p != from) && (p in h.files <==> p in fs.files))
                  && (p != to && p in g.files ==> g.files[p] == fs.files[p])
                  && (p != to && p in h.files ==> h.files[p] == fs.files[p]))
            && (from !in fs.files && from !in fs.dirs ==>
                  g == fs && h == fs && status == NotFound(from) && copied == NotFound(from))
            && (from !in fs.files && from in fs.dirs ==> status == Done && copied == Done)
  {
  }

  /** An input where renaming there and back does lose a directory. */
  lemma TrailingSlashMerges()
    ensures var fs := Fs({"/a", "/a/"}, map[]);
            Vacant(fs, "/b/") && Renamed(Renamed(fs, "/a", "/b/").0, "/b/", "/a") != (fs, Done)
  {
    var fs := Fs({"/a", "/a/"}, map[]);
    assert Prefix("/a") == "/a/" && Prefix("/b/") == "/b/";
    assert "/a/"[|Prefix("/a")|..] == "" && FileImage("/a/", "/a", "/b/") == "/b/" + "";
    assert Clashes("/a/", "/a", "/b/");
    assert forall d | d in fs.dirs :: !Within(d, "/b/") by {
      assert "/a/"[1] == 'a' && "/b/"[1] == 'b';
    }
    RenameRoundTrip(fs, "/a", "/b/");
  }

  /** An input where a file lands on the target's own name: removing the copy, or renaming
      back, takes that file and leaves the directory. */
  lemma TrailingSlashHides()
    ensures var fs := Fs({"/a"}, map["/a/" := []]);
            && Vacant(fs, "/b/")
            && Removed(Copied(fs, "/a", "/b/").0, "/b/", true) != (fs, Done)
            && Renamed(Renamed(fs, "/a", "/b/").0, "/b/", "/a") != (fs, Done)
  {
    var fs := Fs({"/a"}, map["/a/" := []]);
    assert Prefix("/a") == "/a/" && Prefix("/b/") == "/b/";
    assert "/a/"[|Prefix("/a")|..] == "" && FileImage("/a/", "/a", "/b/") == "/b/" + "";
    assert Clashes("/a/", "/a", "/b/");
    assert "/a/"[1] == 'a' && "/b/"[1] == 'b' && "/a"[1] == 'a';
    CopyThenRemove(fs, "/a", "/b/");
    RenameRoundTrip(fs, "/a", "/b/");
  }

  // ---------------------------------------------------------------------------
  // The provider.
  // ---------------------------------------------------------------------------

  class MockFileProvider {
    var dirs: set<string>
    var files: map<string, Bytes>

    ghost function Contents(): Fs
      reads this
    {
      Fs(dirs, files)
    }

    constructor (fs: Fs)
      ensures Contents() == fs
    {
      dirs, files := fs.dirs, fs.files;
    }

    /** The directories at or below `from`, in the arbitrary order of a hash set. */
    method SubtreeDirs(from: string) returns (r: seq<string>)
      ensures forall d :: d in r <==> d in dirs && Within(d, from)
    {
      r := [];
      var rest := dirs;
      while rest != {}
        invariant rest <= dirs && forall d :: d in r <==> d in dirs - rest && Within(d, from)
        decreases rest
      {
        var d :| d in rest;
        if Within(d, from) { r := r + [d]; }
        rest := rest - {d};
      }
    }

    method SubtreeFiles(from: string) returns (r: seq<(string, Bytes)>)
      ensures forall e :: e in r <==> e.0 in files && Below(e.0, from) && e.1 == files[e.0]
    {
      r := [];
      var rest := files.Keys;
      while rest != {}
        invariant rest <= files.Keys
        invariant forall e :: e in r <==> e.0 in files.Keys - rest && Below(e.0, from) && e.1 == files[e.0]
        decreases rest
      {
        var p :| p in rest;
        if Below(p, from) { r := r + [(p, files[p])]; }
        rest := rest - {p};
      }
    }

    /** Inserts the images of the collected directories. */
    method InsertDirs(moved: seq<string>, from: string, to: string)
      modifies this`dirs
      ensures dirs == old(dirs) + set d | d in moved :: DirImage(d, from, to)
    {
      for i := 0 to |moved|
        invariant dirs == old(dirs) + set d | d in moved[..i] :: DirImage(d, from, to)
      {
        assert moved[..i + 1] == moved[..i] + [moved[i]];
        dirs := dirs + {DirImage(moved[i], from, to)};
      }
      assert moved[..|moved|] == moved;
    }

    /** Inserts the images of the collected files; their new names differ. */
    method InsertFiles(moved: seq<(string, Bytes)>, from: string, to: string)
      requires forall e, f | e in moved && f in moved && FileImage(e.0, from, to) == FileImage(f.0, from, to) :: e == f
      modifies this`files
      ensures forall x :: x in files <==> x in old(files) || exists e :: e in moved && FileImage(e.0, from, to) == x
      ensures forall e | e in moved :: FileImage(e.0, from, to) in files && files[FileImage(e.0, from, to)] == e.1
      ensures forall x | x in old(files) && (forall e | e in moved :: FileImage(e.0, from, to) != x) ::
          files[x] == old(files)[x]
    {
      for i := 0 to |moved|
        invariant forall x :: x in files <==>
            x in old(files) || exists e :: e in moved[..i] && FileImage(e.0, from, to) == x
        invariant forall e | e in moved[..i] ::
            FileImage(e.0, from, to) in files && files[FileImage(e.0, from, to)] == e.1
        invariant forall x | x in old(files) && (forall e | e in moved[..i] :: FileImage(e.0, from, to) != x) ::
            files[x] == old(files)[x]
      {
        assert moved[..i + 1] == moved[..i] + [moved[i]];
        assert moved[i] in moved;
        files := files[FileImage(moved[i].0, from, to) := moved[i].1];
      }
      assert moved[..|moved|] == moved;
    }

    method Rename(from: string, to: string) returns (r: Status)
      modifies this
      ensures (Contents(), r) == Renamed(old(Contents()), from, to)
    {
      if from in files {
        var content := files[from];
        files := files - {from};
        files := files[to := content];
        return Done;
      }
      if from !in dirs { return NotFound(from); }
      hide FileImage, DirImage, KeptDirs, DirImages, KeptFiles, ImageFiles, Within, Below;
      ghost var fs := Contents();
      var movedDirs := SubtreeDirs(from);
      DirsMoved(fs, from, to, movedDirs);
      DropDirs(movedDirs);
      InsertDirs(movedDirs, from, to);
      var movedFiles := SubtreeFiles(from);
      FilesDropped(fs, from, movedFiles);
      DropFiles(movedFiles);
      ImagesDiffer(fs, from, to, movedFiles);
      InsertFiles(movedFiles, from, to);
      FilesInserted(fs, from, to, movedFiles, KeptFiles(fs, from), files);
      r := Done;
    }

    static lemma DirsMoved(fs: Fs, from: string, to: string, moved: seq<string>)
      requires forall d :: d in moved <==> d in fs.dirs && Within(d, from)
      ensures fs.dirs - (set d | d in moved && true) == KeptDirs(fs, from)
      ensures (set d | d in moved :: DirImage(d, from, to)) == DirImages(fs, from, to)
    {
    }

    static lemma FilesDropped(fs: Fs, from: string, moved: seq<(string, Bytes)>)
      requires forall e :: e in moved <==> e.0 in fs.files && Below(e.0, from) && e.1 == fs.files[e.0]
      ensures fs.files - (set e | e in moved :: e.0) == KeptFiles(fs, from)
    {
      forall p | p in fs.files && Below(p, from) ensures p in (set e | e in moved :: e.0) {
        assert (p, fs.files[p]) in moved;
      }
    }

    method DropDirs(moved: seq<string>)
      modifies this`dirs
      ensures dirs == old(dirs) - set d | d in moved && true
    {
      for i := 0 to |moved|
        invariant dirs == old(dirs) - set d | d in moved[..i] && true
      {
        assert moved[..i + 1] == moved[..i] + [moved[i]];
        dirs := dirs - {moved[i]};
      }
      assert moved[..|moved|] == moved;
    }

    method DropFiles(moved: seq<(string, Bytes)>)
      modifies this`files
      ensures files == old(files) - set e | e in moved :: e.0
    {
      for i := 0 to |moved|
        invariant files == old(files) - set e | e in moved[..i] :: e.0
      {
        assert moved[..i + 1] == moved[..i] + [moved[i]];
        files := files - {moved[i].0};
      }
      assert moved[..|moved|] == moved;
    }

    /** What the insertion loop leaves is the images laid over what was there. */
    static lemma FilesInserted(fs: Fs, from: string, to: string, moved: seq<(string, Bytes)>,
                               base: map<string, Bytes>, files: map<string, Bytes>)
      requires forall e :: e in moved <==> e.0 in fs.files && Below(e.0, from) && e.1 == fs.files[e.0]
      requires forall x :: x in files <==> x in base || exists e :: e in moved && FileImage(e.0, from, to) == x
      requires forall e | e in moved :: FileImage(e.0, from, to) in files && files[FileImage(e.0, from, to)] == e.1
      requires forall x | x in base && (forall e | e in moved :: FileImage(e.0, from, to) != x) :: files[x] == base[x]
      ensures files == base + ImageFiles(fs, from, to)
    {
      hide FileImage, ImageFiles;
      var images := ImageFiles(fs, from, to);
      forall x ensures x in images <==> exists e :: e in moved && FileImage(e.0, from, to) == x {
        ImageOfMoved(fs, from, to, moved, x);
      }
      forall x | x in files ensures files[x] == (base + images)[x] { ImageOfMoved(fs, from, to, moved, x); }
    }

    static lemma ImagesDiffer(fs: Fs, from: string, to: string, moved: seq<(string, Bytes)>)
      requires forall e | e in moved :: e.0 in fs.files && Below(e.0, from) && e.1 == fs.files[e.0]
      ensures forall e, f | e in moved && f in moved && FileImage(e.0, from, to) == FileImage(f.0, from, to) :: e == f
      ensures forall e | e in moved :: FileImage(FileImage(e.0, from, to), to, from) == e.0
    {
      forall e, f | e in moved && f in moved
        ensures FileImage(FileImage(e.0, from, to), to, from) == e.0
        ensures FileImage(e.0, from, to) == FileImage(f.0, from, to) ==> e == f
      {
        SubtreeRewriting(e.0, f.0, from, to);
      }
    }

    static lemma ImageOfMoved(fs: Fs, from: string, to: string, moved: seq<(string, Bytes)>, x: string)
      requires forall e :: e in moved <==> e.0 in fs.files && Below(e.0, from) && e.1 == fs.files[e.0]
      ensures var images := ImageFiles(fs, from, to);
              && (x in images <==> exists e :: e in moved && FileImage(e.0, from, to) == x)
              && (forall e | e in moved && FileImage(e.0, from, to) == x :: images[x] == e.1)
    {
      ImagesDiffer(fs, from, to, moved);
      hide FileImage;
      if x in ImageFiles(fs, from, to) {
        var p :| p in fs.files && Below(p, from) && FileImage(p, from, to) == x;
        assert (p, fs.files[p]) in moved;
      }
      if e :| e in moved && FileImage(e.0, from, to) == x {
        assert x in FileImages(fs, from, to);
      }
    }

    method Copy(from: string, to: string) returns (r: Status)
      modifies this
      ensures (Contents(), r) == Copied(old(Contents()), from, to)
    {
      if from in files {
        files := files[to := files[from]];
        return Done;
      }
      if from !in dirs { return NotFound(from); }
      ghost var fs := Contents();
      var copiedDirs := SubtreeDirs(from);
      InsertDirs(copiedDirs, from, to);
      var copiedFiles := SubtreeFiles(from);
      ImagesDiffer(fs, from, to, copiedFiles);
      InsertFiles(copiedFiles, from, to);
      FilesInserted(fs, from, to, copiedFiles, fs.files, files);
      assert dirs == fs.dirs + DirImages(fs, from, to);
      r := Done;
    }

    method Remove(path: string, recursive: bool) returns (r: Status)
      modifies this
      ensures (Contents(), r) == Removed(old(Contents()), path, recursive)
    {
      if path in files {
        files := files - {path};
        return Done;
      }
      if path !in dirs { return NotFound(path); }
      var hasChildren := (exists d | d in dirs :: Below(d, path)) || (exists p | p in files :: Below(p, path));
      if hasChildren && !recursive { return NotEmpty; }
      dirs := set d | d in dirs && !Within(d, path);
      files := map p | p in files && !Below(p, path) :: files[p];
      r := Done;
    }

    method Mkdir(path: string)
      modifies this`dirs
      ensures dirs == old(dirs) + {path}
    {
      dirs := dirs + {path};
    }

    method WriteFile(path: string, data: Bytes)
      modifies this`files
      ensures files == old(files)[path := data]
    {
      files := files[path := data];
    }

    /** At most `maxLen` bytes, 0 meaning all. */
    method ReadFile(path: string, maxLen: nat) returns (r: Bytes, s: Status)
      ensures s == if path in files then Done else NotFound(path)
      ensures path in files ==> r <= files[path] && |r| == if 0 < maxLen < |files[path]| then maxLen else |files[path]|
    {
      if path !in files { return [], NotFound(path); }
      r, s := files[path], Done;
      if maxLen > 0 && |r| > maxLen { r := r[..maxLen]; }
    }
  }
}
