/** The lazy remote file tree with parent pointers and its path index
    (app/cpp/RemoteFileTreeModel.cpp, node fields in RemoteFileTreeModel.h). */
module RemoteFileTree {
  import opened Wrappers
  import opened RemotePaths

  /** One listing entry, as the bridge copies it out of the callback. */
  datatype FsEntry = FsEntry(name: string, path: string, kind: int, size: nat, editable: bool)

  const DIRECTORY := 1

  /** What a listing entry writes into a node. */
  datatype Meta = Meta(name: string, isDir: bool, size: nat, editable: bool)

  function MetaOf(e: FsEntry): Meta { Meta(e.name, e.kind == DIRECTORY, e.size, e.editable) }

  /** Kind 1 of a listing entry is a directory. */
  lemma MetaIs(e: FsEntry)
    ensures MetaOf(e).isDir <==> e.kind == 1
    ensures MetaOf(e).name == e.name && MetaOf(e).size == e.size && MetaOf(e).editable == e.editable
  {
  }

  class Node {
    var name: string
    var path: string
    var isDir: bool
    var size: nat
    var editable: bool
    var loaded: bool
    var loading: bool
    var parent: Node?
    var children: seq<Node>

    constructor ()
      ensures name == "" && path == "" && !isDir && size == 0 && !editable && !loaded && !loading
      ensures parent == null && children == []
    {
      name, path, isDir, size, editable := "", "", false, 0, false;
      loaded, loading, parent, children := false, false, null, [];
    }

    ghost function GetMeta(): Meta
      reads this`name, this`isDir, this`size, this`editable
    {
      Meta(name, isDir, size, editable)
    }
  }

  // ---------------------------------------------------------------------------
  // The tree as a value: which nodes are alive and how they are linked.
  // ---------------------------------------------------------------------------

  /** The links of one node; `above` holds the node itself and its ancestors. */
  datatype Info = Info(parent: Node?, children: seq<Node>, path: string, depth: nat, above: set<Node>)

  datatype Forest = Forest(root: Node, info: map<Node, Info>, bound: nat)

  ghost predicate NoDup(cs: seq<Node>) {
    forall i, j | 0 <= i < j < |cs| :: cs[i] != cs[j]
  }

  /** Up: every node but the root is a child of its parent, one step further away. */
  ghost predicate UpOk(n: Node, f: Forest)
    requires n in f.info
  {
    var i := f.info[n];
    && i.depth <= f.bound
    && if n == f.root then i.parent == null && i.depth == 0 && i.above == {n}
       else
         && i.parent != null && i.parent in f.info && n in f.info[i.parent].children
         && i.depth == f.info[i.parent].depth + 1 && i.above == {n} + f.info[i.parent].above
  }

  /** Down: the child list holds each child once, and only nodes that name `n` as parent. */
  ghost predicate DownOk(n: Node, f: Forest)
    requires n in f.info
  {
    var cs := f.info[n].children;
    NoDup(cs) && forall i | 0 <= i < |cs| :: cs[i] in f.info && cs[i] != f.root && f.info[cs[i]].parent == n
  }

  /** Only the root has the empty path. */
  ghost predicate NodeOk(n: Node, f: Forest) {
    n in f.info && UpOk(n, f) && DownOk(n, f) && (f.info[n].path == "" <==> n == f.root)
  }

  ghost predicate Tree(f: Forest) {
    f.root in f.info && forall n {:trigger NodeOk(n, f)} | n in f.info :: NodeOk(n, f)
  }

  /** The heap holds exactly this tree. */
  ghost predicate Shows(f: Forest)
    reads f.info.Keys`path, f.info.Keys`parent, f.info.Keys`children
  {
    forall n {:trigger n.path} {:trigger n.children} {:trigger n.parent} | n in f.info ::
      n.parent == f.info[n].parent && n.path == f.info[n].path && n.children == f.info[n].children
  }

  /** The index is {"" -> root} plus one entry per other node, and nothing else. */
  ghost predicate Indexes(m: map<string, Node>, f: Forest) {
    && (forall n {:trigger f.info[n].path} | n in f.info :: f.info[n].path in m && m[f.info[n].path] == n)
    && (forall p | p in m :: m[p] in f.info && f.info[m[p]].path == p)
  }

  /** An index can only agree with the tree when no two nodes share a path. */
  lemma PathsAreDistinct(m: map<string, Node>, f: Forest, a: Node, b: Node)
    requires Indexes(m, f) && a in f.info && b in f.info && f.info[a].path == f.info[b].path
    ensures a == b
  {
    assert m[f.info[a].path] == a;
  }

  ghost function PathOf(n: Node, f: Forest): string {
    if n in f.info then f.info[n].path else ""
  }

  ghost function ChildrenOf(n: Node, f: Forest): seq<Node> {
    if n in f.info then f.info[n].children else []
  }

  /** `c` is `n` or an ancestor of `n`. */
  ghost predicate Under(n: Node, c: Node, f: Forest) {
    n in f.info && c in f.info[n].above
  }

  ghost function Subtree(c: Node, f: Forest): set<Node> {
    set n | n in f.info && Under(n, c, f)
  }

  ghost function Subtrees(cs: seq<Node>, f: Forest): set<Node> {
    set n, i | n in f.info && 0 <= i < |cs| && Under(n, cs[i], f) :: n
  }

  ghost function PathSet(s: set<Node>, f: Forest): set<string> {
    set n | n in s :: PathOf(n, f)
  }

  /** `n` in a subtree is its root or lies, with its parent, strictly below it. */
  lemma {:induction false} UnderIsBelow(n: Node, c: Node, f: Forest)
    requires Tree(f) && Under(n, c, f)
    ensures c in f.info
    ensures n != c ==>
              && f.info[c].depth < f.info[n].depth && n != f.root
              && f.info[n].parent != null && Under(f.info[n].parent, c, f)
    decreases f.info[n].depth
  {
    assert NodeOk(n, f);
    if n != c {
      UnderIsBelow(f.info[n].parent, c, f);
    }
  }

  lemma {:induction false} UnderTrans(n: Node, m: Node, c: Node, f: Forest)
    requires Tree(f) && Under(n, m, f) && Under(m, c, f)
    ensures Under(n, c, f)
    decreases f.info[n].depth
  {
    if n != m {
      UnderIsBelow(n, m, f);
      assert NodeOk(n, f);
      UnderTrans(f.info[n].parent, m, c, f);
    }
  }

  lemma UnderSelf(n: Node, f: Forest)
    requires Tree(f) && n in f.info
    ensures Under(n, n, f)
    ensures n != f.root ==> f.info[n].parent != null && Under(n, f.info[n].parent, f)
  {
    assert NodeOk(n, f);
    if n != f.root {
      assert NodeOk(f.info[n].parent, f);
    }
  }

  /** Every proper descendant of `c` is below one of its children. */
  lemma {:induction false} DescendsThroughChild(n: Node, c: Node, f: Forest)
    requires Tree(f) && Under(n, c, f) && n != c
    ensures n in Subtrees(ChildrenOf(c, f), f)
    decreases f.info[n].depth
  {
    UnderIsBelow(n, c, f);
    assert NodeOk(n, f);
    var q := f.info[n].parent;
    var cs := f.info[c].children;
    if q == c {
      UnderSelf(n, f);
      var k :| 0 <= k < |cs| && cs[k] == n;
    } else {
      DescendsThroughChild(q, c, f);
      var k :| 0 <= k < |cs| && Under(q, cs[k], f);
      assert Under(n, cs[k], f);
    }
  }

  lemma SubtreeIsNodeAndChildren(c: Node, f: Forest)
    requires Tree(f) && c in f.info
    ensures Subtree(c, f) == {c} + Subtrees(ChildrenOf(c, f), f)
    ensures PathSet(Subtree(c, f), f) == {PathOf(c, f)} + PathSet(Subtrees(ChildrenOf(c, f), f), f)
  {
    var cs := ChildrenOf(c, f);
    UnderSelf(c, f);
    forall n | n in Subtree(c, f) && n != c ensures n in Subtrees(cs, f) {
      DescendsThroughChild(n, c, f);
    }
    forall n | n in Subtrees(cs, f) ensures n in Subtree(c, f) {
      var i :| 0 <= i < |cs| && Under(n, cs[i], f);
      assert NodeOk(c, f);
      UnderSelf(cs[i], f);
      UnderTrans(n, cs[i], c, f);
    }
  }

  lemma SubtreesSnoc(cs: seq<Node>, k: nat, f: Forest)
    requires k < |cs|
    ensures PathSet(Subtrees(cs[..k + 1], f), f)
         == PathSet(Subtrees(cs[..k], f), f) + PathSet(Subtree(cs[k], f), f)
  {
    var a, b := cs[..k + 1], cs[..k];
    forall n | n in Subtrees(a, f) ensures n in Subtrees(b, f) + Subtree(cs[k], f) {
      var i :| 0 <= i < |a| && Under(n, a[i], f);
      if i < k { assert b[i] == a[i]; }
    }
    forall n | n in Subtrees(b, f) + Subtree(cs[k], f) ensures n in Subtrees(a, f) {
      if n in Subtree(cs[k], f) {
        assert a[k] == cs[k];
      } else {
        var i :| 0 <= i < |b| && Under(n, b[i], f);
        assert a[i] == b[i];
      }
    }
    assert Subtrees(a, f) == Subtrees(b, f) + Subtree(cs[k], f);
  }

  // ---------------------------------------------------------------------------
  // Removing the children of `p` that are no longer listed.
  // ---------------------------------------------------------------------------

  /** The nodes of `cs` whose path is listed, in order. */
  ghost function Kept(f: Forest, cs: seq<Node>, incoming: set<string>): seq<Node> {
    if cs == [] then []
    else (if PathOf(cs[0], f) in incoming then [cs[0]] else []) + Kept(f, cs[1..], incoming)
  }

  lemma {:induction false} KeptAre(f: Forest, cs: seq<Node>, incoming: set<string>, n: Node)
    requires NoDup(cs)
    ensures var k := Kept(f, cs, incoming);
            && (n in k <==> n in cs && PathOf(n, f) in incoming)
            && NoDup(k)
            && (forall i | 0 <= i < |k| :: k[i] in cs && PathOf(k[i], f) in incoming)
    decreases |cs|
  {
    if cs != [] {
      KeptAre(f, cs[1..], incoming, n);
      KeptAre(f, cs[1..], incoming, cs[0]);
    }
  }

  /** Everything at or below a node of `cs` that is not listed. */
  ghost function Gone(f: Forest, cs: seq<Node>, incoming: set<string>): set<Node> {
    set n, i | n in f.info && 0 <= i < |cs| && PathOf(cs[i], f) !in incoming && Under(n, cs[i], f) :: n
  }

  lemma GoneStep(f: Forest, cs: seq<Node>, k: nat, incoming: set<string>)
    requires k < |cs|
    ensures PathSet(Gone(f, cs[k..], incoming), f) ==
              PathSet(Gone(f, cs[k + 1..], incoming), f)
              + (if PathOf(cs[k], f) in incoming then {} else PathSet(Subtree(cs[k], f), f))
  {
    var a, b := cs[k..], cs[k + 1..];
    var t := if PathOf(cs[k], f) in incoming then {} else Subtree(cs[k], f);
    forall n | n in Gone(f, a, incoming) ensures n in Gone(f, b, incoming) + t {
      var i :| 0 <= i < |a| && PathOf(a[i], f) !in incoming && Under(n, a[i], f);
      if i > 0 { assert b[i - 1] == a[i]; }
    }
    forall n | n in Gone(f, b, incoming) + t ensures n in Gone(f, a, incoming) {
      if n in t {
        assert a[0] == cs[k];
      } else {
        var i :| 0 <= i < |b| && PathOf(b[i], f) !in incoming && Under(n, b[i], f);
        assert a[i + 1] == b[i];
      }
    }
    assert Gone(f, a, incoming) == Gone(f, b, incoming) + t;
  }

  /** `f` without the nodes in `gone`, and with `kept` as the children of `p`. */
  ghost function Without(f: Forest, p: Node, gone: set<Node>, kept: seq<Node>): Forest {
    f.(info := map n | n in f.info && n !in gone ::
                 if n == p then f.info[n].(children := kept) else f.info[n])
  }

  ghost function Pruned(f: Forest, p: Node, incoming: set<string>): Forest {
    Without(f, p, Gone(f, ChildrenOf(p, f), incoming), Kept(f, ChildrenOf(p, f), incoming))
  }

  /** What `gone` and `kept` must satisfy for `Without` to leave a tree. */
  ghost predicate Detaches(f: Forest, p: Node, gone: set<Node>, kept: seq<Node>) {
    && p in f.info && p !in gone && f.root !in gone && NoDup(kept)
    && (forall n | n in f.info && n != f.root && n !in gone :: DetachOk(n, f, p, gone, kept))
    && (forall n | n in gone && n in f.info :: f.info[n].parent == p || f.info[n].parent in gone)
    && (forall i | 0 <= i < |kept| :: kept[i] in ChildrenOf(p, f) && kept[i] !in gone)
  }

  ghost predicate DetachOk(n: Node, f: Forest, p: Node, gone: set<Node>, kept: seq<Node>) {
    n in f.info ==> f.info[n].parent !in gone && (f.info[n].parent == p ==> n in kept)
  }

  /** The nodes of `gone` hang below unlisted children of `p`. */
  lemma GoneIsBelow(f: Forest, p: Node, incoming: set<string>, n: Node)
    requires Tree(f) && p in f.info && n in Gone(f, ChildrenOf(p, f), incoming)
    ensures n != f.root && n != p
    ensures f.info[n].parent != p ==> f.info[n].parent in Gone(f, ChildrenOf(p, f), incoming)
    ensures f.info[n].parent == p ==> PathOf(n, f) !in incoming
  {
    var cs := ChildrenOf(p, f);
    var i :| 0 <= i < |cs| && PathOf(cs[i], f) !in incoming && Under(n, cs[i], f);
    assert NodeOk(p, f) && NodeOk(cs[i], f) && NodeOk(n, f);
    UnderIsBelow(n, cs[i], f);
    if n != cs[i] {
      UnderIsBelow(f.info[n].parent, cs[i], f);
    }
  }

  lemma StaysAttached(f: Forest, p: Node, incoming: set<string>, n: Node)
    requires Tree(f) && p in f.info && n in f.info && n != f.root
    requires n !in Gone(f, ChildrenOf(p, f), incoming)
    ensures DetachOk(n, f, p, Gone(f, ChildrenOf(p, f), incoming), Kept(f, ChildrenOf(p, f), incoming))
  {
    var cs := ChildrenOf(p, f);
    var q := f.info[n].parent;
    assert NodeOk(n, f) && NodeOk(p, f);
    if q == p {
      UnderSelf(n, f);
      var i :| 0 <= i < |cs| && cs[i] == n;
      assert Under(n, cs[i], f);
      KeptAre(f, cs, incoming, n);
    }
  }

  lemma PruningDetaches(f: Forest, p: Node, incoming: set<string>)
    requires Tree(f) && p in f.info
    ensures var cs := ChildrenOf(p, f); Detaches(f, p, Gone(f, cs, incoming), Kept(f, cs, incoming))
  {
    var cs := ChildrenOf(p, f);
    var gone, kept := Gone(f, cs, incoming), Kept(f, cs, incoming);
    assert NodeOk(p, f);
    KeptAre(f, cs, incoming, p);
    forall n | n in gone ensures n != f.root && n != p && (f.info[n].parent == p || f.info[n].parent in gone) {
      GoneIsBelow(f, p, incoming, n);
    }
    forall n | n in f.info && n != f.root && n !in gone ensures DetachOk(n, f, p, gone, kept) {
      StaysAttached(f, p, incoming, n);
    }
    forall i | 0 <= i < |kept| ensures kept[i] !in gone {
      var c := kept[i];
      assert c in cs;
      if c in gone { GoneIsBelow(f, p, incoming, c); }
    }
  }

  lemma DetachedNode(f: Forest, p: Node, gone: set<Node>, kept: seq<Node>, n: Node)
    requires Tree(f) && Detaches(f, p, gone, kept) && n in f.info && n !in gone
    ensures NodeOk(n, Without(f, p, gone, kept))
  {
    var g := Without(f, p, gone, kept);
    assert NodeOk(n, f);
    assert n != f.root ==> DetachOk(n, f, p, gone, kept);
    var cs := g.info[n].children;
    forall j | 0 <= j < |cs| ensures cs[j] in g.info && cs[j] != f.root && g.info[cs[j]].parent == n {
      assert cs[j] in f.info[n].children;
    }
  }

  lemma DetachedIsTree(f: Forest, p: Node, gone: set<Node>, kept: seq<Node>)
    requires Tree(f) && Detaches(f, p, gone, kept)
    ensures Tree(Without(f, p, gone, kept))
  {
    var g := Without(f, p, gone, kept);
    forall n | n in g.info ensures NodeOk(n, g) {
      DetachedNode(f, p, gone, kept, n);
    }
  }

  lemma DetachedIndexed(f: Forest, p: Node, gone: set<Node>, kept: seq<Node>, m: map<string, Node>)
    requires Indexes(m, f) && gone <= f.info.Keys
    ensures Indexes(m - PathSet(gone, f), Without(f, p, gone, kept))
  {
    forall n | n in f.info && n !in gone ensures f.info[n].path !in PathSet(gone, f) {
      assert m[f.info[n].path] == n;
      if x :| x in gone && PathOf(x, f) == f.info[n].path { assert m[f.info[x].path] == x; }
    }
  }

  /** Pruning keeps the tree, and dropping the paths of what is gone keeps the index. */
  lemma PrunedIsTree(f: Forest, p: Node, incoming: set<string>, m: map<string, Node>)
    requires Tree(f) && p in f.info && Indexes(m, f)
    ensures Tree(Pruned(f, p, incoming)) && p in Pruned(f, p, incoming).info
    ensures Indexes(m - PathSet(Gone(f, ChildrenOf(p, f), incoming), f), Pruned(f, p, incoming))
  {
    var gone, kept := Gone(f, ChildrenOf(p, f), incoming), Kept(f, ChildrenOf(p, f), incoming);
    PruningDetaches(f, p, incoming);
    DetachedIsTree(f, p, gone, kept);
    DetachedIndexed(f, p, gone, kept, m);
  }

  /** The tree after appending the new leaf `c` to the children of `p`. */
  ghost function Grown(f: Forest, p: Node, c: Node, path: string): Forest {
    var i := if p in f.info then f.info[p] else Info(null, [], "", 0, {});
    Forest(f.root,
           f.info[p := i.(children := i.children + [c])][c := Info(p, [], path, i.depth + 1, {c} + i.above)],
           if i.depth + 1 > f.bound then i.depth + 1 else f.bound)
  }

  /** The tree after appending the leaves `added` one by one. */
  ghost function Appended(f: Forest, p: Node, added: seq<Node>, paths: seq<string>): Forest {
    if added == [] || |paths| != |added| then f
    else
      var n := |added| - 1;
      Grown(Appended(f, p, added[..n], paths[..n]), p, added[n], paths[n])
  }

  /** `g` is `f` with the leaves `added` appended to the children of `p`. */
  ghost predicate LooksAppended(f: Forest, p: Node, added: seq<Node>, paths: seq<string>, g: Forest) {
    && p in f.info && |added| == |paths| && g.root == f.root
    && (forall n | n in g.info :: n in f.info || n in added)
    && (forall n {:trigger g.info[n]} {:trigger f.info[n]} | n in f.info && n != p ::
        n in g.info && g.info[n] == f.info[n])
    && p in g.info && g.info[p] == f.info[p].(children := f.info[p].children + added)
    && (forall i {:trigger added[i]} | 0 <= i < |added| ::
          && added[i] in g.info && g.info[added[i]].path == paths[i]
          && g.info[added[i]].parent == p && g.info[added[i]].children == [])
  }

  lemma LooksAppendedSnoc(f: Forest, p: Node, added: seq<Node>, paths: seq<string>, g: Forest, c: Node, path: string)
    requires LooksAppended(f, p, added, paths, g) && c !in g.info
    ensures LooksAppended(f, p, added + [c], paths + [path], Grown(g, p, c, path))
  {
    var h := Grown(g, p, c, path);
    assert f.info[p].children + (added + [c]) == f.info[p].children + added + [c];
    forall i | 0 <= i < |added + [c]|
      ensures var n := (added + [c])[i];
              n in h.info && h.info[n].path == (paths + [path])[i] && h.info[n].parent == p && h.info[n].children == []
    {
      if i < |added| { assert added[i] in g.info && added[i] != c; }
    }
  }

  /** Appending touches nothing but the children of `p` and the new leaves. */
  lemma {:induction false} AppendedIs(f: Forest, p: Node, added: seq<Node>, paths: seq<string>)
    requires p in f.info && |added| == |paths| && NoDup(added)
    requires forall i {:trigger added[i]} | 0 <= i < |added| :: added[i] !in f.info
    ensures LooksAppended(f, p, added, paths, Appended(f, p, added, paths))
    decreases |added|
  {
    if added == [] {
      assert f.info[p].children + added == f.info[p].children;
    } else {
      hide LooksAppended;
      var n := |added| - 1;
      AppendedIs(f, p, added[..n], paths[..n]);
      assert added == added[..n] + [added[n]] && paths == paths[..n] + [paths[n]];
      AppendedFresh(f, p, added[..n], paths[..n], added[n]);
      LooksAppendedSnoc(f, p, added[..n], paths[..n], Appended(f, p, added[..n], paths[..n]), added[n], paths[n]);
    }
  }

  lemma AppendedFresh(f: Forest, p: Node, added: seq<Node>, paths: seq<string>, c: Node)
    requires LooksAppended(f, p, added, paths, Appended(f, p, added, paths)) && c !in f.info && c !in added
    ensures c !in Appended(f, p, added, paths).info
  {
  }

  lemma GrownNode(f: Forest, p: Node, c: Node, path: string, n: Node)
    requires Tree(f) && p in f.info && c !in f.info && path != "" && (n in f.info || n == c)
    ensures NodeOk(n, Grown(f, p, c, path))
  {
    var g := Grown(f, p, c, path);
    var k := |f.info[p].children|;
    assert NodeOk(p, f);
    assert g.info[p].children[k] == c;
    if n != c {
      assert NodeOk(n, f);
      forall i | 0 <= i < |g.info[n].children|
        ensures g.info[n].children[i] in g.info && g.info[g.info[n].children[i]].parent == n
      {
        if n != p || i < k { assert g.info[n].children[i] == f.info[n].children[i]; }
      }
      if n != f.root {
        var q := f.info[n].parent;
        var i :| 0 <= i < |f.info[q].children| && f.info[q].children[i] == n;
        assert g.info[q].children[i] == n;
      }
    }
  }

  lemma GrownIsTree(f: Forest, p: Node, c: Node, path: string, m: map<string, Node>)
    requires Tree(f) && p in f.info && c !in f.info && Indexes(m, f) && path !in m
    ensures Tree(Grown(f, p, c, path)) && Indexes(m[path := c], Grown(f, p, c, path))
  {
    var g := Grown(f, p, c, path);
    assert NodeOk(f.root, f);
    assert f.info[f.root].path in m;
    forall n | n in g.info ensures NodeOk(n, g) {
      GrownNode(f, p, c, path, n);
    }
  }

  // ---------------------------------------------------------------------------
  // What a listing does to the children, on values.
  // ---------------------------------------------------------------------------

  function IncomingPaths(entries: seq<FsEntry>): set<string> {
    set e | e in entries :: e.path
  }

  /** `first` is the path of the root's first child. */
  predicate IsAlias(path: string, first: Option<string>) {
    path == "" || path == "." || (first.Some? && ParentPathOf(first.value) == path)
  }

  /** Progress of the insertion loop: entries that became nodes, indexed paths, the
      path of the root's first child, and the last entry that landed on the root. */
  datatype Plan = Plan(added: seq<FsEntry>, known: set<string>, first: Option<string>, onRoot: Option<FsEntry>)

  function PlanStep(p: Plan, e: FsEntry, atRoot: bool): Plan {
    if e.path in p.known then (if e.path == "" then p.(onRoot := Some(e)) else p)
    else if IsAlias(e.path, p.first) then p.(onRoot := Some(e))
    else Plan(p.added + [e], p.known + {e.path},
              if atRoot && p.first.None? then Some(e.path) else p.first, p.onRoot)
  }

  function PlanRun(p: Plan, entries: seq<FsEntry>, atRoot: bool): Plan {
    if entries == [] then p
    else PlanStep(PlanRun(p, entries[..|entries| - 1], atRoot), entries[|entries| - 1], atRoot)
  }

  /** The last entry listed under `path`. */
  function LastEntry(entries: seq<FsEntry>, path: string): Option<FsEntry> {
    if entries == [] then None
    else if entries[|entries| - 1].path == path then Some(entries[|entries| - 1])
    else LastEntry(entries[..|entries| - 1], path)
  }

  /** Paths in listing order, repetitions and `seen` ones left out. */
  function NewPaths(entries: seq<FsEntry>, seen: set<string>): seq<string> {
    if entries == [] then []
    else
      var n := |entries| - 1;
      var before := NewPaths(entries[..n], seen);
      if entries[n].path in seen || entries[n].path in before then before
      else before + [entries[n].path]
  }

  /** What a node shows after `entries`: the last entry that landed on it. */
  function MetaAfter(was: Meta, isRoot: bool, path: string, entries: seq<FsEntry>, onRoot: Option<FsEntry>): Meta {
    var last := if isRoot then onRoot else LastEntry(entries, path);
    if last.Some? then MetaOf(last.value) else was
  }

  function PathsOf(entries: seq<FsEntry>): seq<string> {
    seq(|entries|, i requires 0 <= i < |entries| => entries[i].path)
  }

  /** A listing of directory `dir`: every entry is a direct child of it. */
  ghost predicate ListingOf(entries: seq<FsEntry>, dir: string) {
    forall i | 0 <= i < |entries| :: InDirectory(entries[i].path, dir)
  }

  predicate InDirectory(path: string, dir: string) {
    ParentPathOf(path) == dir && |dir| < |path| && path != "."
  }

  /** A well-named entry of a provider listing is in the directory that was listed. */
  lemma JoinedIsInDirectory(dir: string, name: string)
    requires IsName(name)
    ensures InDirectory(JoinPath(dir, name), if TrimAll(dir) == "" then "/" else TrimAll(dir))
  {
    ParentOfJoin(dir, name);
    assert '/' in JoinPath(dir, name) by { assert JoinPath(dir, name)[|TrimAll(dir)|] == '/'; }
  }

  /** `r` has added exactly `paths`, all in directory `dir`, and nothing landed on the root. */
  ghost predicate AddsPaths(p: Plan, r: Plan, paths: seq<string>, dir: string) {
    && PathsOf(r.added) == paths
    && (forall x | x in r.known :: x in p.known || x in paths)
    && p.known <= r.known && (forall x | x in paths :: x in r.known)
    && r.onRoot == None
    && (r.first == p.first || (r.first.Some? && ParentPathOf(r.first.value) == dir))
    && ListingOf(r.added, dir)
  }

  lemma AddsNext(p: Plan, q: Plan, paths: seq<string>, dir: string, e: FsEntry, atRoot: bool)
    requires AddsPaths(p, q, paths, dir) && "" in p.known && InDirectory(e.path, dir)
    requires p.first.Some? ==> e.path != ParentPathOf(p.first.value)
    ensures AddsPaths(p, PlanStep(q, e, atRoot),
                      if e.path in p.known || e.path in paths then paths else paths + [e.path], dir)
  {
    assert !IsAlias(e.path, q.first);
    if e.path !in q.known {
      assert PathsOf(q.added + [e]) == PathsOf(q.added) + [e.path];
    }
  }

  lemma PlanRunSnoc(p: Plan, entries: seq<FsEntry>, atRoot: bool)
    requires entries != []
    ensures var n := |entries| - 1;
            PlanRun(p, entries, atRoot) == PlanStep(PlanRun(p, entries[..n], atRoot), entries[n], atRoot)
  {
  }

  /** For a listing of one directory no entry is taken for the root, so the new nodes
      are the unseen paths in listing order. */
  lemma {:induction false} DirectoryPlan(p: Plan, entries: seq<FsEntry>, atRoot: bool, dir: string)
    requires ListingOf(entries, dir) && p.added == [] && p.onRoot == None && "" in p.known
    requires p.first.Some? ==>
               forall i | 0 <= i < |entries| :: entries[i].path != ParentPathOf(p.first.value)
    ensures AddsPaths(p, PlanRun(p, entries, atRoot), NewPaths(entries, p.known), dir)
    decreases |entries|
  {
    if entries != [] {
      var n := |entries| - 1;
      PlanRunSnoc(p, entries, atRoot);
      assert InDirectory(entries[n].path, dir);
      hide AddsPaths, PlanStep, InDirectory, PlanRun;
      DirectoryPlan(p, entries[..n], atRoot, dir);
      AddsNext(p, PlanRun(p, entries[..n], atRoot), NewPaths(entries[..n], p.known), dir, entries[n], atRoot);
    }
  }

  lemma {:induction false} NewPathsAre(entries: seq<FsEntry>, seen: set<string>, x: string)
    ensures x in NewPaths(entries, seen) <==> x in IncomingPaths(entries) && x !in seen
    decreases |entries|
  {
    if entries != [] {
      var n := |entries| - 1;
      NewPathsAre(entries[..n], seen, x);
      NewPathsAre(entries[..n], seen, entries[n].path);
      assert entries == entries[..n] + [entries[n]];
      assert x in IncomingPaths(entries) <==> x in IncomingPaths(entries[..n]) || x == entries[n].path by {
        if x in IncomingPaths(entries) {
          var e :| e in entries && e.path == x;
        }
        if x in IncomingPaths(entries[..n]) {
          var e :| e in entries[..n] && e.path == x;
          assert e in entries;
        }
        if x == entries[n].path { assert entries[n] in entries; }
      }
    }
  }

  predicate Adds(p: Plan, path: string) { exists i :: 0 <= i < |p.added| && p.added[i].path == path }

  /** Only listed paths are added, and what is known is what was known and what was added;
      the root's first row, once there, stays. */
  lemma {:induction false} PlanIs(p: Plan, entries: seq<FsEntry>, atRoot: bool, path: string)
    requires p.added == []
    ensures var r := PlanRun(p, entries, atRoot);
            && (Adds(r, path) ==> exists k :: 0 <= k < |entries| && entries[k].path == path)
            && (path in r.known <==> path in p.known || Adds(r, path))
            && (p.first.Some? ==> r.first == p.first)
    decreases |entries|
  {
    if entries != [] {
      var n := |entries| - 1;
      PlanIs(p, entries[..n], atRoot, path);
      var q, r := PlanRun(p, entries[..n], atRoot), PlanRun(p, entries, atRoot);
      OneStep(q, entries[n], atRoot, path);
      if Adds(q, path) {
        var k :| 0 <= k < n && entries[..n][k].path == path;
        assert entries[k].path == path;
      }
    }
  }

  lemma OneStep(q: Plan, e: FsEntry, atRoot: bool, path: string)
    ensures var r := PlanStep(q, e, atRoot);
            && (Adds(r, path) <==> Adds(q, path) || (e.path == path && e.path !in q.known && !IsAlias(path, q.first)))
            && (path in r.known <==> path in q.known || (e.path == path && !IsAlias(path, q.first)))
            && (q.first.Some? ==> r.first == q.first)
            && (IsAlias(path, q.first) ==> IsAlias(path, r.first))
  {
    var r := PlanStep(q, e, atRoot);
    if Adds(q, path) {
      var i :| 0 <= i < |q.added| && q.added[i].path == path;
      assert r.added[i].path == path;
    }
    if r.added != q.added { assert r.added[|q.added|] == e; }
  }

  ghost predicate FirstListed(entries: seq<FsEntry>, i: nat) {
    i < |entries| && forall k | 0 <= k < i :: entries[k].path != entries[i].path
  }

  /** A path becomes a node exactly if, when it first comes up, it is neither indexed nor
      taken for the root. */
  lemma {:induction false} AddedAtFirstListing(p: Plan, entries: seq<FsEntry>, atRoot: bool, i: nat)
    requires p.added == [] && FirstListed(entries, i)
    ensures var x := entries[i].path; var before := PlanRun(p, entries[..i], atRoot);
            && (Adds(PlanRun(p, entries, atRoot), x) <==> x !in p.known && !IsAlias(x, before.first))
            && (IsAlias(x, before.first) ==> IsAlias(x, PlanRun(p, entries, atRoot).first))
    decreases |entries|
  {
    var n, x := |entries| - 1, entries[i].path;
    var q := PlanRun(p, entries[..n], atRoot);
    PlanIs(p, entries[..n], atRoot, x);
    OneStep(q, entries[n], atRoot, x);
    if i < n {
      assert entries[..n][..i] == entries[..i];
      AddedAtFirstListing(p, entries[..n], atRoot, i);
    }
  }

  /** The insertion plan a tree starts with. */
  ghost function StartOf(f: Forest): Plan {
    var cs := ChildrenOf(f.root, f);
    Plan([], PathSet(f.info.Keys, f), if cs == [] then None else Some(PathOf(cs[0], f)), None)
  }

  /** What the insertion loop has built from the tree `was` once it has seen `done`. */
  ghost predicate Built(p: Node, was: Forest, done: seq<FsEntry>, added: seq<Node>, plan: Plan, now: Forest) {
    && p in was.info && plan == PlanRun(StartOf(was), done, p == was.root)
    && |added| == |plan.added| && NoDup(added)
    && (forall i {:trigger added[i]} | 0 <= i < |added| :: added[i] !in was.info)
    && now == Appended(was, p, added, PathsOf(plan.added))
  }

  lemma BuiltIs(p: Node, was: Forest, done: seq<FsEntry>, added: seq<Node>, plan: Plan, now: Forest)
    requires Built(p, was, done, added, plan, now)
    ensures now.root == was.root && p in now.info
    ensures forall n :: n in now.info <==> n in was.info || n in added
    ensures forall n | n in was.info :: n in now.info && PathOf(n, now) == PathOf(n, was)
    ensures forall i {:trigger added[i]} | 0 <= i < |added| :: PathOf(added[i], now) == plan.added[i].path
  {
    AppendedIs(was, p, added, PathsOf(plan.added));
  }

  lemma BuiltSnoc(p: Node, was: Forest, done: seq<FsEntry>, added: seq<Node>, plan: Plan,
                  now: Forest, e: FsEntry, child: Node?, next: Forest)
    requires Built(p, was, done, added, plan, now)
    requires child == null <==> PlanStep(plan, e, p == was.root).added == plan.added
    requires child != null ==> child !in now.info
    requires next == if child == null then now else Grown(now, p, child, e.path)
    ensures Built(p, was, done + [e], if child == null then added else added + [child],
                  PlanStep(plan, e, p == was.root), next)
  {
    SnocSteps(was, p, added, plan.added, child, e, StartOf(was), done);
    BuiltIs(p, was, done, added, plan, now);
    if child != null {
      AddsOne(plan, e, p == was.root);
      assert child !in added by { assert forall i {:trigger added[i]} | 0 <= i < |added| :: added[i] in now.info; }
      FreshSnoc(was, added, child);
    }
    hide Appended, PlanRun, PathsOf, Grown, PathOf, StartOf, PlanStep, NoDup;
  }

  lemma AddsOne(plan: Plan, e: FsEntry, atRoot: bool)
    requires PlanStep(plan, e, atRoot).added != plan.added
    ensures PlanStep(plan, e, atRoot).added == plan.added + [e]
  {
  }

  lemma FreshSnoc(was: Forest, added: seq<Node>, c: Node)
    requires NoDup(added) && c !in added && c !in was.info
    requires forall i {:trigger added[i]} | 0 <= i < |added| :: added[i] !in was.info
    ensures NoDup(added + [c])
    ensures forall i {:trigger (added + [c])[i]} | 0 <= i < |added + [c]| :: (added + [c])[i] !in was.info
  {
  }

  lemma SnocSteps(f: Forest, p: Node, added: seq<Node>, es: seq<FsEntry>, c: Node?, e: FsEntry, start: Plan,
                  done: seq<FsEntry>)
    requires |added| == |es|
    ensures c != null ==>
              Appended(f, p, added + [c], PathsOf(es + [e])) == Grown(Appended(f, p, added, PathsOf(es)), p, c, e.path)
    ensures PlanRun(start, done + [e], p == f.root) == PlanStep(PlanRun(start, done, p == f.root), e, p == f.root)
  {
    assert (done + [e])[..|done|] == done;
    assert PathsOf(es + [e])[..|es|] == PathsOf(es);
    if c != null { assert (added + [c])[..|added|] == added; }
  }

  /** `LastEntry` is the last listed entry of its path. */
  lemma {:induction false} LastEntryIs(entries: seq<FsEntry>, path: string)
    ensures var e := LastEntry(entries, path);
            if e.None? then forall i | 0 <= i < |entries| :: entries[i].path != path
            else exists k :: 0 <= k < |entries| && entries[k] == e.value && e.value.path == path
                             && forall i | k < i < |entries| :: entries[i].path != path
    decreases |entries|
  {
    if entries != [] {
      var n := |entries| - 1;
      LastEntryIs(entries[..n], path);
      var e := LastEntry(entries[..n], path);
      if entries[n].path == path {
        assert entries[n] == LastEntry(entries, path).value;
      } else if e.Some? {
        var k :| 0 <= k < n && entries[..n][k] == e.value && forall i | k < i < n :: entries[..n][i].path != path;
        assert entries[k] == e.value;
        forall i | k < i < |entries| ensures entries[i].path != path {
          if i < n { assert entries[..n][i].path != path; }
        }
      } else {
        forall i | 0 <= i < |entries| ensures entries[i].path != path {
          if i < n { assert entries[..n][i].path != path; }
        }
      }
    }
  }

  /** Survivors keep their relative order. */
  lemma {:induction false} KeptInOrder(f: Forest, cs: seq<Node>, incoming: set<string>, i: nat, j: nat)
    requires i < j < |Kept(f, cs, incoming)|
    ensures exists a, b :: 0 <= a < b < |cs| && cs[a] == Kept(f, cs, incoming)[i] && cs[b] == Kept(f, cs, incoming)[j]
    decreases |cs|
  {
    var kept, rest := Kept(f, cs, incoming), Kept(f, cs[1..], incoming);
    if PathOf(cs[0], f) in incoming {
      assert kept == [cs[0]] + rest;
      if i == 0 {
        KeptIsPart(f, cs[1..], incoming, j - 1);
        var b :| 0 <= b < |cs[1..]| && cs[1..][b] == rest[j - 1];
        assert cs[0] == kept[i] && cs[b + 1] == kept[j];
      } else {
        KeptInOrder(f, cs[1..], incoming, i - 1, j - 1);
        var a, b :| 0 <= a < b < |cs[1..]| && cs[1..][a] == rest[i - 1] && cs[1..][b] == rest[j - 1];
        assert cs[a + 1] == kept[i] && cs[b + 1] == kept[j];
      }
    } else {
      assert kept == rest;
      KeptInOrder(f, cs[1..], incoming, i, j);
      var a, b :| 0 <= a < b < |cs[1..]| && cs[1..][a] == rest[i] && cs[1..][b] == rest[j];
      assert cs[a + 1] == kept[i] && cs[b + 1] == kept[j];
    }
  }

  lemma {:induction false} KeptIsPart(f: Forest, cs: seq<Node>, incoming: set<string>, j: nat)
    requires j < |Kept(f, cs, incoming)|
    ensures exists b :: 0 <= b < |cs| && cs[b] == Kept(f, cs, incoming)[j]
    decreases |cs|
  {
    var kept, rest := Kept(f, cs, incoming), Kept(f, cs[1..], incoming);
    if PathOf(cs[0], f) in incoming && j == 0 {
      assert cs[0] == kept[j];
    } else {
      var d := if PathOf(cs[0], f) in incoming then 1 else 0;
      KeptIsPart(f, cs[1..], incoming, j - d);
      var b :| 0 <= b < |cs[1..]| && cs[1..][b] == rest[j - d];
      assert cs[b + 1] == kept[j];
    }
  }

  /** New paths come in the order in which they are first listed. */
  lemma {:induction false} NewPathsInOrder(entries: seq<FsEntry>, seen: set<string>, i: nat, j: nat)
    requires i <= j < |NewPaths(entries, seen)|
    ensures exists a: nat, b: nat :: FirstListed(entries, a) && FirstListed(entries, b) && (i < j ==> a < b)
                           && entries[a].path == NewPaths(entries, seen)[i]
                           && entries[b].path == NewPaths(entries, seen)[j]
    decreases |entries|
  {
    var n := |entries| - 1;
    var before := NewPaths(entries[..n], seen);
    if j < |before| {
      NewPathsInOrder(entries[..n], seen, i, j);
      var a: nat, b: nat :| FirstListed(entries[..n], a) && FirstListed(entries[..n], b) && (i < j ==> a < b)
                  && entries[..n][a].path == before[i] && entries[..n][b].path == before[j];
      assert FirstListed(entries, a) && FirstListed(entries, b);
    } else {
      assert FirstListed(entries, n) by {
        forall k | 0 <= k < n ensures entries[k].path != entries[n].path {
          NewPathsAre(entries[..n], seen, entries[n].path);
          assert entries[..n][k] in entries[..n];
        }
      }
      if i < j {
        NewPathsInOrder(entries[..n], seen, i, i);
        var a: nat :| FirstListed(entries[..n], a) && entries[..n][a].path == before[i];
        assert FirstListed(entries, a);
      }
    }
  }

  lemma LastEntrySnoc(done: seq<FsEntry>, e: FsEntry, path: string)
    ensures LastEntry(done + [e], path) == if e.path == path then Some(e) else LastEntry(done, path)
  {
    assert (done + [e])[..|done|] == done;
  }

  // ---------------------------------------------------------------------------
  // Listings of one directory, in a tree rooted at the directory `home`.
  // ---------------------------------------------------------------------------

  /** The remote directory a node stands for. */
  ghost function DirOf(n: Node, f: Forest, home: string): string {
    if n == f.root then home else PathOf(n, f)
  }

  ghost predicate HomedNode(n: Node, f: Forest, home: string) {
    n in f.info && n != f.root ==>
      f.info[n].parent != null && InDirectory(f.info[n].path, DirOf(f.info[n].parent, f, home))
  }

  /** Every node lies in the remote directory its parent stands for. */
  ghost predicate Homed(f: Forest, home: string) {
    forall n {:trigger HomedNode(n, f, home)} | n in f.info :: HomedNode(n, f, home)
  }

  lemma {:induction false} HomeIsShortest(n: Node, f: Forest, home: string)
    requires Tree(f) && Homed(f, home) && n in f.info && n != f.root
    ensures |home| < |PathOf(n, f)|
    ensures Under(n, f.root, f)
    decreases f.info[n].depth
  {
    assert NodeOk(n, f) && HomedNode(n, f, home);
    var q := f.info[n].parent;
    if q == f.root {
      UnderSelf(n, f);
    } else {
      HomeIsShortest(q, f, home);
    }
  }

  /** A node whose path lies in the directory of `p` is a child of `p`. */
  lemma SameDirectoryIsChild(n: Node, p: Node, f: Forest, home: string, m: map<string, Node>)
    requires Tree(f) && Homed(f, home) && Indexes(m, f) && n in f.info && p in f.info && n != f.root
    requires InDirectory(PathOf(n, f), DirOf(p, f, home))
    ensures f.info[n].parent == p && n in f.info[p].children
  {
    assert NodeOk(n, f) && HomedNode(n, f, home);
    var q := f.info[n].parent;
    if q != p {
      if q != f.root { HomeIsShortest(q, f, home); }
      if p != f.root { HomeIsShortest(p, f, home); }
      if q != f.root && p != f.root {
        PathsAreDistinct(m, f, q, p);
      }
    }
  }

  lemma {:induction false} NewPathsSame(entries: seq<FsEntry>, a: set<string>, b: set<string>)
    requires forall i | 0 <= i < |entries| :: entries[i].path in a <==> entries[i].path in b
    ensures NewPaths(entries, a) == NewPaths(entries, b)
    decreases |entries|
  {
    if entries != [] { NewPathsSame(entries[..|entries| - 1], a, b); }
  }

  lemma PrunedIsHomed(f: Forest, p: Node, incoming: set<string>, home: string)
    requires Tree(f) && p in f.info && Homed(f, home) && Tree(Pruned(f, p, incoming))
    ensures Homed(Pruned(f, p, incoming), home)
  {
    var g := Pruned(f, p, incoming);
    forall n | n in g.info ensures HomedNode(n, g, home) {
      assert HomedNode(n, f, home) && NodeOk(n, g);
    }
  }

  /** In a homed tree a listing of the directory of `p` inserts exactly the listed paths
      that no remaining child has, in listing order and once each. */
  lemma DirectoryInserts(f: Forest, p: Node, entries: seq<FsEntry>, home: string, m: map<string, Node>)
    requires Tree(f) && Indexes(m, f) && p in f.info && Homed(f, home)
    requires ListingOf(entries, DirOf(p, f, home))
    ensures var plan := PlanRun(StartOf(f), entries, p == f.root);
            && PathsOf(plan.added) == NewPaths(entries, PathSet((set c | c in f.info[p].children), f))
            && plan.onRoot == None && ListingOf(plan.added, DirOf(p, f, home))
  {
    var start, dir := StartOf(f), DirOf(p, f, home);
    var kids := PathSet((set c | c in f.info[p].children), f);
    assert NodeOk(f.root, f) && NodeOk(p, f);
    if p != f.root {
      HomeIsShortest(p, f, home);
      DescendsThroughChild(p, f.root, f);
    }
    if start.first.Some? {
      var c := f.info[f.root].children[0];
      assert HomedNode(c, f, home);
    }
    assert PathOf(f.root, f) in start.known;
    DirectoryPlan(start, entries, p == f.root, dir);
    forall i | 0 <= i < |entries| ensures entries[i].path in start.known <==> entries[i].path in kids {
      assert InDirectory(entries[i].path, dir);
      if entries[i].path in start.known {
        var n :| n in f.info && PathOf(n, f) == entries[i].path;
        SameDirectoryIsChild(n, p, f, home, m);
      }
      if entries[i].path in kids {
        var c :| c in f.info[p].children && PathOf(c, f) == entries[i].path;
        assert c in f.info;
      }
    }
    NewPathsSame(entries, start.known, kids);
  }

  /** Applying a listing of the directory of `p`: the child paths become exactly the
      listed ones, the surviving children stay in order in front, new ones follow in
      listing order, and the tree stays homed. */
  lemma DirectoryListing(f: Forest, p: Node, entries: seq<FsEntry>, home: string, m: map<string, Node>,
                         added: seq<Node>, plan: Plan, g: Forest)
    requires Tree(f) && Indexes(m, f) && p in f.info && Homed(f, home)
    requires ListingOf(entries, DirOf(p, f, home))
    requires Built(p, Pruned(f, p, IncomingPaths(entries)), entries, added, plan, g) && Tree(g)
    ensures var kept := Kept(f, f.info[p].children, IncomingPaths(entries));
            && g.info[p].children == kept + added
            && PathSet((set c | c in g.info[p].children), g) == IncomingPaths(entries)
            && PathsOf(plan.added) == NewPaths(entries, PathSet((set c | c in kept), f))
    ensures Homed(g, home)
  {
    var incoming := IncomingPaths(entries);
    var mid := Pruned(f, p, incoming);
    var kept := Kept(f, f.info[p].children, incoming);
    assert NodeOk(p, f);
    KeptAre(f, f.info[p].children, incoming, p);
    PrunedIsTree(f, p, incoming, m);
    PrunedIsHomed(f, p, incoming, home);
    DirectoryInserts(mid, p, entries, home, m - PathSet(Gone(f, ChildrenOf(p, f), incoming), f));
    assert mid.info[p] == f.info[p].(children := kept);
    BuiltIsHomed(p, mid, entries, added, plan, g, home);
    KeptPaths(f, p, kept, mid, g, entries, added, plan);
    ChildPathsAreListed(f, p, entries, kept, added, plan, g);
  }

  /** The surviving children keep their paths. */
  lemma KeptPaths(f: Forest, p: Node, kept: seq<Node>, mid: Forest, g: Forest,
                  entries: seq<FsEntry>, added: seq<Node>, plan: Plan)
    requires Tree(mid) && Built(p, mid, entries, added, plan, g) && mid.info[p].children == kept
    requires forall n {:trigger mid.info[n]} | n in mid.info :: PathOf(n, f) == PathOf(n, mid)
    ensures g.info[p].children == kept + added
    ensures PathSet((set c | c in kept), mid) == PathSet((set c | c in kept), f)
    ensures forall i | 0 <= i < |kept| :: PathOf(kept[i], g) == PathOf(kept[i], f)
    ensures forall i {:trigger added[i]} | 0 <= i < |added| :: PathOf(added[i], g) == plan.added[i].path
  {
    assert NodeOk(p, mid);
    AppendedIs(mid, p, added, PathsOf(plan.added));
    forall i | 0 <= i < |kept|
      ensures PathOf(kept[i], g) == PathOf(kept[i], f) == PathOf(kept[i], mid)
    {
      assert kept[i] in mid.info;
    }
  }

  lemma BuiltIsHomed(p: Node, mid: Forest, entries: seq<FsEntry>, added: seq<Node>, plan: Plan, g: Forest, home: string)
    requires Tree(mid) && Homed(mid, home) && Built(p, mid, entries, added, plan, g)
    requires ListingOf(plan.added, DirOf(p, mid, home))
    ensures Homed(g, home)
  {
    AppendedIs(mid, p, added, PathsOf(plan.added));
    forall n | n in g.info ensures HomedNode(n, g, home) {
      if n in mid.info {
        assert HomedNode(n, mid, home) && NodeOk(n, mid);
      } else {
        var i :| 0 <= i < |added| && added[i] == n;
        assert InDirectory(plan.added[i].path, DirOf(p, mid, home));
      }
    }
  }

  /** What a listing leaves alone: outside the subtrees of the removed children only the
      child list of `p` changes, and inside them nothing stays. */
  lemma ListingFrame(f: Forest, p: Node, entries: seq<FsEntry>, added: seq<Node>, plan: Plan, g: Forest, n: Node)
    requires Tree(f) && p in f.info && n in f.info
    requires Built(p, Pruned(f, p, IncomingPaths(entries)), entries, added, plan, g)
    requires forall i {:trigger added[i]} | 0 <= i < |added| :: added[i] !in f.info
    ensures n in g.info
            <==> !exists c :: c in ChildrenOf(p, f) && PathOf(c, f) !in IncomingPaths(entries) && Under(n, c, f)
    ensures n in g.info && n != p ==> g.info[n] == f.info[n]
  {
    var mid := Pruned(f, p, IncomingPaths(entries));
    AppendedIs(mid, p, added, PathsOf(plan.added));
    if c :| c in ChildrenOf(p, f) && PathOf(c, f) !in IncomingPaths(entries) && Under(n, c, f) {
      var i :| 0 <= i < |ChildrenOf(p, f)| && ChildrenOf(p, f)[i] == c;
    }
  }

  /** The nodes that a listing of `p` leaves in the tree. */
  ghost function Surviving(f: Forest, p: Node, entries: seq<FsEntry>): set<Node> {
    set n | n in f.info && n !in Gone(f, ChildrenOf(p, f), IncomingPaths(entries))
  }

  /** The first listed path that is new and not taken for the root of an empty tree. */
  function FirstFresh(known: set<string>, entries: seq<FsEntry>): Option<string> {
    if entries == [] then None
    else
      var n := |entries| - 1;
      var before := FirstFresh(known, entries[..n]);
      var x := entries[n].path;
      if before.Some? then before else if x in known || x == "" || x == "." then None else Some(x)
  }

  /** The root's first row during the insertions: its first surviving child, or else the
      first new path if it is the root that is listed. */
  ghost function FirstRow(f: Forest, p: Node, entries: seq<FsEntry>): Option<string> {
    var rows := if p == f.root then Kept(f, ChildrenOf(p, f), IncomingPaths(entries)) else ChildrenOf(f.root, f);
    if rows != [] then Some(PathOf(rows[0], f))
    else if p == f.root then FirstFresh(PathSet(Surviving(f, p, entries), f), entries)
    else None
  }

  predicate TakenForRoot(x: string, first: Option<string>) {
    x == "" || x == "." || (first.Some? && x != first.value && ParentPathOf(first.value) == x)
  }

  /** The listed path `x` is a child of `p` already, or no surviving node has it and it is
      not taken for the root. */
  ghost predicate HasPlace(f: Forest, p: Node, entries: seq<FsEntry>, x: string) {
    || x in PathSet((set c | c in ChildrenOf(p, f)), f)
    || (x !in PathSet(Surviving(f, p, entries), f) && !TakenForRoot(x, FirstRow(f, p, entries)))
  }

  lemma {:induction false} PlanFirst(p: Plan, entries: seq<FsEntry>, atRoot: bool)
    requires p.added == []
    ensures var r := PlanRun(p, entries, atRoot);
            && r.first == (if p.first.Some? || !atRoot then p.first else FirstFresh(p.known, entries))
            && (p.first.None? && atRoot && r.first.None? ==> r.known == p.known)
    decreases |entries|
  {
    if entries != [] { PlanFirst(p, entries[..|entries| - 1], atRoot); }
  }

  lemma {:induction false} FreshIsListed(known: set<string>, entries: seq<FsEntry>)
    requires FirstFresh(known, entries).Some?
    ensures exists k :: 0 <= k < |entries| && entries[k].path == FirstFresh(known, entries).value
    decreases |entries|
  {
    var n := |entries| - 1;
    if FirstFresh(known, entries[..n]).Some? {
      FreshIsListed(known, entries[..n]);
      var k :| 0 <= k < n && entries[..n][k].path == FirstFresh(known, entries[..n]).value;
      assert entries[k].path == FirstFresh(known, entries).value;
    } else {
      assert entries[n].path == FirstFresh(known, entries).value;
    }
  }

  /** Nothing listed after the first new path matters for it. */
  lemma {:induction false} FreshAt(known: set<string>, entries: seq<FsEntry>, i: nat)
    requires FirstListed(entries, i) && entries[i].path !in known
    ensures var x := entries[i].path;
            var before, all := FirstFresh(known, entries[..i]), FirstFresh(known, entries);
            if before.Some? then all == before && before.value != x else x == "" || x == "." || all == Some(x)
    decreases |entries|
  {
    var n := |entries| - 1;
    if i < n {
      assert entries[..n][..i] == entries[..i];
      FreshAt(known, entries[..n], i);
    } else if FirstFresh(known, entries[..i]).Some? {
      FreshIsListed(known, entries[..i]);
    }
  }

  /** The pruned tree in terms of the original one. */
  lemma PrunedRows(f: Forest, p: Node, entries: seq<FsEntry>)
    requires Tree(f) && p in f.info
    ensures var mid := Pruned(f, p, IncomingPaths(entries));
            var cs := ChildrenOf(f.root, f);
            var rows := if p == f.root then Kept(f, cs, IncomingPaths(entries)) else cs;
            && PathSet(mid.info.Keys, mid) == PathSet(Surviving(f, p, entries), f)
            && StartOf(mid).first == (if rows == [] then None else Some(PathOf(rows[0], f)))
  {
    var incoming := IncomingPaths(entries);
    var mid := Pruned(f, p, incoming);
    PruningDetaches(f, p, incoming);
    DetachedIsTree(f, p, Gone(f, ChildrenOf(p, f), incoming), Kept(f, ChildrenOf(p, f), incoming));
    assert mid.info.Keys == Surviving(f, p, entries);
    assert forall n | n in mid.info :: PathOf(n, mid) == PathOf(n, f);
    assert NodeOk(mid.root, mid);
    if ChildrenOf(mid.root, mid) != [] { assert ChildrenOf(mid.root, mid)[0] in mid.info; }
  }

  lemma PrunedChildPaths(f: Forest, p: Node, entries: seq<FsEntry>, x: string)
    requires Tree(f) && p in f.info && x in IncomingPaths(entries)
    ensures var mid := Pruned(f, p, IncomingPaths(entries));
            x in PathSet((set c | c in ChildrenOf(p, mid)), mid) <==> x in PathSet((set c | c in ChildrenOf(p, f)), f)
  {
    var incoming := IncomingPaths(entries);
    var mid := Pruned(f, p, incoming);
    var cs := ChildrenOf(p, f);
    PruningDetaches(f, p, incoming);
    assert NodeOk(p, f);
    assert ChildrenOf(p, mid) == Kept(f, cs, incoming);
    forall c ensures c in ChildrenOf(p, mid) <==> c in cs && PathOf(c, f) in incoming { KeptAre(f, cs, incoming, c); }
    forall c | c in ChildrenOf(p, mid) ensures PathOf(c, mid) == PathOf(c, f) {
      var i :| 0 <= i < |Kept(f, cs, incoming)| && Kept(f, cs, incoming)[i] == c;
    }
  }

  /** The child paths afterwards: those of the survivors and the added ones, all listed. */
  lemma ChildPathsNow(f: Forest, p: Node, entries: seq<FsEntry>, m: map<string, Node>,
                      added: seq<Node>, plan: Plan, g: Forest, x: string)
    requires Tree(f) && Indexes(m, f) && p in f.info
    requires Built(p, Pruned(f, p, IncomingPaths(entries)), entries, added, plan, g)
    ensures var mid := Pruned(f, p, IncomingPaths(entries));
            && (x in PathSet((set c | c in ChildrenOf(p, g)), g) <==>
                  x in PathSet((set c | c in ChildrenOf(p, mid)), mid) || Adds(plan, x))
            && (x in PathSet((set c | c in ChildrenOf(p, g)), g) ==> x in IncomingPaths(entries))
  {
    var incoming := IncomingPaths(entries);
    var mid := Pruned(f, p, incoming);
    var kept := Kept(f, f.info[p].children, incoming);
    assert NodeOk(p, f);
    KeptAre(f, f.info[p].children, incoming, p);
    PrunedIsTree(f, p, incoming, m);
    assert mid.info[p] == f.info[p].(children := kept);
    hide Kept;
    KeptPaths(f, p, kept, mid, g, entries, added, plan);
    ChildPathsAre(f, p, kept, mid, g, entries, added, plan);
    hide PathSet, Adds;
    if x in PathSet((set c | c in ChildrenOf(p, g)), g) { NowIsListed(f, p, kept, mid, entries, plan, x); }
  }

  /** The closed form agrees with what the insertion loop meets. */
  lemma HasPlaceWhenAdded(f: Forest, p: Node, entries: seq<FsEntry>, i: nat)
    requires Tree(f) && p in f.info && FirstListed(entries, i)
    ensures var mid := Pruned(f, p, IncomingPaths(entries)); var x := entries[i].path;
            HasPlace(f, p, entries, x) <==>
              || x in PathSet((set c | c in ChildrenOf(p, mid)), mid)
              || Adds(PlanRun(StartOf(mid), entries, p == mid.root), x)
  {
    var mid, x := Pruned(f, p, IncomingPaths(entries)), entries[i].path;
    var start := StartOf(mid);
    assert entries[i] in entries;
    PrunedChildPaths(f, p, entries, x);
    PrunedRows(f, p, entries);
    AddedAtFirstListing(start, entries, p == mid.root, i);
    PlanFirst(start, entries[..i], p == mid.root);
    PlanFirst(start, entries, p == mid.root);
    hide Pruned, PathSet, PlanRun, Adds, Kept, Gone, Surviving, FirstFresh;
    if x !in start.known { FreshAt(start.known, entries, i); }
  }

  /** For any tree and any listing, the child paths become exactly the listed ones if and
      only if each listed path has its place. */
  lemma ListingIsExactWhen(f: Forest, p: Node, entries: seq<FsEntry>, m: map<string, Node>,
                           added: seq<Node>, plan: Plan, g: Forest)
    requires Tree(f) && Indexes(m, f) && p in f.info
    requires Built(p, Pruned(f, p, IncomingPaths(entries)), entries, added, plan, g)
    ensures PathSet((set c | c in ChildrenOf(p, g)), g) == IncomingPaths(entries)
            <==> forall x | x in IncomingPaths(entries) :: HasPlace(f, p, entries, x)
  {
    hide Pruned, PathSet, Tree, Indexes, Adds, PlanRun, IsAlias, HasPlace;
    var incoming := IncomingPaths(entries);
    var now := PathSet((set c | c in ChildrenOf(p, g)), g);
    forall x | x in incoming ensures HasPlace(f, p, entries, x) <==> x in now {
      var i := FirstListingOf(entries, x);
      ChildPathsNow(f, p, entries, m, added, plan, g, x);
      HasPlaceWhenAdded(f, p, entries, i);
    }
    forall x | x in now ensures x in incoming { ChildPathsNow(f, p, entries, m, added, plan, g, x); }
  }

  lemma NowIsListed(f: Forest, p: Node, kept: seq<Node>, mid: Forest, entries: seq<FsEntry>, plan: Plan, x: string)
    requires plan == PlanRun(StartOf(mid), entries, p == mid.root)
    requires forall i | 0 <= i < |kept| :: PathOf(kept[i], f) in IncomingPaths(entries)
    requires PathSet((set c | c in kept), mid) == PathSet((set c | c in kept), f)
    requires x in PathSet((set c | c in kept), mid) || Adds(plan, x)
    ensures x in IncomingPaths(entries)
  {
    if Adds(plan, x) {
      PlanIs(StartOf(mid), entries, p == mid.root, x);
      var k :| 0 <= k < |entries| && entries[k].path == x;
      assert entries[k] in entries;
    }
  }

  lemma ChildPathsAre(f: Forest, p: Node, kept: seq<Node>, mid: Forest, g: Forest,
                      entries: seq<FsEntry>, added: seq<Node>, plan: Plan)
    requires |added| == |plan.added| && ChildrenOf(p, g) == kept + added
    requires PathSet((set c | c in kept), mid) == PathSet((set c | c in kept), f)
    requires forall i | 0 <= i < |kept| :: PathOf(kept[i], g) == PathOf(kept[i], f)
    requires forall i {:trigger added[i]} | 0 <= i < |added| :: PathOf(added[i], g) == plan.added[i].path
    ensures forall x :: x in PathSet((set c | c in ChildrenOf(p, g)), g) <==>
                        x in PathSet((set c | c in kept), mid) || Adds(plan, x)
  {
    forall x
      ensures x in PathSet((set c | c in ChildrenOf(p, g)), g) <==>
                x in PathSet((set c | c in kept), mid) || Adds(plan, x)
    {
      if x in PathSet((set c | c in ChildrenOf(p, g)), g) {
        var c :| c in kept + added && PathOf(c, g) == x;
        if c !in kept {
          var i :| 0 <= i < |added| && added[i] == c;
          assert plan.added[i].path == x;
        }
      }
      if x in PathSet((set c | c in kept), f) {
        var c :| c in kept && PathOf(c, f) == x;
        assert c in kept + added;
      }
      if Adds(plan, x) {
        var i :| 0 <= i < |plan.added| && plan.added[i].path == x;
        assert added[i] in kept + added;
      }
    }
  }

  lemma {:induction false} FirstListingOf(entries: seq<FsEntry>, x: string) returns (i: nat)
    requires x in IncomingPaths(entries)
    ensures FirstListed(entries, i) && entries[i].path == x
  {
    var e :| e in entries && e.path == x;
    var k :| 0 <= k < |entries| && entries[k] == e;
    i := 0;
    while entries[i].path != x
      invariant i <= k && forall j | 0 <= j < i :: entries[j].path != x
      decreases k - i
    {
      i := i + 1;
    }
  }

  ghost function Bare(r: Node): Forest { Forest(r, map[r := Info(null, [], "", 0, {r})], 0) }

  /** A root with two children whose second has a path in the first one's directory. */
  ghost function Crossed(r: Node, a: Node, b: Node): Forest {
    Forest(r, map[r := Info(null, [a, b], "", 0, {r}), a := Info(r, [], "/x", 1, {a, r}),
                  b := Info(r, [], "/x/y", 1, {b, r})], 1)
  }

  lemma CrossedIsTree(r: Node, a: Node, b: Node)
    requires r != a && r != b && a != b
    ensures Tree(Crossed(r, a, b)) && Indexes(map["" := r, "/x" := a, "/x/y" := b], Crossed(r, a, b))
  {
    var f := Crossed(r, a, b);
    assert f.info[r].children[0] == a && f.info[r].children[1] == b;
    assert NodeOk(r, f) && NodeOk(a, f) && NodeOk(b, f);
  }

  /** One listing of the root of a bare tree makes it. */
  lemma CrossedIsReachable(r: Node, a: Node, b: Node, x: FsEntry, y: FsEntry)
    requires r != a && r != b && a != b && x.path == "/x" && y.path == "/x/y"
    ensures Built(r, Pruned(Bare(r), r, IncomingPaths([x, y])), [x, y], [a, b],
                  PlanRun(StartOf(Bare(r)), [x, y], true), Crossed(r, a, b))
  {
    var f := Bare(r);
    BareStaysBare(r, [x, y]);
    CrossedPlan(r, x, y);
    hide Pruned, Grown, StartOf, PlanRun, PathsOf;
    assert [a, b][..1] == [a] && ["/x", "/x/y"][..1] == ["/x"] && [a][..0] == [] && ["/x"][..0] == [];
    assert Appended(f, r, [a], ["/x"]) == Grown(f, r, a, "/x");
    GrownTwice(r, a, b);
  }

  lemma CrossedPlan(r: Node, x: FsEntry, y: FsEntry)
    requires x.path == "/x" && y.path == "/x/y"
    ensures var plan := PlanRun(StartOf(Bare(r)), [x, y], true);
            plan.added == [x, y] && PathsOf(plan.added) == ["/x", "/x/y"]
  {
    BareStaysBare(r, [x, y]);
    assert "/x"[|"/x"| - 1] == 'x' && LastSlash("/x") == 0;
    TwoSteps(StartOf(Bare(r)), x, y);
    assert [] + [x] + [y] == [x, y];
  }

  lemma GrownTwice(r: Node, a: Node, b: Node)
    requires r != a && r != b && a != b
    ensures Grown(Grown(Bare(r), r, a, "/x"), r, b, "/x/y") == Crossed(r, a, b)
  {
    assert [] + [a] == [a] && [a] + [b] == [a, b];
    assert {a} + {r} == {a, r} && {b} + {r} == {b, r};
    var one := Grown(Bare(r), r, a, "/x");
    assert one.info == map[r := Info(null, [a], "", 0, {r}), a := Info(r, [], "/x", 1, {a, r})];
    assert Grown(one, r, b, "/x/y").info == Crossed(r, a, b).info;
  }

  lemma BareStaysBare(r: Node, entries: seq<FsEntry>)
    ensures Pruned(Bare(r), r, IncomingPaths(entries)) == Bare(r) && StartOf(Bare(r)) == Plan([], {""}, None, None)
    ensures Tree(Bare(r)) && Indexes(map["" := r], Bare(r))
  {
    assert Kept(Bare(r), [], IncomingPaths(entries)) == [];
    assert PathSet({r}, Bare(r)) == {""};
    assert NodeOk(r, Bare(r));
  }

  lemma TwoSteps(p: Plan, x: FsEntry, y: FsEntry)
    ensures PlanRun(p, [x], true) == PlanStep(p, x, true)
    ensures PlanRun(p, [x, y], true) == PlanStep(PlanStep(p, x, true), y, true)
  {
    assert [x][..0] == [] && [x, y][..1] == [x];
  }

  /** A listing that is not exact: its one path is in the listed directory, but already
      hangs elsewhere. */
  lemma ForeignPathStaysPut(r: Node, a: Node, b: Node, e: FsEntry, added: seq<Node>, plan: Plan, g: Forest)
    requires r != a && r != b && a != b && e.path == "/x/y"
    requires Built(a, Pruned(Crossed(r, a, b), a, IncomingPaths([e])), [e], added, plan, g)
    ensures Tree(Crossed(r, a, b)) && Indexes(map["" := r, "/x" := a, "/x/y" := b], Crossed(r, a, b))
    ensures ListingOf([e], PathOf(a, Crossed(r, a, b)))
    ensures PathSet((set c | c in ChildrenOf(a, g)), g) != IncomingPaths([e])
  {
    var f := Crossed(r, a, b);
    CrossedIsTree(r, a, b);
    assert "/x/y"[|"/x/y"| - 1] == 'y' && LastSlash("/x/y") == 2 && "/x/y"[..2] == "/x";
    assert b in Surviving(f, a, [e]) && PathOf(b, f) == "/x/y";
    assert e in [e] && !HasPlace(f, a, [e], "/x/y");
    ListingIsExactWhen(f, a, [e], map["" := r, "/x" := a, "/x/y" := b], added, plan, g);
  }

  /** Another one, of a bare root: the second path is the directory of the first new row, so
      it is taken for the root. */
  lemma HomePathIsTakenForRoot(r: Node, x: FsEntry, y: FsEntry, added: seq<Node>, plan: Plan, g: Forest)
    requires x.path == "/h/a" && y.path == "/h"
    requires Built(r, Pruned(Bare(r), r, IncomingPaths([x, y])), [x, y], added, plan, g)
    ensures Tree(Bare(r)) && Indexes(map["" := r], Bare(r))
    ensures plan.onRoot == Some(y) && PathSet((set c | c in ChildrenOf(r, g)), g) != IncomingPaths([x, y])
  {
    BareStaysBare(r, [x, y]);
    assert "/h/a"[|"/h/a"| - 1] == 'a' && LastSlash("/h/a") == 2 && "/h/a"[..2] == "/h";
    TwoSteps(StartOf(Bare(r)), x, y);
    ChildPathsNow(Bare(r), r, [x, y], map["" := r], added, plan, g, "/h");
    assert plan.added == [] + [x];
    assert !Adds(plan, "/h");
    assert ChildrenOf(r, Bare(r)) == [] && y in [x, y];
  }

  lemma ChildPathsAreListed(f: Forest, p: Node, entries: seq<FsEntry>, kept: seq<Node>, added: seq<Node>,
                            plan: Plan, g: Forest)
    requires forall i | 0 <= i < |kept| :: PathOf(kept[i], f) in IncomingPaths(entries)
    requires forall i | 0 <= i < |kept| :: PathOf(kept[i], g) == PathOf(kept[i], f)
    requires |added| == |plan.added|
    requires forall i {:trigger added[i]} | 0 <= i < |added| :: PathOf(added[i], g) == plan.added[i].path
    requires PathsOf(plan.added) == NewPaths(entries, PathSet((set c | c in kept), f))
    ensures PathSet((set c | c in kept + added), g) == IncomingPaths(entries)
  {
    var seen := PathSet((set c | c in kept), f);
    var all := PathSet((set c | c in kept + added), g);
    forall x | x in all ensures x in IncomingPaths(entries) {
      var c :| c in kept + added && PathOf(c, g) == x;
      if c !in kept {
        var i :| 0 <= i < |added| && added[i] == c;
        assert x == PathsOf(plan.added)[i];
        NewPathsAre(entries, seen, x);
      }
    }
    forall x | x in IncomingPaths(entries) ensures x in all {
      NewPathsAre(entries, seen, x);
      if x in seen {
        var c :| c in kept && PathOf(c, f) == x;
        assert c in kept + added;
      } else {
        var i :| 0 <= i < |plan.added| && PathsOf(plan.added)[i] == x;
        assert added[i] in kept + added;
      }
    }
  }

  // ---------------------------------------------------------------------------
  // The model.
  // ---------------------------------------------------------------------------

  class RemoteFileTreeModel {
    const root: Node
    var byPath: map<string, Node>
    ghost var forest: Forest

    /** The heap is one consistent tree and the index agrees with it. */
    ghost predicate Valid()
      reads this, forest.info.Keys`path, forest.info.Keys`parent, forest.info.Keys`children
    {
      ValidAs(forest)
    }

    ghost predicate ValidAs(f: Forest)
      reads this`byPath, f.info.Keys`path, f.info.Keys`parent, f.info.Keys`children
    {
      f.root == root && Tree(f) && Shows(f) && Indexes(byPath, f)
    }

    constructor ()
      ensures Valid() && fresh(forest.info.Keys) && forest.info.Keys == {root} && root.isDir
    {
      var r := new Node();
      root := r;
      byPath := map["" := r];
      forest := Forest(r, map[r := Info(null, [], "", 0, {r})], 0);
      new;
      r.isDir := true;
    }

    ghost function FirstPath(): Option<string>
      reads root`children, root.children
    {
      if root.children == [] then None else Some(root.children[0].path)
    }

    function IsRootAliasPath(path: string): (b: bool)
      reads root`children, root.children
      ensures b == IsAlias(path, FirstPath())
    {
      if path == "" || path == "." then true
      else if root.children == [] then false
      else ParentPathOf(root.children[0].path) == path
    }

    function NodeForPath(path: string): Node?
      reads this`byPath, root`children, root.children
    {
      if path in byPath then byPath[path]
      else if IsRootAliasPath(path) then root
      else null
    }

    /** The row of a live node in its parent's list; none only for the root. */
    method IndexForNode(node: Node) returns (row: Option<nat>)
      requires Valid() && node in forest.info
      ensures row.None? <==> node == root
      ensures row.Some? ==> node.parent != null && row.value < |node.parent.children|
                            && node.parent.children[row.value] == node
    {
      assert NodeOk(node, forest);
      if node == root || node.parent == null {
        return None;
      }
      var siblings := node.parent.children;
      var i := 0;
      while i < |siblings|
        invariant 0 <= i <= |siblings|
        invariant forall k | 0 <= k < i :: siblings[k] != node
      {
        if siblings[i] == node {
          return Some(i);
        }
        i := i + 1;
      }
      assert false;
      return None;
    }

    /** Below `node` the heap still shows `f`. */
    ghost static predicate SubtreeShown(node: Node, f: Forest)
      reads f.info.Keys
    {
      && node in f.info && node != f.root
      && forall n {:trigger n.path} {:trigger n.children} | n in f.info && Under(n, node, f) ::
           n.path == f.info[n].path && n.children == f.info[n].children
    }

    static lemma ChildShown(node: Node, i: nat, f: Forest)
      requires Tree(f) && SubtreeShown(node, f)
      ensures node.path == PathOf(node, f) != "" && node.children == ChildrenOf(node, f)
      ensures i < |node.children| ==>
                && SubtreeShown(node.children[i], f)
                && f.info[node].depth < f.info[node.children[i]].depth <= f.bound
    {
      UnderSelf(node, f);
      assert NodeOk(node, f);
      if i < |node.children| {
        var c := node.children[i];
        assert NodeOk(c, f);
        UnderSelf(c, f);
        forall n | Under(n, c, f) ensures Under(n, node, f) {
          UnderTrans(n, c, node, f);
        }
      }
    }

    /** Drops the index entries of the whole subtree of `node`; `f` is the tree as it was
        when the listing arrived. */
    method RemovePathIndex(node: Node, ghost f: Forest)
      requires Tree(f) && SubtreeShown(node, f)
      modifies this`byPath
      ensures byPath == old(byPath) - PathSet(Subtree(node, f), f)
      decreases f.bound - f.info[node].depth
    {
      ChildShown(node, 0, f);
      SubtreeIsNodeAndChildren(node, f);
      var i := 0;
      while i < |node.children|
        invariant 0 <= i <= |node.children|
        invariant byPath == old(byPath) - PathSet(Subtrees(node.children[..i], f), f)
      {
        ChildShown(node, i, f);
        SubtreesSnoc(node.children, i, f);
        RemovePathIndex(node.children[i], f);
        i := i + 1;
      }
      assert node.children[..i] == node.children;
      if node.path != "" {
        byPath := byPath - {node.path};
      }
    }

    /** The removal loop has dealt with the rows of `p` from `row` on; `cs` are the
        children it started with. */
    ghost predicate PrunedFrom(f: Forest, p: Node, cs: seq<Node>, row: nat, incoming: set<string>,
                               before: map<string, Node>)
      requires row <= |cs|
      reads this`byPath, p`children, f.info.Keys
    {
      && p.children == cs[..row] + Kept(f, cs[row..], incoming)
      && byPath == before - PathSet(Gone(f, cs[row..], incoming), f)
      && ShowsBut(f, p)
    }

    /** The heap shows `f` except for the children of `p`. */
    ghost static predicate ShowsBut(f: Forest, p: Node)
      reads f.info.Keys
    {
      forall n {:trigger n.path} {:trigger n.children} {:trigger n.parent} | n in f.info ::
        n.parent == f.info[n].parent && n.path == f.info[n].path && (n != p ==> n.children == f.info[n].children)
    }

    static lemma ShownBeside(f: Forest, p: Node, c: Node)
      requires Tree(f) && p in f.info && c in f.info[p].children && ShowsBut(f, p)
      ensures SubtreeShown(c, f) && c.path == PathOf(c, f)
    {
      assert NodeOk(p, f) && NodeOk(c, f);
      if Under(p, c, f) { UnderIsBelow(p, c, f); }
    }

    static lemma KeptStep(f: Forest, cs: seq<Node>, row: nat, incoming: set<string>)
      requires row < |cs|
      ensures var rest := Kept(f, cs[row + 1..], incoming);
              Kept(f, cs[row..], incoming) == if PathOf(cs[row], f) in incoming then [cs[row]] + rest else rest
    {
      assert cs[row..][1..] == cs[row + 1..];
    }

    static lemma RowStep(cs: seq<Node>, row: nat, rest: seq<Node>)
      requires row < |cs|
      ensures var now := cs[..row + 1] + rest;
              && now[row] == cs[row] && now[..row] + now[row + 1..] == cs[..row] + rest
              && now == cs[..row] + ([cs[row]] + rest)
    {
    }

    /** One turn of the removal loop. */
    method PruneAt(p: Node, row: nat, incoming: set<string>, ghost f: Forest, ghost cs: seq<Node>,
                   ghost before: map<string, Node>)
      requires Tree(f) && p in f.info && cs == f.info[p].children && row < |cs|
      requires PrunedFrom(f, p, cs, row + 1, incoming, before)
      modifies this`byPath, p`children
      ensures PrunedFrom(f, p, cs, row, incoming, before)
    {
      hide Tree, NodeOk, Gone, Kept, PathSet, Subtree, SubtreeShown;
      GoneStep(f, cs, row, incoming);
      KeptStep(f, cs, row, incoming);
      RowStep(cs, row, Kept(f, cs[row + 1..], incoming));
      var child := p.children[row];
      ShownBeside(f, p, child);
      if child.path !in incoming {
        p.children := p.children[..row] + p.children[row + 1..];
        ShownBeside(f, p, child);
        RemovePathIndex(child, f);
      }
    }

    lemma PruneBegins(p: Node, incoming: set<string>)
      requires Valid() && p in forest.info
      ensures p.children == forest.info[p].children
      ensures PrunedFrom(forest, p, p.children, |p.children|, incoming, byPath)
    {
      var cs := p.children;
      assert cs[|cs|..] == [] && cs[..|cs|] == cs;
      assert Gone(forest, [], incoming) == {};
      assert byPath - {} == byPath;
    }

    lemma PruneEnds(f: Forest, p: Node, incoming: set<string>, before: map<string, Node>)
      requires Tree(f) && p in f.info && Indexes(before, f) && f.root == root
      requires PrunedFrom(f, p, f.info[p].children, 0, incoming, before)
      ensures ValidAs(Pruned(f, p, incoming)) && p in Pruned(f, p, incoming).info
      ensures Pruned(f, p, incoming).info.Keys <= f.info.Keys
    {
      assert f.info[p].children[0..] == f.info[p].children;
      PrunedIsTree(f, p, incoming, before);
    }

    /** The first loop of `applyListing`: rows are visited from the last one down. */
    method PruneChildren(p: Node, incoming: set<string>)
      requires Valid() && p in forest.info
      modifies this`byPath, this`forest, p`children
      ensures Valid() && forest == Pruned(old(forest), p, incoming)
      ensures p in forest.info && forest.info.Keys <= old(forest.info.Keys)
    {
      hide Tree, Indexes, Shows, Kept, Gone, PathSet, Pruned, PrunedFrom;
      ghost var f, before, cs := forest, byPath, p.children;
      PruneBegins(p, incoming);
      var row := |p.children|;
      while row > 0
        invariant 0 <= row <= |cs|
        invariant forest == f
        invariant PrunedFrom(f, p, cs, row, incoming, before)
      {
        row := row - 1;
        PruneAt(p, row, incoming, f, cs, before);
      }
      PruneEnds(f, p, incoming, before);
      forest := Pruned(f, p, incoming);
    }

    /** What the insertion loop relies on: the indexed paths and the root's first row. */
    ghost predicate Follows(plan: Plan)
      reads this`byPath, root`children, root.children
    {
      plan.known == byPath.Keys && plan.first == FirstPath()
    }

    method UpdateNode(n: Node, e: FsEntry)
      requires Valid() && n in forest.info
      modifies n`name, n`isDir, n`size, n`editable
      ensures Valid() && n.GetMeta() == MetaOf(e)
    {
      n.name := e.name;
      n.isDir := e.kind == DIRECTORY;
      n.size := e.size;
      n.editable := e.editable;
    }

    static method MakeNode(e: FsEntry, p: Node) returns (c: Node)
      ensures fresh(c) && c.GetMeta() == MetaOf(e) && c.path == e.path && c.parent == p
      ensures c.children == [] && !c.loaded && !c.loading
    {
      c := new Node();
      c.name, c.path, c.isDir, c.size, c.editable := e.name, e.path, e.kind == DIRECTORY, e.size, e.editable;
      c.parent := p;
    }

    method AppendNode(p: Node, e: FsEntry) returns (c: Node)
      requires Valid() && p in forest.info && e.path !in byPath
      modifies this`byPath, this`forest, p`children
      ensures Valid() && fresh(c) && forest == Grown(old(forest), p, c, e.path)
      ensures byPath == old(byPath)[e.path := c] && p.children == old(p.children) + [c]
      ensures c.GetMeta() == MetaOf(e) && !c.loaded && !c.loading && c.path == e.path
    {
      c := MakeNode(e, p);
      ghost var f := forest;
      GrownIsTree(f, p, c, e.path, byPath);
      p.children := p.children + [c];
      GrownIsShown(f, p, c, e.path);
      byPath := byPath[e.path := c];
      forest := Grown(f, p, c, e.path);
    }

    static lemma GrownIsShown(f: Forest, p: Node, c: Node, path: string)
      requires p in f.info && c !in f.info && ShowsBut(f, p)
      requires p.children == f.info[p].children + [c]
      requires c.path == path && c.parent == p && c.children == []
      ensures Shows(Grown(f, p, c, path))
    {
    }

    /** One turn of the insertion loop: update the node the path resolves to, or append a
        new one to `p`. */
    method UpsertEntry(p: Node, e: FsEntry, ghost plan: Plan) returns (child: Node?)
      requires Valid() && p in forest.info && Follows(plan)
      modifies this`byPath, this`forest, p`children
      modifies forest.info.Keys`name, forest.info.Keys`isDir, forest.info.Keys`size, forest.info.Keys`editable
      ensures Valid() && Follows(PlanStep(plan, e, p == root))
      ensures child == null <==> PlanStep(plan, e, p == root).added == plan.added
      ensures child == null ==> forest == old(forest)
      ensures child != null ==>
                && fresh(child) && forest == Grown(old(forest), p, child, e.path)
                && child.GetMeta() == MetaOf(e) && !child.loaded && !child.loading
      ensures forall n | n in old(forest.info) :: n.GetMeta() ==
                if Lands(n, e, old(forest), plan) then MetaOf(e) else old(n.GetMeta())
    {
      hide Tree, NodeOk, Indexes, Shows, PathOf, Lands, Grown, IsAlias;
      var existing := NodeForPath(e.path);
      ResolvesTo(e, plan, existing);
      if existing != null {
        UpdateNode(existing, e);
        child := null;
      } else {
        child := AppendNode(p, e);
      }
    }

    /** `e` is applied to `n`. */
    ghost static predicate Lands(n: Node, e: FsEntry, f: Forest, plan: Plan) {
      if n == f.root then e.path == "" || (e.path !in plan.known && IsAlias(e.path, plan.first))
      else e.path == PathOf(n, f)
    }

    lemma ResolvesTo(e: FsEntry, plan: Plan, target: Node?)
      requires Valid() && Follows(plan) && target == NodeForPath(e.path)
      ensures target == null <==> e.path !in plan.known && !IsAlias(e.path, plan.first)
      ensures target != null ==> target in forest.info && Lands(target, e, forest, plan)
      ensures forall n | n in forest.info && Lands(n, e, forest, plan) :: n == target
      ensures e.path !in byPath ==> e.path !in plan.known
    {
      assert NodeOk(root, forest);
      assert root.children == ChildrenOf(root, forest);
      assert PathOf(root, forest) in byPath;
      forall n | n in forest.info && Lands(n, e, forest, plan) ensures n == target {
        assert PathOf(n, forest) in byPath && byPath[PathOf(n, forest)] == n;
        assert NodeOk(n, forest);
      }
      if target != null && target != root { assert NodeOk(target, forest); }
    }

    lemma StartFollows()
      requires Valid()
      ensures Follows(StartOf(forest))
    {
      assert NodeOk(root, forest);
      assert root.children == ChildrenOf(root, forest);
      if root.children != [] { assert root.children[0] in forest.info; }
    }

    /** Every node shows the last of `done` that landed on it, or what it showed before. */
    ghost static predicate Showing(f: Forest, base: map<Node, Meta>, done: seq<FsEntry>, onRoot: Option<FsEntry>)
      reads f.info.Keys`name, f.info.Keys`isDir, f.info.Keys`size, f.info.Keys`editable
    {
      && base.Keys == f.info.Keys
      && forall n {:trigger base[n]} | n in f.info ::
           n.GetMeta() == MetaAfter(base[n], n == f.root, PathOf(n, f), done, onRoot)
    }

    /** `seen` is what the nodes showed at some moment. */
    ghost static predicate Recorded(f: Forest, base: map<Node, Meta>, seen: map<Node, Meta>, done: seq<FsEntry>,
                                    onRoot: Option<FsEntry>) {
      && base.Keys == seen.Keys == f.info.Keys
      && forall n {:trigger base[n]} | n in f.info ::
           seen[n] == MetaAfter(base[n], n == f.root, PathOf(n, f), done, onRoot)
    }

    static lemma Record(f: Forest, base: map<Node, Meta>, seen: map<Node, Meta>, done: seq<FsEntry>,
                        onRoot: Option<FsEntry>)
      requires Showing(f, base, done, onRoot) && seen.Keys == f.info.Keys
      requires forall n | n in seen :: seen[n] == n.GetMeta()
      ensures Recorded(f, base, seen, done, onRoot)
    {
    }

    /** One more entry, on what the nodes show. */
    lemma ShowingSnoc(now: Forest, base: map<Node, Meta>, seen: map<Node, Meta>, done: seq<FsEntry>,
                      plan: Plan, p: Node, e: FsEntry, child: Node?)
      requires forest.root == now.root && p in now.info
      requires Recorded(now, base, seen, done, plan.onRoot)
      requires forall n {:trigger seen[n]} | n in now.info ::
                 n.GetMeta() == if Lands(n, e, now, plan) then MetaOf(e) else seen[n]
      requires forest == if child == null then now else Grown(now, p, child, e.path)
      requires child == null <==> PlanStep(plan, e, p == root).added == plan.added
      requires child != null ==> child !in now.info && child != now.root && child.GetMeta() == MetaOf(e)
      requires "" in plan.known
      ensures Showing(forest, if child == null then base else base[child := MetaOf(e)], done + [e],
                      PlanStep(plan, e, p == root).onRoot)
    {
      if child != null { GrownPaths(now, p, child, e.path); }
      hide Grown, PathOf;
      var base' := if child == null then base else base[child := MetaOf(e)];
      forall n | n in forest.info
        ensures n.GetMeta() == MetaAfter(base'[n], n == forest.root, PathOf(n, forest), done + [e],
                                         PlanStep(plan, e, p == root).onRoot)
      {
        NodeAfter(n, base'[n], now, done, plan, e, p == root);
        hide MetaAfter, PlanStep, Lands;
        if n == child {
          ChildAfter(base'[n], done, e, PlanStep(plan, e, p == root).onRoot);
        } else {
          assert seen[n] == MetaAfter(base[n], n == now.root, PathOf(n, now), done, plan.onRoot);
        }
      }
    }

    static lemma GrownPaths(f: Forest, p: Node, c: Node, path: string)
      requires p in f.info && c !in f.info
      ensures var g := Grown(f, p, c, path);
              && g.root == f.root && g.info.Keys == f.info.Keys + {c} && PathOf(c, g) == path
              && forall n | n in f.info :: PathOf(n, g) == PathOf(n, f)
    {
    }

    static lemma NodeAfter(n: Node, was: Meta, f: Forest, done: seq<FsEntry>, plan: Plan, e: FsEntry, atRoot: bool)
      requires "" in plan.known
      ensures MetaAfter(was, n == f.root, PathOf(n, f), done + [e], PlanStep(plan, e, atRoot).onRoot)
           == if Lands(n, e, f, plan) then MetaOf(e) else MetaAfter(was, n == f.root, PathOf(n, f), done, plan.onRoot)
    {
      LastEntrySnoc(done, e, PathOf(n, f));
    }

    static lemma ChildAfter(was: Meta, done: seq<FsEntry>, e: FsEntry, onRoot: Option<FsEntry>)
      ensures MetaAfter(was, false, e.path, done + [e], onRoot) == MetaOf(e)
    {
      LastEntrySnoc(done, e, e.path);
    }

    lemma HomeIsKnown(plan: Plan)
      requires Valid() && Follows(plan)
      ensures "" in plan.known
    {
      assert NodeOk(root, forest) && PathOf(root, forest) in byPath;
    }

    static lemma Prefixes(entries: seq<FsEntry>)
      ensures entries[..0] == [] && entries[..|entries|] == entries
      ensures forall k | 0 <= k < |entries| :: entries[..k + 1] == entries[..k] + [entries[k]]
    {
    }

    /** The insertion loop has seen `done`, starting from the tree `was`. */
    ghost predicate Inserted(p: Node, was: Forest, done: seq<FsEntry>, added: seq<Node>, plan: Plan,
                             base: map<Node, Meta>)
      reads this, forest.info.Keys, root, root.children
    {
      && Valid() && Follows(plan) && was.root == root
      && Built(p, was, done, added, plan, forest) && Showing(forest, base, done, plan.onRoot)
      && (forall n | n in forest.info && n !in was.info :: n in added)
    }

    lemma StartInserted(p: Node, base: map<Node, Meta>)
      requires Valid() && p in forest.info
      requires base.Keys == forest.info.Keys && forall n | n in base :: base[n] == n.GetMeta()
      ensures Inserted(p, forest, [], [], StartOf(forest), base)
    {
      StartFollows();
      forall n | n in forest.info ensures LastEntry([], PathOf(n, forest)) == None {}
    }

    /** One turn of the loop, with the bookkeeping of the proof. */
    method InsertNext(p: Node, e: FsEntry, ghost was: Forest, ghost done: seq<FsEntry>,
                      ghost added: seq<Node>, ghost plan: Plan, ghost base: map<Node, Meta>)
      returns (ghost added': seq<Node>, ghost plan': Plan, ghost base': map<Node, Meta>)
      requires Inserted(p, was, done, added, plan, base)
      modifies this`byPath, this`forest, p`children
      modifies forest.info.Keys`name, forest.info.Keys`isDir, forest.info.Keys`size, forest.info.Keys`editable
      ensures Inserted(p, was, done + [e], added', plan', base')
      ensures added <= added'
      ensures forall i | |added| <= i < |added'| :: fresh(added'[i]) && !added'[i].loaded && !added'[i].loading
      ensures forall n | n in base :: n in base' && base'[n] == base[n]
    {
      hide Valid, Follows, Built, NoDup, NodeOk, Indexes, PlanStep, Lands, IsAlias;
      hide PathOf, MetaAfter, LastEntry, PlanRun;
      ghost var now, seen := forest, map n | n in forest.info :: n.GetMeta();
      BuiltIs(p, was, done, added, plan, forest);
      Record(now, base, seen, done, plan.onRoot);
      hide Recorded, Showing;
      HomeIsKnown(plan);
      var child := UpsertEntry(p, e, plan);
      plan' := PlanStep(plan, e, p == root);
      added' := if child == null then added else added + [child];
      base' := if child == null then base else base[child := MetaOf(e)];
      ShowingSnoc(now, base, seen, done, plan, p, e, child);
      BuiltSnoc(p, was, done, added, plan, now, e, child, forest);
    }

    /** The second loop of `applyListing`. */
    method InsertEntries(p: Node, entries: seq<FsEntry>)
      returns (ghost added: seq<Node>, ghost plan: Plan, ghost base: map<Node, Meta>)
      requires Valid() && p in forest.info
      modifies this`byPath, this`forest, p`children
      modifies forest.info.Keys`name, forest.info.Keys`isDir, forest.info.Keys`size, forest.info.Keys`editable
      ensures Inserted(p, old(forest), entries, added, plan, base)
      ensures forall i | 0 <= i < |added| :: fresh(added[i]) && !added[i].loaded && !added[i].loading
      ensures forall n | n in old(forest.info) :: n in base && base[n] == old(n.GetMeta())
    {
      hide Valid, Follows, Built, Showing;
      ghost var was := forest;
      added, plan := [], StartOf(forest);
      base := map n | n in forest.info :: n.GetMeta();
      StartInserted(p, base);
      Prefixes(entries);
      var k := 0;
      while k < |entries|
        invariant 0 <= k <= |entries|
        invariant Inserted(p, was, entries[..k], added, plan, base)
        invariant forall i | 0 <= i < |added| :: fresh(added[i]) && !added[i].loaded && !added[i].loading
        invariant forall n | n in was.info :: n in base && base[n] == old(n.GetMeta())
      {
        added, plan, base := InsertNext(p, entries[k], was, entries[..k], added, plan, base);
        k := k + 1;
      }
    }

    /** A path denotes the live node that has it; "", "." and the directory of the root's first
        row denote the root if no node has it; other paths denote nothing. */
    lemma NodeForPathIs(path: string, n: Node)
      requires Valid() && n in forest.info
      ensures n.path == path ==> NodeForPath(path) == n
      ensures (forall x | x in forest.info :: x.path != path) ==>
                NodeForPath(path) ==
                  if path == "" || path == "." || (root.children != [] && ParentPathOf(root.children[0].path) == path)
                  then root else null
    {
      assert PathOf(n, forest) in byPath && byPath[PathOf(n, forest)] == n;
      if path in byPath { assert byPath[path] in forest.info && byPath[path].path == path; }
    }

    lemma NodeForPathIsLive(path: string)
      requires Valid()
      ensures NodeForPath(path) != null ==> NodeForPath(path) in forest.info
    {
    }

    /** Merges a directory listing into the tree. */
    method ApplyListing(path: string, entries: seq<FsEntry>)
      returns (ghost target: Node?, ghost added: seq<Node>, ghost plan: Plan, ghost base: map<Node, Meta>)
      requires Valid()
      modifies this`byPath, this`forest, forest.info.Keys`children, forest.info.Keys`loaded, forest.info.Keys`loading
      modifies forest.info.Keys`name, forest.info.Keys`isDir, forest.info.Keys`size, forest.info.Keys`editable
      ensures Valid() && target == old(NodeForPath(path))
      ensures target == null ==> unchanged(this) && unchanged(old(forest.info.Keys))
      ensures target != null ==>
                && target in old(forest.info) && target.loaded && !target.loading
                && Built(target, Pruned(old(forest), target, IncomingPaths(entries)), entries, added, plan, forest)
                && Showing(forest, base, entries, plan.onRoot)
      ensures target != null ==>
                forall n | n in old(forest.info) && n in forest.info :: base[n] == old(n.GetMeta())
      ensures forall i | 0 <= i < |added| :: fresh(added[i]) && !added[i].loaded && !added[i].loading
      ensures forall n {:trigger n.loaded} {:trigger n.loading} | n in old(forest.info) && n != target ::
                n.loaded == old(n.loaded) && n.loading == old(n.loading)
    {
      hide Valid, Built, Showing, Pruned, Follows, IncomingPaths, StartOf, NodeForPath;
      NodeForPathIsLive(path);
      target, added, plan, base := NodeForPath(path), [], StartOf(forest), map[];
      var parent := NodeForPath(path);
      if parent == null {
        return;
      }
      PruneChildren(parent, IncomingPaths(entries));
      added, plan, base := InsertEntries(parent, entries);
      parent.loaded := true;
      parent.loading := false;
    }

    /** Back to the bare root. */
    method ClearTree()
      requires Valid()
      modifies this`byPath, this`forest, root`children, root`loaded, root`loading
      ensures Valid() && forest == Forest(root, map[root := Info(null, [], "", 0, {root})], 0)
      ensures byPath == map["" := root] && !root.loaded && !root.loading
    {
      assert NodeOk(root, forest);
      root.children := [];
      root.loaded := false;
      root.loading := false;
      byPath := map["" := root];
      forest := Forest(root, map[root := Info(null, [], "", 0, {root})], 0);
    }

    /** Asks for the home directory again; the result is the path to request. */
    method LoadRoot() returns (request: string)
      requires Valid()
      modifies root`loaded, root`loading
      ensures Valid() && !root.loaded && root.loading && NodeForPath(request) == root
    {
      assert NodeOk(root, forest) && PathOf(root, forest) in byPath;
      root.loaded := false;
      root.loading := true;
      request := "";
    }

    predicate CanFetchMore(node: Node)
      reads node
    {
      node.isDir && !node.loaded && !node.loading
    }

    /** Expanding a directory requests its path once; the reply will resolve to this node. */
    method FetchMore(node: Node) returns (request: Option<string>)
      requires Valid() && node in forest.info
      modifies node`loading
      ensures Valid() && !CanFetchMore(node)
      ensures request.Some? <==> old(node.isDir && !node.loaded && !node.loading)
      ensures request.Some? ==> node.loading && NodeForPath(request.value) == node
      ensures request.None? ==> node.loading == old(node.loading)
    {
      assert PathOf(node, forest) in byPath;
      if !node.isDir || node.loaded || node.loading {
        return None;
      }
      node.loading := true;
      request := Some(node.path);
    }

    /** A failed listing may be asked for again. */
    method MarkLoadFailed(path: string)
      requires Valid()
      modifies forest.info.Keys`loading
      ensures Valid()
      ensures forall n | n in forest.info ::
                n.loading == (old(n.loading) && n != NodeForPath(path))
    {
      NodeForPathIsLive(path);
      var node := NodeForPath(path);
      if node != null {
        node.loading := false;
      }
    }
  }
}
