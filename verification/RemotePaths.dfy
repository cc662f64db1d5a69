/** Remote path strings: `parentPathOf` (app/cpp/RemoteFileTreeModel.cpp) and the
    `join_path` the providers build entry paths with (rust-core/src/providers/russh.rs). */
module RemotePaths {
  /** Drops trailing slashes, but never the last character. */
  function TrimSlashes(p: string): string {
    if |p| > 1 && p[|p| - 1] == '/' then TrimSlashes(p[..|p| - 1]) else p
  }

  /** `trim_end_matches('/')`: drops every trailing slash. */
  function TrimAll(p: string): string {
    if |p| > 0 && p[|p| - 1] == '/' then TrimAll(p[..|p| - 1]) else p
  }

  /** Index of the last slash, or -1. */
  function LastSlash(p: string): (i: int)
    ensures -1 <= i < |p|
    ensures i >= 0 ==> p[i] == '/'
    ensures forall k | i < k < |p| :: p[k] != '/'
  {
    if p == "" then -1 else if p[|p| - 1] == '/' then |p| - 1 else LastSlash(p[..|p| - 1])
  }

  function ParentPathOf(path: string): string {
    var p := TrimSlashes(path);
    var slash := LastSlash(p);
    if slash < 0 then "" else if slash == 0 then "/" else p[..slash]
  }

  function JoinPath(dir: string, name: string): string {
    TrimAll(dir) + "/" + name
  }

  predicate IsName(name: string) {
    name != "" && '/' !in name
  }

  /** An entry path made by `join_path` has the trimmed directory as its parent and is
      longer than it. */
  lemma ParentOfJoin(dir: string, name: string)
    requires IsName(name)
    ensures ParentPathOf(JoinPath(dir, name)) == if TrimAll(dir) == "" then "/" else TrimAll(dir)
    ensures |ParentPathOf(JoinPath(dir, name))| < |JoinPath(dir, name)|
  {
    var d := TrimAll(dir);
    var p := d + "/" + name;
    assert p[|p| - 1] == name[|name| - 1];
    assert TrimSlashes(p) == p;
    assert p[|d|] == '/';
    assert forall k | |d| < k < |p| :: p[k] == name[k - |d| - 1];
    assert LastSlash(p) == |d|;
    assert p[..|d|] == d;
  }

  /** The other cases: no slash, one in front alone, and slashes at the end. */
  lemma ParentIs(p: string)
    ensures '/' !in p ==> ParentPathOf(p) == ""
    ensures ParentPathOf("/") == "/"
    ensures p != "" ==> ParentPathOf(p + "/") == ParentPathOf(p)
    ensures TrimAll(p + "/") == TrimAll(p) && (p == "" || p[|p| - 1] != '/' ==> TrimAll(p) == p)
  {
    assert (p + "/")[..|p|] == p;
    if '/' !in p {
      assert TrimSlashes(p) == p;
      assert forall i | 0 <= i < |p| :: p[i] in p;
    }
  }

  method ComputeParentPath(path: string) returns (r: string)
    ensures r == ParentPathOf(path)
  {
    var p := path;
    while |p| > 1 && p[|p| - 1] == '/'
      invariant TrimSlashes(p) == TrimSlashes(path)
    {
      p := p[..|p| - 1];
    }
    var slash := |p| - 1;
    while slash >= 0 && p[slash] != '/'
      invariant -1 <= slash < |p|
      invariant forall k | slash < k < |p| :: p[k] != '/'
    {
      slash := slash - 1;
    }
    return if slash < 0 then "" else if slash == 0 then "/" else p[..slash];
  }
}
