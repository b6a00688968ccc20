/** The ZooKeeper node paths and node payloads that both agents build with `format!`. */
module ZkPaths {
  import opened Common

  /** `format!("{}/{}", parent, child)`: the path of node `child` under `parent`. */
  function ChildPath(parent: string, child: string): string
  {
    parent + "/" + child
  }

  /** The inverse of `ChildPath`: the child name of `path` when `path` lies directly under `parent`'s prefix. */
  function ChildName(parent: string, path: string): (r: Option<string>)
    ensures r.Some? ==> ChildPath(parent, r.value) == path
  {
    var n := |parent| + 1;
    if n <= |path| && path[..n] == parent + "/" then
      assert path == path[..n] + path[n..];
      Some(path[n..])
    else None
  }

  /** Reading the child name back from a child path gives the name that built it. */
  lemma ChildNameOfChildPath(parent: string, child: string)
    ensures ChildName(parent, ChildPath(parent, child)) == Some(child)
  {
    var p := ChildPath(parent, child);
    assert p[..|parent| + 1] == parent + "/";
    assert p[|parent| + 1..] == child;
  }

  /** Distinct names under one parent give distinct nodes. */
  lemma {:induction false} ChildPathInjective(parent: string, a: string, b: string)
    requires ChildPath(parent, a) == ChildPath(parent, b)
    ensures a == b
  {
    ChildNameOfChildPath(parent, a);
    ChildNameOfChildPath(parent, b);
  }

  /** `format!("{name} ({version})", ...)`: the payload of an endpoint's registration node. */
  function Description(name: string, version: string): string
  {
    name + " (" + version + ")"
  }

  /** The payload starts with the package name, followed by " (", the version and a closing parenthesis. */
  lemma DescriptionFields(name: string, version: string)
    ensures var d := Description(name, version);
      && |d| == |name| + |version| + 3
      && d[..|name|] == name
      && d[|name|..|name| + 2] == " ("
      && d[|name| + 2..|d| - 1] == version
      && d[|d| - 1] == ')'
  {
  }
}
