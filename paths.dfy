/** The parts of Rust's `std::path::Path` the modelled code relies on, for `/`-separated
    paths written without `.` components: `parent`, `ancestors().nth(2)` and `join`. */
module Paths {
  import opened Wrappers
  import opened Text

  /** `p` without its trailing separators. */
  function StripTrailingSlashes(p: string): (r: string)
    ensures |r| <= |p| && r == p[..|r|]
    ensures r == [] || r[|r| - 1] != '/'
    ensures forall i :: |r| <= i < |p| ==> p[i] == '/'
  {
    if p != [] && p[|p| - 1] == '/' then
      var r := StripTrailingSlashes(p[..|p| - 1]);
      assert p[..|p| - 1][..|r|] == p[..|r|];
      r
    else p
  }

  /** The index of the last occurrence of `c`. */
  function LastIndexOf(s: string, c: char): (r: Option<nat>)
    ensures r.Some? <==> c in s
    ensures r.Some? ==> r.value < |s| && s[r.value] == c && c !in s[r.value + 1..]
  {
    if s == [] then None
    else if s[|s| - 1] == c then Some(|s| - 1)
    else
      var r := LastIndexOf(s[..|s| - 1], c);
      assert forall i :: 0 <= i < |s| - 1 ==> s[..|s| - 1][i] == s[i];
      r
  }

  /** `Path::parent`: None for the empty path and for the root; the path up to its last
      component otherwise, which is "" for a single relative component. */
  function Parent(p: string): (r: Option<string>)
    ensures r.None? <==> StripTrailingSlashes(p) == []
    ensures r.Some? ==> StartsWith(p, r.value) && |r.value| < |p|
  {
    var q := StripTrailingSlashes(p);
    if q == [] then None
    else match LastIndexOf(q, '/')
      case None => Some("")
      case Some(i) =>
        var h := StripTrailingSlashes(q[..i]);
        assert q[..i] == p[..i];
        assert h == p[..|h|];
        if h == [] then
          assert p[0] == q[0] == '/' by {
            if i > 0 { assert q[..i][0] == q[0]; }
          }
          assert p[..1] == "/";
          Some("/")
        else Some(h)
  }

  /** `ancestors().nth(2)`: the parent of the parent. */
  function Grandparent(p: string): (r: Option<string>)
    ensures r.Some? ==> StartsWith(p, r.value) && |r.value| < |p|
  {
    match Parent(p)
    case None => None
    case Some(a) => Parent(a)
  }

  /** `dir` names a directory that is neither empty, the root, nor written with a
      trailing separator; `name` is one component. */
  predicate IsDir(dir: string)
  {
    dir != [] && dir[|dir| - 1] != '/'
  }

  predicate IsComponent(name: string)
  {
    name != [] && '/' !in name
  }

  /** The parent of `dir/name` is `dir`. */
  lemma ParentOfChild(dir: string, name: string)
    requires IsDir(dir) && IsComponent(name)
    ensures Parent(dir + "/" + name) == Some(dir)
  {
    var p := dir + "/" + name;
    assert StripTrailingSlashes(p) == p;
    assert p[..|dir| + 1 + |name|] == p;
    assert p[|dir|] == '/';
    assert p[|dir| + 1..] == name;
    assert LastIndexOf(p, '/') == Some(|dir|);
    assert p[..|dir|] == dir;
  }

  /** The grandparent of `dir/a/b` is `dir`. */
  lemma GrandparentOfGrandchild(dir: string, a: string, b: string)
    requires IsDir(dir) && IsComponent(a) && IsComponent(b)
    ensures Grandparent(dir + "/" + a + "/" + b) == Some(dir)
  {
    assert IsDir(dir + "/" + a);
    ParentOfChild(dir + "/" + a, b);
    ParentOfChild(dir, a);
  }

  /** `Path::join`: an absolute `rel` replaces `base`; otherwise a separator is put
      between them unless `base` is empty or already ends with one. */
  function JoinPath(base: string, rel: string): (r: string)
    ensures StartsWith(rel, "/") ==> r == rel
    ensures IsDir(base) && !StartsWith(rel, "/") ==> r == base + "/" + rel
  {
    if StartsWith(rel, "/") then rel
    else if base == [] || base[|base| - 1] == '/' then base + rel
    else base + "/" + rel
  }
}
