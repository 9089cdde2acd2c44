/** Go's path/filepath.Base on a system whose separator is '/'. */
module Filepath {

  /** The path with every trailing '/' removed. */
  function TrimTrailingSlashes(p: string): (r: string)
    ensures |r| <= |p| && r == p[..|r|]
    ensures r == [] || r[|r| - 1] != '/'
    decreases |p|
  {
    if p != [] && p[|p| - 1] == '/' then TrimTrailingSlashes(p[..|p| - 1]) else p
  }

  /** What trimming removes is slashes only. */
  lemma {:induction false} TrimmedSuffixIsSlashes(p: string)
    ensures forall j :: |TrimTrailingSlashes(p)| <= j < |p| ==> p[j] == '/'
    decreases |p|
  {
    if p != [] && p[|p| - 1] == '/' {
      var init := p[..|p| - 1];
      TrimmedSuffixIsSlashes(init);
      assert forall j :: 0 <= j < |init| ==> init[j] == p[j];
    }
  }

  /** The index of the last '/' in `p`, or -1 when there is none. */
  function LastSlash(p: string): (i: int)
    ensures -1 <= i < |p|
    ensures i >= 0 ==> p[i] == '/'
    ensures forall j :: i < j < |p| ==> p[j] != '/'
    decreases |p|
  {
    if p == [] then -1
    else if p[|p| - 1] == '/' then |p| - 1
    else LastSlash(p[..|p| - 1])
  }

  /**
   * filepath.Base: the last element of the path. An empty path gives ".",
   * trailing slashes are ignored, and a path of slashes only gives "/".
   */
  function Base(p: string): (r: string)
    ensures p == [] ==> r == "."
    ensures p != [] && TrimTrailingSlashes(p) == [] ==> r == "/"
  {
    if p == [] then "."
    else
      var q := TrimTrailingSlashes(p);
      if q == [] then "/" else q[LastSlash(q) + 1..]
  }

  /** Otherwise the base is the longest '/'-free suffix of the path once trailing slashes are trimmed. */
  lemma BaseIsLastElement(p: string)
    requires TrimTrailingSlashes(p) != []
    ensures var q, r := TrimTrailingSlashes(p), Base(p);
            && 0 < |r| <= |q| && r == q[|q| - |r|..]
            && '/' !in r
            && (|r| < |q| ==> q[|q| - |r| - 1] == '/')
  {
    var q := TrimTrailingSlashes(p);
    var i := LastSlash(q);
    var r := q[i + 1..];
    assert Base(p) == r;
    assert i < |q| - 1 by {
      assert q[|q| - 1] != '/';
    }
    assert |q| - |r| == i + 1;
    assert forall j :: 0 <= j < |r| ==> r[j] == q[i + 1 + j];
  }

  /** A simple name with no '/' is its own base. */
  lemma BaseOfName(name: string)
    requires name != [] && '/' !in name
    ensures Base(name) == name
  {
    assert TrimTrailingSlashes(name) == name;
    assert LastSlash(name) == -1;
  }

  /** Any directory prefix is dropped: "repo/file1" and "file1" share a base. */
  lemma BaseOfJoin(dir: string, name: string)
    requires name != [] && '/' !in name
    ensures Base(dir + "/" + name) == name
  {
    var p := dir + "/" + name;
    assert p[|p| - 1] == name[|name| - 1];
    assert TrimTrailingSlashes(p) == p;
    assert p[|dir|] == '/';
    assert forall j :: |dir| < j < |p| ==> p[j] == name[j - |dir| - 1];
    assert LastSlash(p) == |dir|;
    assert p[|dir| + 1..] == name;
  }

  /** The base of a path is never empty and, unless it is "/", holds no '/'. */
  lemma BaseIsElement(p: string)
    ensures Base(p) != []
    ensures Base(p) != "/" ==> '/' !in Base(p)
  {
    if p != [] {
      var q := TrimTrailingSlashes(p);
      if q != [] {
        var i := LastSlash(q);
        assert q[|q| - 1] in q[i + 1..];
      }
    }
  }

  /** Taking the base twice changes nothing. */
  lemma BaseIdempotent(p: string)
    ensures Base(Base(p)) == Base(p)
  {
    BaseIsElement(p);
    var b := Base(p);
    if b == "/" {
      assert TrimTrailingSlashes(b) == [];
    } else if b == "." {
      assert '/' !in b;
      BaseOfName(b);
    } else {
      BaseOfName(b);
    }
  }
}
