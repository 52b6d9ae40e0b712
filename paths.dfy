/**
 * The POSIX path operations of Python's `os.path` that the Python modules
 * use on path strings: `normpath`, `dirname`, `basename` and `relpath`. The
 * separator is `/`; `relpath` takes both its paths as already absolute.
 */
module Paths {
  import Strs

  const Sep := '/'

  /**
   * The components after normalisation: empty and `.` components are dropped
   * and `..` removes the component before it, except that a `..` at the start
   * of a relative path, or after another such `..`, is kept; at the root it is
   * dropped.
   */
  function NormComponents(comps: seq<string>, rooted: bool, acc: seq<string>): (r: seq<string>)
    decreases |comps|
  {
    if comps == [] then acc
    else
      var c := comps[0];
      if c == "" || c == "." then NormComponents(comps[1..], rooted, acc)
      else if c != ".." || (!rooted && acc == []) || (acc != [] && acc[|acc| - 1] == "..") then
        NormComponents(comps[1..], rooted, acc + [c])
      else if acc != [] then NormComponents(comps[1..], rooted, acc[..|acc| - 1])
      else NormComponents(comps[1..], rooted, acc)
  }

  /** `os.path.normpath`: exactly two leading separators are kept as two, any other number as one. */
  function NormPath(path: string): (r: string)
    ensures r != ""
    ensures Strs.StartsWith(path, "/") ==> Strs.StartsWith(r, "/")
  {
    if path == "" then "."
    else
      var slashes :=
        if !Strs.StartsWith(path, "/") then ""
        else if Strs.StartsWith(path, "//") && !Strs.StartsWith(path, "///") then "//"
        else "/";
      var r := slashes + Strs.Join(NormComponents(Strs.Split(path, Sep), slashes != "", []), Sep);
      assert slashes != "" ==> r[..1] == "/";
      if r == "" then "." else r
  }

  /** The position just after the last separator, 0 when there is none (`p.rfind('/') + 1`). */
  function AfterLastSep(p: string): (i: nat)
    ensures i <= |p|
    ensures i > 0 ==> p[i - 1] == Sep
    ensures forall k :: i <= k < |p| ==> p[k] != Sep
    decreases |p|
  {
    if p == [] then 0
    else if p[|p| - 1] == Sep then |p|
    else AfterLastSep(p[..|p| - 1])
  }

  /** The head with its trailing separators stripped. */
  function TrimTrailingSeps(s: string): (r: string)
    ensures |r| <= |s| && r == s[..|r|]
    ensures r == [] || r[|r| - 1] != Sep
    decreases |s|
  {
    if s != [] && s[|s| - 1] == Sep then TrimTrailingSeps(s[..|s| - 1]) else s
  }

  predicate AllSeps(s: string) {
    forall k :: 0 <= k < |s| ==> s[k] == Sep
  }

  /** `os.path.dirname`: everything before the last separator, its trailing separators stripped unless it is all separators. */
  function DirName(p: string): (r: string)
    ensures Strs.StartsWith(p, r)
    ensures Sep !in p ==> r == ""
  {
    var head := p[..AfterLastSep(p)];
    var r := if head != [] && !AllSeps(head) then TrimTrailingSeps(head) else head;
    assert p[..|r|] == r;
    r
  }

  /** `os.path.basename`: everything after the last separator. */
  function BaseName(p: string): (r: string)
    ensures Sep !in r
    ensures Strs.EndsWith(p, r)
  {
    p[AfterLastSep(p)..]
  }

  /** The non-empty components of a path (`[x for x in p.split(sep) if x]`). */
  function Components(p: string): (r: seq<string>)
    ensures forall k :: 0 <= k < |r| ==> r[k] != "" && Sep !in r[k]
  {
    Strs.SplitPartsAvoidSeparator(p, Sep);
    NonEmpty(Strs.Split(p, Sep))
  }

  function NonEmpty(parts: seq<string>): (r: seq<string>)
    ensures forall k :: 0 <= k < |r| ==> r[k] != "" && r[k] in parts
    decreases |parts|
  {
    if parts == [] then []
    else if parts[0] == "" then NonEmpty(parts[1..])
    else [parts[0]] + NonEmpty(parts[1..])
  }

  /** The length of the common prefix of two component lists. */
  function CommonPrefix(a: seq<string>, b: seq<string>): (n: nat)
    ensures n <= |a| && n <= |b|
    ensures a[..n] == b[..n]
    ensures n < |a| && n < |b| ==> a[n] != b[n]
    decreases |a|
  {
    if a == [] || b == [] || a[0] != b[0] then 0
    else
      var n := 1 + CommonPrefix(a[1..], b[1..]);
      assert a[..n] == [a[0]] + a[1..][..n - 1];
      assert b[..n] == [b[0]] + b[1..][..n - 1];
      n
  }

  function Repeat(s: string, n: nat): (r: seq<string>)
    ensures |r| == n && forall k :: 0 <= k < n ==> r[k] == s
  {
    seq(n, k => s)
  }

  /**
   * `os.path.relpath(path, start)`: one `..` for each component of `start`
   * past the common prefix, then the rest of `path`; `.` when they coincide.
   */
  function RelPath(path: string, start: string): (r: string)
    ensures r != ""
  {
    var s := Components(NormPath(start));
    var p := Components(NormPath(path));
    var i := CommonPrefix(s, p);
    var rel := Repeat("..", |s| - i) + p[i..];
    if rel == [] then "." else Strs.Join(rel, Sep)
  }

  lemma {:induction false} CommonPrefixSelf(a: seq<string>)
    ensures CommonPrefix(a, a) == |a|
    decreases |a|
  {
    if a != [] {
      CommonPrefixSelf(a[1..]);
    }
  }

  /** A path relative to itself is `.`. */
  lemma RelPathSelf(p: string)
    ensures RelPath(p, p) == "."
  {
    CommonPrefixSelf(Components(NormPath(p)));
  }
}
