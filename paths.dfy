/**
 * Slash-separated path helpers as Go's `path`/`path/filepath` define them on Unix:
 * `Base`, `Dir`, `Ext` and a two-operand `Join`. `Clean` is applied only where it
 * removes trailing slashes; paths are otherwise taken as already clean.
 */
module Paths {

  const Sep: char := '/'

  predicate NoSep(s: string) {
    forall i :: 0 <= i < |s| ==> s[i] != Sep
  }

  /** Drops every trailing separator. */
  function TrimTrailingSeps(p: string): (r: string)
    ensures |r| <= |p| && r == p[..|r|]
    ensures r == [] || r[|r| - 1] != Sep
    ensures forall i :: |r| <= i < |p| ==> p[i] == Sep
  {
    if p != [] && p[|p| - 1] == Sep then TrimTrailingSeps(p[..|p| - 1]) else p
  }

  /** The part of `p` after its last separator (all of `p` when there is none). */
  function LastElement(p: string): (r: string)
    ensures NoSep(r)
    ensures |r| <= |p| && p[|p| - |r|..] == r
    ensures |r| < |p| ==> p[|p| - |r| - 1] == Sep
  {
    if p == [] || p[|p| - 1] == Sep then [] else LastElement(p[..|p| - 1]) + [p[|p| - 1]]
  }

  /** `filepath.Base`: the last element, trailing separators removed; "." for "", "/" for all-slash paths. */
  function Base(p: string): (r: string)
    ensures r != []
    ensures r == [Sep] || NoSep(r)
  {
    if p == [] then "."
    else
      var t := TrimTrailingSeps(p);
      if t == [] then [Sep] else LastElement(t)
  }

  /** `filepath.Dir`: everything up to the last separator, with its trailing separators removed. */
  function Dir(p: string): (r: string)
    ensures r != []
  {
    var e := LastElement(p);
    if |e| == |p| then "."
    else
      var d := TrimTrailingSeps(p[..|p| - |e|]);
      if d == [] then [Sep] else d
  }

  /** `filepath.Join(a, b)` for clean operands. */
  function Join(a: string, b: string): string {
    if a == [] || a == "." then b
    else if b == [] then a
    else if a[|a| - 1] == Sep then a + b
    else a + [Sep] + b
  }

  /**
   * `filepath.Ext`: the suffix from the final dot of the final element, or "" when
   * that element has no dot.
   */
  function Ext(p: string): (r: string)
    ensures r == [] || (r[0] == '.' && |r| <= |p| && p[|p| - |r|..] == r)
  {
    if p == [] || p[|p| - 1] == Sep then []
    else if p[|p| - 1] == '.' then "."
    else
      var e := Ext(p[..|p| - 1]);
      if e == [] then [] else e + [p[|p| - 1]]
  }

  /** Joining a directory with a single non-empty element yields a path whose base is that element. */
  lemma {:induction false} BaseOfJoin(d: string, name: string)
    requires name != [] && NoSep(name)
    ensures Base(Join(d, name)) == name
    ensures d != [] && d != "." && d[|d| - 1] != Sep ==> Dir(Join(d, name)) == d
  {
    var j := Join(d, name);
    LastElementOfSuffix(j, name);
    assert TrimTrailingSeps(j) == j;
    if d != [] && d != "." && d[|d| - 1] != Sep {
      assert j == (d + [Sep]) + name;
      assert j[..|j| - |name|] == d + [Sep];
      assert (d + [Sep])[..|d + [Sep]| - 1] == d;
    }
  }

  /** A separator followed by a separator-free tail makes that tail the last element. */
  lemma {:induction false} LastElementOfSuffix(p: string, name: string)
    requires NoSep(name)
    requires |p| >= |name| && p[|p| - |name|..] == name
    requires |p| > |name| ==> p[|p| - |name| - 1] == Sep
    ensures LastElement(p) == name
    decreases |name|
  {
    if name != [] {
      var q := p[..|p| - 1];
      var n := name[..|name| - 1];
      assert q[|q| - |n|..] == n;
      LastElementOfSuffix(q, n);
      assert name == n + [p[|p| - 1]];
    }
  }
}
