/**
 * Paths as the Go code passes them around: strings that filepath.Clean and
 * filepath.Join turn into the component sequences of module Fs.
 */
module PathText {
  import opened Fs

  /** The index of the first '/' in `s`, or |s| when there is none. */
  function {:induction false} NameEnd(s: string): (n: nat)
    ensures n <= |s| && '/' !in s[..n]
    ensures n < |s| ==> s[n] == '/'
    decreases |s|
  {
    if s == [] || s[0] == '/' then 0
    else
      var m := NameEnd(s[1..]);
      assert s[..m + 1] == [s[0]] + s[1..][..m];
      m + 1
  }

  /**
   * filepath.Clean of a path string, read as components from the working
   * directory: empty and "." elements disappear, so "./a//b/" is ["a", "b"]
   * and "", "." and "/" are all the working directory.
   */
  function {:induction false} Clean(s: string): (p: Path)
    ensures forall i :: 0 <= i < |p| ==> p[i] != "" && p[i] != "." && '/' !in p[i]
    decreases |s|
  {
    if s == [] then []
    else
      var n := NameEnd(s);
      var rest := if n < |s| then Clean(s[n + 1..]) else [];
      if s[..n] == "" || s[..n] == "." then rest else [s[..n]] + rest
  }

  /** A path element as filepath.Clean leaves it. */
  predicate IsName(n: string)
  {
    n != "" && n != "." && n != ".." && '/' !in n
  }

  predicate Names(p: Path)
  {
    forall i :: 0 <= i < |p| ==> IsName(p[i])
  }

  lemma {:induction false} NameEndOfJoin(a: string, b: string)
    requires '/' !in a
    ensures NameEnd(a + "/" + b) == |a|
    decreases |a|
  {
    if a != [] {
      assert (a + "/" + b)[1..] == a[1..] + "/" + b;
      NameEndOfJoin(a[1..], b);
    }
  }

  /** Cleaning the printed form of a path of names gives the path back. */
  lemma {:induction false} CleanRender(p: Path)
    requires Names(p)
    ensures Clean(Render(p)) == p
    decreases |p|
  {
    if |p| == 1 {
      assert IsName(p[0]);
      assert p[0][..|p[0]|] == p[0];
    } else if |p| > 1 {
      var s := p[0] + "/" + JoinNames(p[1..]);
      NameEndOfJoin(p[0], JoinNames(p[1..]));
      assert s[..|p[0]|] == p[0];
      assert s[|p[0]| + 1..] == JoinNames(p[1..]) == Render(p[1..]);
      CleanRender(p[1..]);
      assert p == [p[0]] + p[1..];
    }
  }

  /** A leading separator is dropped. */
  lemma CleanRooted(s: string)
    ensures Clean("/" + s) == Clean(s)
  {
    var t := "/" + s;
    assert NameEnd(t) == 0;
    assert t[1..] == s;
  }
}
