/**
 * The order in which filepath.Walk visits a tree: a directory before its
 * entries, and the entries of a directory by name in byte order. On paths
 * this is the lexicographic order of their component sequences.
 */
module WalkOrder {
  import opened Fs

  /** sort.Strings: byte order of the names (code-point order on `char`). */
  predicate NameLess(a: string, b: string)
    decreases |a|
  {
    if a == [] then b != []
    else b != [] && (if a[0] == b[0] then NameLess(a[1..], b[1..]) else a[0] < b[0])
  }

  predicate PathLess(p: Path, q: Path)
    decreases |p|
  {
    if p == [] then q != []
    else q != [] && (if p[0] == q[0] then PathLess(p[1..], q[1..]) else NameLess(p[0], q[0]))
  }

  lemma NameLessIrreflexive(a: string)
    ensures !NameLess(a, a)
  {
  }

  lemma {:induction false} NameLessTransitive(a: string, b: string, c: string)
    requires NameLess(a, b) && NameLess(b, c)
    ensures NameLess(a, c)
    decreases |a|
  {
    if a != [] && a[0] == b[0] && b[0] == c[0] {
      NameLessTransitive(a[1..], b[1..], c[1..]);
    }
  }

  lemma {:induction false} NameLessTotal(a: string, b: string)
    ensures a == b || NameLess(a, b) || NameLess(b, a)
    decreases |a|
  {
    if a != [] && b != [] && a[0] == b[0] {
      NameLessTotal(a[1..], b[1..]);
      if a[1..] == b[1..] {
        assert a == [a[0]] + a[1..] && b == [b[0]] + b[1..];
      }
    }
  }

  lemma {:induction false} PathLessIrreflexive(p: Path)
    ensures !PathLess(p, p)
    decreases |p|
  {
    if p != [] {
      PathLessIrreflexive(p[1..]);
    }
  }

  lemma {:induction false} PathLessTransitive(p: Path, q: Path, r: Path)
    requires PathLess(p, q) && PathLess(q, r)
    ensures PathLess(p, r)
    decreases |p|
  {
    if p != [] {
      if p[0] == q[0] && q[0] == r[0] {
        PathLessTransitive(p[1..], q[1..], r[1..]);
      } else if p[0] != q[0] && q[0] != r[0] {
        NameLessTransitive(p[0], q[0], r[0]);
        if p[0] == r[0] {
          NameLessIrreflexive(p[0]);
          NameLessTransitive(p[0], q[0], p[0]);
        }
      }
    }
  }

  lemma {:induction false} PathLessTotal(p: Path, q: Path)
    ensures p == q || PathLess(p, q) || PathLess(q, p)
    decreases |p|
  {
    if p != [] && q != [] {
      if p[0] == q[0] {
        PathLessTotal(p[1..], q[1..]);
        if p[1..] == q[1..] {
          assert p == [p[0]] + p[1..] && q == [q[0]] + q[1..];
        }
      } else {
        NameLessTotal(p[0], q[0]);
      }
    }
  }

  lemma PathLessAsymmetric(p: Path, q: Path)
    requires PathLess(p, q)
    ensures !PathLess(q, p)
  {
    if PathLess(q, p) {
      PathLessTransitive(p, q, p);
      PathLessIrreflexive(p);
    }
  }

  /** A directory is visited before everything below it. */
  lemma {:induction false} AncestorFirst(p: Path, q: Path)
    requires p < q
    ensures PathLess(p, q)
    decreases |p|
  {
    if p != [] {
      AncestorFirst(p[1..], q[1..]);
    }
  }

  predicate IsLeast(m: Path, s: set<Path>)
  {
    m in s && forall q :: q in s && q != m ==> PathLess(m, q)
  }

  lemma {:induction false} LeastExists(s: set<Path>)
    requires s != {}
    ensures exists m :: IsLeast(m, s)
    decreases |s|
  {
    var x :| x in s;
    if s == {x} {
      assert IsLeast(x, s);
    } else {
      LeastExists(s - {x});
      var m :| IsLeast(m, s - {x});
      PathLessTotal(m, x);
      if PathLess(m, x) {
        assert IsLeast(m, s);
      } else {
        forall q | q in s && q != x
          ensures PathLess(x, q)
        {
          if q != m {
            PathLessTransitive(x, m, q);
          }
        }
        assert IsLeast(x, s);
      }
    }
  }

  lemma LeastUnique(s: set<Path>)
    ensures forall a, b :: IsLeast(a, s) && IsLeast(b, s) ==> a == b
  {
    forall a, b | IsLeast(a, s) && IsLeast(b, s)
      ensures a == b
    {
      if a != b {
        PathLessAsymmetric(a, b);
      }
    }
  }

  function Least(s: set<Path>): (m: Path)
    requires s != {}
    ensures IsLeast(m, s)
  {
    LeastExists(s);
    LeastUnique(s);
    var m :| IsLeast(m, s);
    m
  }

  predicate StrictlyIncreasing(r: seq<Path>)
  {
    forall i, j :: 0 <= i < j < |r| ==> PathLess(r[i], r[j])
  }

  /** The elements of `s` in visiting order. */
  function {:induction false} SortedList(s: set<Path>): (r: seq<Path>)
    ensures |r| == |s|
    ensures forall p :: p in r <==> p in s
    ensures StrictlyIncreasing(r)
    decreases |s|
  {
    if s == {} then []
    else
      var m := Least(s);
      [m] + SortedList(s - {m})
  }

  /** `root` and every entry below it. */
  function Subtree(fs: FS, root: Path): set<Path>
  {
    {root} + set q | q in fs && root < q
  }

  /** What filepath.Walk visits from `root` in a tree that does not change during the walk. */
  function Listing(fs: FS, root: Path): (r: seq<Path>)
    ensures forall p :: p in r <==> p in Subtree(fs, root)
    ensures forall p :: p in r ==> root <= p
    ensures |r| > 0 && r[0] == root
    ensures StrictlyIncreasing(r)
  {
    var r := SortedList(Subtree(fs, root));
    RootFirst(r, root);
    r
  }

  lemma RootFirst(r: seq<Path>, root: Path)
    requires StrictlyIncreasing(r) && root in r
    requires forall p :: p in r ==> root <= p
    ensures r[0] == root
  {
    var k :| 0 <= k < |r| && r[k] == root;
    if k != 0 {
      IncreasingDistinct(r, 0, k);
      assert r[0] in r;
      AncestorFirst(root, r[0]);
      PathLessAsymmetric(r[0], root);
    }
  }

  lemma IncreasingDistinct(r: seq<Path>, i: int, j: int)
    requires StrictlyIncreasing(r) && 0 <= i < |r| && 0 <= j < |r| && i != j
    ensures r[i] != r[j]
  {
    if i < j {
      PathLessIrreflexive(r[i]);
    } else {
      PathLessIrreflexive(r[j]);
    }
  }

  /** Pre-order: when one listed path lies below another, the ancestor comes first. */
  lemma ListingPreOrder(r: seq<Path>, i: int, j: int)
    requires StrictlyIncreasing(r) && 0 <= i < |r| && 0 <= j < |r| && r[i] < r[j]
    ensures i < j
  {
    AncestorFirst(r[i], r[j]);
    if j < i {
      PathLessAsymmetric(r[j], r[i]);
    }
  }

  /** In a tree, every directory between the root and a listed entry is listed. */
  lemma SubtreeClosed(fs: FS, root: Path, q: Path, a: Path)
    requires WellFormed(fs) && q in Subtree(fs, root) && root <= a <= q
    ensures a in Subtree(fs, root)
  {
    if a != root && a != q {
      assert q in fs;
      AncestorIsDir(fs, q, a);
      assert a in fs && root < a;
    }
  }
}
