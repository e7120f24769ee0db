/**
 * The part of the operating system the tool works on: a tree of directories
 * and regular files, and the `os` calls of the Go standard library that the
 * tool makes, each as a pure function from the old tree to a new tree or an
 * error. Symbolic links, owners, times and directory permissions are not
 * modelled.
 */
module Fs {
  import opened Wrappers

  /** A cleaned path, as its components; the empty path is the working directory. */
  type Path = seq<string>
  type Bytes = seq<bv8>
  /** The nine permission bits of a file mode. */
  type Perm = p: int | 0 <= p < 0x200

  /** os.Create opens with 0666, masked by the usual umask 022. */
  const DEFAULT_CREATE_PERM: Perm := 0x1A4

  datatype Node = Dir | File(content: Bytes, perm: Perm)

  /** The errno-like kinds the tool's callers can tell apart. */
  datatype Error =
    | NotExist(path: Path)
    | NotDir(path: Path)
    | IsDir(path: Path)
    | Exists(path: Path)
    | NotEmpty(path: Path)
    | Invalid(path: Path)
    | Failed(reason: string)

  /** Every entry below the working directory, by path. */
  type FS = map<Path, Node>

  /** The tree after a Go function returned, and the error it returned. */
  datatype Outcome = Outcome(fs: FS, err: Option<Error>)

  function Get(fs: FS, p: Path): Option<Node>
  {
    if p == [] then Some(Dir) else if p in fs then Some(fs[p]) else None
  }

  predicate IsDirAt(fs: FS, p: Path)
  {
    Get(fs, p) == Some(Dir)
  }

  predicate IsFileAt(fs: FS, p: Path)
  {
    Get(fs, p).Some? && Get(fs, p).value.File?
  }

  function Parent(p: Path): Path
    requires p != []
  {
    p[..|p| - 1]
  }

  predicate ParentIsDir(fs: FS, p: Path)
  {
    p != [] && IsDirAt(fs, Parent(p))
  }

  /** A tree: every entry hangs below a directory. */
  predicate WellFormed(fs: FS)
  {
    [] !in fs && forall p :: p in fs ==> ParentIsDir(fs, p)
  }

  /** Some proper ancestor of `p` is a regular file (the kernel reports ENOTDIR). */
  predicate Blocked(fs: FS, p: Path)
  {
    exists i :: 0 < i < |p| && IsFileAt(fs, p[..i])
  }

  predicate Disjoint(p: Path, q: Path)
  {
    !(p <= q) && !(q <= p)
  }

  /** The error a lookup of a missing path reports: ENOTDIR or ENOENT. */
  function Missing(fs: FS, p: Path): Error
  {
    if Blocked(fs, p) then NotDir(p) else NotExist(p)
  }

  function Apply(fs: FS, r: Result<FS, Error>): FS
  {
    if r.Ok? then r.value else fs
  }

  function ErrorOf(r: Result<FS, Error>): Option<Error>
  {
    if r.Ok? then None else Some(r.error)
  }

  function Done(fs: FS, r: Result<FS, Error>): Outcome
  {
    Outcome(Apply(fs, r), ErrorOf(r))
  }

  predicate HasDescendant(fs: FS, p: Path)
  {
    exists q :: q in fs && p < q
  }

  function Prefixes(p: Path): set<Path>
  {
    set i | 1 <= i <= |p| :: p[..i]
  }

  /** A path as Go prints it: "." for the working directory, else names joined by '/'. */
  function Render(p: Path): string
  {
    if p == [] then "." else JoinNames(p)
  }

  function JoinNames(p: Path): string
    requires p != []
  {
    if |p| == 1 then p[0] else p[0] + "/" + JoinNames(p[1..])
  }

  lemma {:induction false} JoinNamesAppend(p: Path, r: Path)
    requires p != [] && r != []
    ensures JoinNames(p + r) == JoinNames(p) + "/" + JoinNames(r)
    decreases |p|
  {
    if |p| == 1 {
      assert (p + r)[1..] == r;
    } else {
      JoinNamesAppend(p[1..], r);
      assert (p + r)[1..] == p[1..] + r;
    }
  }

  // ---------------------------------------------------------------------
  // The calls of package os.

  /** os.Stat and os.Lstat. */
  function Stat(fs: FS, p: Path): Result<Node, Error>
  {
    if Get(fs, p).Some? then Ok(Get(fs, p).value) else Err(Missing(fs, p))
  }

  /** os.Mkdir. */
  function Mkdir(fs: FS, p: Path): Result<FS, Error>
  {
    if Get(fs, p).Some? then Err(Exists(p))
    else if ParentIsDir(fs, p) then Ok(fs[p := Dir])
    else Err(Missing(fs, p))
  }

  /** os.MkdirAll: creates every missing ancestor; fails if a file is in the way. */
  function MkdirAll(fs: FS, p: Path): Result<FS, Error>
  {
    if IsDirAt(fs, p) then Ok(fs)
    else if Get(fs, p).Some? || Blocked(fs, p) then Err(NotDir(p))
    else Ok(fs + map q | q in Prefixes(p) :: Dir)
  }

  /** os.Remove: a file, or an empty directory. */
  function Remove(fs: FS, p: Path): Result<FS, Error>
  {
    if p == [] then Err(Invalid(p))
    else if p !in fs then Err(Missing(fs, p))
    else if HasDescendant(fs, p) then Err(NotEmpty(p))
    else Ok(fs - {p})
  }

  /** os.RemoveAll: a missing path is not an error; "." is refused. */
  function RemoveAll(fs: FS, p: Path): Result<FS, Error>
  {
    if p == [] then Err(Invalid(p))
    else if Blocked(fs, p) then Err(NotDir(p))
    else Ok(map q | q in fs && !(p <= q) :: fs[q])
  }

  /** The new names of the entries below `src` once it is renamed to `dst`. */
  function Image(fs: FS, src: Path, dst: Path): set<Path>
  {
    set q | q in fs && src <= q :: dst + q[|src|..]
  }

  lemma ImageMembers(fs: FS, src: Path, dst: Path)
    ensures forall q :: q in Image(fs, src, dst) ==> dst <= q && src + q[|dst|..] in fs
  {
    forall q | q in Image(fs, src, dst)
      ensures dst <= q && src + q[|dst|..] in fs
    {
      var x :| x in fs && src <= x && q == dst + x[|src|..];
      assert q[|dst|..] == x[|src|..];
      assert src + x[|src|..] == x;
    }
  }

  /** The tree after the subtree at `src` has been moved to `dst`. */
  function Move(fs: FS, src: Path, dst: Path): FS
  {
    ImageMembers(fs, src, dst);
    (map q | q in fs && !(src <= q) && !(dst <= q) :: fs[q])
      + (map q | q in Image(fs, src, dst) :: fs[src + q[|dst|..]])
  }

  /**
   * os.Rename on Unix. Go refuses an existing directory as the target before
   * asking the kernel; the kernel refuses a missing source, a target whose
   * parent is not a directory, a target inside the source, and a directory
   * over a file, and replaces a file target.
   */
  function Rename(fs: FS, src: Path, dst: Path): Result<FS, Error>
  {
    if IsDirAt(fs, dst) then
      (if Get(fs, src).None? then Err(Missing(fs, src)) else Err(Exists(dst)))
    else if Get(fs, src).None? then Err(Missing(fs, src))
    else if !ParentIsDir(fs, dst) then Err(Missing(fs, dst))
    else if src == dst then Ok(fs)
    else if src <= dst then Err(Invalid(dst))
    else if IsDirAt(fs, src) && Get(fs, dst).Some? then Err(NotDir(dst))
    else Ok(Move(fs, src, dst))
  }

  /** os.Create (create or truncate, keeping an existing file's mode) followed by a write of `data`. */
  function Create(fs: FS, p: Path, data: Bytes): Result<FS, Error>
  {
    if IsDirAt(fs, p) then Err(IsDir(p))
    else if !ParentIsDir(fs, p) then Err(Missing(fs, p))
    else
      var perm := if IsFileAt(fs, p) then Get(fs, p).value.perm else DEFAULT_CREATE_PERM;
      Ok(fs[p := File(data, perm)])
  }

  /**
   * os.Open of `src`, os.Create of `dst` and io.Copy between them. When both
   * name the same file, the truncation by os.Create empties it before it is read.
   */
  function CopyContents(fs: FS, src: Path, dst: Path): Result<FS, Error>
  {
    match Get(fs, src)
    case None => Err(Missing(fs, src))
    case Some(Dir) => Err(IsDir(src))
    case Some(File(data, _)) => Create(fs, dst, if src == dst then [] else data)
  }

  /** os.Chmod; directory permissions are not modelled. */
  function Chmod(fs: FS, p: Path, perm: Perm): Result<FS, Error>
  {
    match Get(fs, p)
    case None => Err(Missing(fs, p))
    case Some(Dir) => Ok(fs)
    case Some(File(data, _)) => Ok(fs[p := File(data, perm)])
  }

  // ---------------------------------------------------------------------
  // Facts about trees.

  lemma {:induction false} AncestorIsDir(fs: FS, q: Path, p: Path)
    requires WellFormed(fs) && q in fs && p < q
    ensures IsDirAt(fs, p)
    decreases |q|
  {
    var pq := Parent(q);
    if p != pq {
      assert p < pq;
      AncestorIsDir(fs, pq, p);
    }
  }

  /** Every ancestor of a directory is a directory. */
  lemma AncestorIsDirOfDir(fs: FS, d: Path, p: Path)
    requires WellFormed(fs) && IsDirAt(fs, d) && p < d
    ensures IsDirAt(fs, p)
  {
    if d != [] {
      AncestorIsDir(fs, d, p);
    }
  }

  /** Nothing exists below a path that is not a directory. */
  lemma NothingBelowNonDir(fs: FS, p: Path, q: Path)
    requires WellFormed(fs) && !IsDirAt(fs, p) && p < q
    ensures Get(fs, q) == None
  {
    if q in fs {
      AncestorIsDir(fs, q, p);
      assert false;
    }
  }

  /** In a tree, a missing path reports ENOTDIR exactly when some ancestor is a file. */
  lemma StatMissing(fs: FS, p: Path)
    requires WellFormed(fs) && Blocked(fs, p)
    ensures Get(fs, p) == None && Stat(fs, p) == Err(NotDir(p))
  {
    var i :| 0 < i < |p| && IsFileAt(fs, p[..i]);
    NothingBelowNonDir(fs, p[..i], p);
  }

  lemma {:induction false} MoveGet(fs: FS, src: Path, dst: Path, q: Path)
    requires src != [] && dst != []
    ensures Get(Move(fs, src, dst), q)
      == if dst <= q then Get(fs, src + q[|dst|..])
         else if src <= q then None
         else Get(fs, q)
  {
    ImageMembers(fs, src, dst);
    var m := Move(fs, src, dst);
    if q == [] {
    } else if dst <= q {
      var x := src + q[|dst|..];
      if x in fs {
        assert x[|src|..] == q[|dst|..];
        assert dst + q[|dst|..] == q;
        assert q in Image(fs, src, dst);
      }
    } else if src <= q {
    } else {
    }
  }

  // ---------------------------------------------------------------------
  // Each call keeps the tree a tree.

  lemma MkdirWellFormed(fs: FS, p: Path)
    requires WellFormed(fs)
    ensures WellFormed(Apply(fs, Mkdir(fs, p)))
  {
  }

  lemma MkdirAllWellFormed(fs: FS, p: Path)
    requires WellFormed(fs)
    ensures WellFormed(Apply(fs, MkdirAll(fs, p)))
  {
    var r := MkdirAll(fs, p);
    if r.Ok? && r.value != fs {
      var fs' := r.value;
      forall q | q in fs'
        ensures ParentIsDir(fs', q)
      {
        if q in Prefixes(p) {
          var i :| 1 <= i <= |p| && q == p[..i];
          if i > 1 {
            assert Parent(q) == p[..i - 1];
            assert Parent(q) in Prefixes(p);
          }
        } else {
          assert ParentIsDir(fs, q);
        }
      }
    }
  }

  lemma RemoveWellFormed(fs: FS, p: Path)
    requires WellFormed(fs)
    ensures WellFormed(Apply(fs, Remove(fs, p)))
  {
    var r := Remove(fs, p);
    if r.Ok? {
      forall q | q in r.value
        ensures ParentIsDir(r.value, q)
      {
        assert ParentIsDir(fs, q);
      }
    }
  }

  lemma RemoveAllWellFormed(fs: FS, p: Path)
    requires WellFormed(fs)
    ensures WellFormed(Apply(fs, RemoveAll(fs, p)))
  {
    var r := RemoveAll(fs, p);
    if r.Ok? {
      forall q | q in r.value
        ensures ParentIsDir(r.value, q)
      {
        assert ParentIsDir(fs, q);
      }
    }
  }

  /** A rename that succeeds between distinct paths moves one subtree to a disjoint place. */
  lemma RenameMoves(fs: FS, src: Path, dst: Path)
    requires WellFormed(fs) && Rename(fs, src, dst).Ok? && src != dst
    ensures src != [] && dst != [] && Disjoint(src, dst)
    ensures Rename(fs, src, dst).value == Move(fs, src, dst)
    ensures Get(fs, src).Some? && ParentIsDir(fs, dst)
  {
    if dst < src {
      AncestorIsDir(fs, src, dst);
      assert false;
    }
  }

  lemma RenameWellFormed(fs: FS, src: Path, dst: Path)
    requires WellFormed(fs)
    ensures WellFormed(Apply(fs, Rename(fs, src, dst)))
  {
    var r := Rename(fs, src, dst);
    if r.Ok? && src != dst {
      RenameMoves(fs, src, dst);
      var m := Move(fs, src, dst);
      forall k | k in m
        ensures ParentIsDir(m, k)
      {
        MovedParentIsDir(fs, src, dst, k);
      }
      assert [] !in m by {
        ImageMembers(fs, src, dst);
      }
    }
  }

  /** After a successful move every entry still hangs below a directory. */
  lemma MovedParentIsDir(fs: FS, src: Path, dst: Path, k: Path)
    requires WellFormed(fs) && Rename(fs, src, dst).Ok? && src != dst && k in Move(fs, src, dst)
    ensures ParentIsDir(Move(fs, src, dst), k)
  {
    RenameMoves(fs, src, dst);
    MoveGet(fs, src, dst, k);
    assert k != [] by {
      ImageMembers(fs, src, dst);
    }
    if dst <= k {
      MovedBelowParentIsDir(fs, src, dst, k);
    } else {
      MoveGet(fs, src, dst, Parent(k));
      assert ParentIsDir(fs, k);
    }
  }

  /** An entry moved below `dst` still has a directory as its parent. */
  lemma MovedBelowParentIsDir(fs: FS, src: Path, dst: Path, k: Path)
    requires WellFormed(fs) && src != [] && dst != [] && Disjoint(src, dst)
    requires Get(fs, src).Some? && ParentIsDir(fs, dst)
    requires dst <= k && src + k[|dst|..] in fs
    ensures ParentIsDir(Move(fs, src, dst), k)
  {
    var pk := Parent(k);
    MoveGet(fs, src, dst, pk);
    var rest := k[|dst|..];
    if rest == [] {
      assert k == dst;
      assert !(src <= pk);
    } else {
      assert Parent(src + rest) == src + pk[|dst|..];
      assert ParentIsDir(fs, src + rest);
    }
  }

  lemma CreateWellFormed(fs: FS, p: Path, data: Bytes)
    requires WellFormed(fs)
    ensures WellFormed(Apply(fs, Create(fs, p, data)))
  {
    var r := Create(fs, p, data);
    if r.Ok? {
      forall q | q in r.value
        ensures ParentIsDir(r.value, q)
      {
        if q != p {
          assert ParentIsDir(fs, q);
          if Parent(q) == p {
            NothingBelowNonDir(fs, p, q);
          }
        }
      }
    }
  }

  lemma CopyContentsWellFormed(fs: FS, src: Path, dst: Path)
    requires WellFormed(fs)
    ensures WellFormed(Apply(fs, CopyContents(fs, src, dst)))
  {
    if Get(fs, src).Some? && Get(fs, src).value.File? {
      CreateWellFormed(fs, dst, if src == dst then [] else Get(fs, src).value.content);
    }
  }

  lemma ChmodWellFormed(fs: FS, p: Path, perm: Perm)
    requires WellFormed(fs)
    ensures WellFormed(Apply(fs, Chmod(fs, p, perm)))
  {
  }

  // ---------------------------------------------------------------------
  // Comparing trees.

  /** The subtree at `p` in `a` is the subtree at `q` in `b`. */
  ghost predicate SameTree(a: FS, p: Path, b: FS, q: Path)
  {
    forall r :: Get(a, p + r) == Get(b, q + r)
  }

  lemma SameTreeTrans(a: FS, p: Path, b: FS, q: Path, c: FS, r: Path)
    requires SameTree(a, p, b, q) && SameTree(b, q, c, r)
    ensures SameTree(a, p, c, r)
  {
    forall x
      ensures Get(a, p + x) == Get(c, r + x)
    {
      assert Get(a, p + x) == Get(b, q + x);
    }
  }

  /** Nothing exists at or below `p`. */
  ghost predicate Gone(a: FS, p: Path)
  {
    forall r :: Get(a, p + r) == None
  }

  /** Every path outside the subtrees at `p1` and `p2` is as it was. */
  ghost predicate UnchangedOutside(a: FS, b: FS, p1: Path, p2: Path)
  {
    forall q :: !(p1 <= q) && !(p2 <= q) ==> Get(a, q) == Get(b, q)
  }

  lemma PrefixesComparable(a: Path, b: Path, c: Path)
    requires a <= c && b <= c
    ensures a <= b || b <= a
  {
    if |a| <= |b| {
      assert a == c[..|a|] == b[..|a|];
    } else {
      assert b == c[..|b|] == a[..|b|];
    }
  }

  /** Two trees that agree on every lookup are equal. */
  lemma Extensionality(a: FS, b: FS)
    requires [] !in a && [] !in b
    requires forall q :: Get(a, q) == Get(b, q)
    ensures a == b
  {
    forall q | q in a
      ensures q in b && a[q] == b[q]
    {
      assert Get(a, q) == Get(b, q);
    }
    forall q | q in b
      ensures q in a
    {
      assert Get(a, q) == Get(b, q);
    }
  }

  /** An absent path has nothing below it. */
  lemma AbsentIsGone(fs: FS, p: Path)
    requires WellFormed(fs) && Get(fs, p) == None
    ensures Gone(fs, p)
  {
    forall r
      ensures Get(fs, p + r) == None
    {
      if r != [] {
        NothingBelowNonDir(fs, p, p + r);
      } else {
        assert p + r == p;
      }
    }
  }

  /** A rename touches only the subtrees at its two paths. */
  lemma RenameFrame(fs: FS, src: Path, dst: Path)
    requires WellFormed(fs)
    ensures UnchangedOutside(Apply(fs, Rename(fs, src, dst)), fs, src, dst)
  {
    if Rename(fs, src, dst).Ok? && src != dst {
      RenameMoves(fs, src, dst);
      forall q | !(src <= q) && !(dst <= q)
        ensures Get(Move(fs, src, dst), q) == Get(fs, q)
      {
        MoveGet(fs, src, dst, q);
      }
    }
  }

  /**
   * Renaming onto a free name below an existing directory moves the whole
   * subtree, and succeeds exactly when the source exists.
   */
  lemma RenameIntoFree(fs: FS, src: Path, dst: Path)
    requires WellFormed(fs) && Disjoint(src, dst)
    requires Get(fs, dst) == None && ParentIsDir(fs, dst)
    ensures Rename(fs, src, dst).Ok? <==> Get(fs, src).Some?
    ensures var fs' := Apply(fs, Rename(fs, src, dst));
      && SameTree(fs', dst, fs, src)
      && Gone(fs', src)
      && UnchangedOutside(fs', fs, src, dst)
  {
    RenameFrame(fs, src, dst);
    var fs' := Apply(fs, Rename(fs, src, dst));
    if Get(fs, src).None? {
      AbsentIsGone(fs, src);
      AbsentIsGone(fs, dst);
    } else {
      assert src != [];
      forall r
        ensures Get(fs', dst + r) == Get(fs, src + r)
      {
        MoveGet(fs, src, dst, dst + r);
        assert (dst + r)[|dst|..] == r;
      }
      forall r
        ensures Get(fs', src + r) == None
      {
        MoveGet(fs, src, dst, src + r);
        if dst <= src + r {
          PrefixesComparable(dst, src, src + r);
        }
      }
    }
  }

  /** Moving a subtree to a free place and back restores the tree. */
  lemma MoveBack(fs: FS, a: Path, b: Path, q: Path)
    requires WellFormed(fs) && a != [] && b != [] && Disjoint(a, b) && Get(fs, b) == None
    ensures Get(Move(Move(fs, a, b), b, a), q) == Get(fs, q)
  {
    var fs1 := Move(fs, a, b);
    MoveGet(fs1, b, a, q);
    if a <= q {
      var x := b + q[|a|..];
      MoveGet(fs, a, b, x);
      assert x[|b|..] == q[|a|..];
      assert a + q[|a|..] == q;
    } else if b <= q {
      AbsentIsGone(fs, b);
      assert q == b + q[|b|..];
    } else {
      MoveGet(fs, a, b, q);
    }
  }

  lemma RenameThereAndBack(fs: FS, a: Path, b: Path)
    requires WellFormed(fs) && a != b && Get(fs, b) == None
    requires Rename(fs, a, b).Ok? && Rename(Rename(fs, a, b).value, b, a).Ok?
    ensures Rename(Rename(fs, a, b).value, b, a).value == fs
  {
    RenameMoves(fs, a, b);
    RenameWellFormed(fs, a, b);
    var fs1 := Move(fs, a, b);
    RenameMoves(fs1, b, a);
    RenameWellFormed(fs1, b, a);
    forall q
      ensures Get(Move(fs1, b, a), q) == Get(fs, q)
    {
      MoveBack(fs, a, b, q);
    }
    Extensionality(Move(fs1, b, a), fs);
  }

  /** Below a directory no ancestor is a file. */
  lemma NotBlockedBelowDir(fs: FS, p: Path)
    requires WellFormed(fs) && ParentIsDir(fs, p)
    ensures !Blocked(fs, p)
  {
    if Blocked(fs, p) {
      var i :| 0 < i < |p| && IsFileAt(fs, p[..i]);
      if i < |p| - 1 {
        AncestorIsDirOfDir(fs, Parent(p), p[..i]);
      }
      assert false;
    }
  }

  lemma RemoveAllGet(fs: FS, p: Path, q: Path)
    requires RemoveAll(fs, p).Ok?
    ensures Get(RemoveAll(fs, p).value, q) == if p <= q then None else Get(fs, q)
  {
  }

  /**
   * A successful MkdirAll leaves `p` a directory, keeps every existing entry
   * as it was, and adds only directories on the way to `p`.
   */
  lemma MkdirAllEffect(fs: FS, p: Path)
    requires MkdirAll(fs, p).Ok?
    ensures var fs' := MkdirAll(fs, p).value;
      && IsDirAt(fs', p)
      && (forall q :: Get(fs, q).Some? ==> Get(fs', q) == Get(fs, q))
      && (forall q :: Get(fs', q) != Get(fs, q) ==> q <= p && Get(fs', q) == Some(Dir))
  {
    var fs' := MkdirAll(fs, p).value;
    if !IsDirAt(fs, p) {
      assert p in Prefixes(p) by {
        assert p[..|p|] == p;
      }
      forall q | Get(fs, q).Some?
        ensures Get(fs', q) == Get(fs, q)
      {
        if q in Prefixes(p) {
          var i :| 1 <= i <= |p| && q == p[..i];
          if i < |p| {
            assert !IsFileAt(fs, p[..i]);
          }
        }
      }
    }
  }

  /** A file on the way to `p`, or below which `p` would lie, blocks everything below. */
  lemma BlockedBelow(fs: FS, p: Path, q: Path)
    requires p < q && (Blocked(fs, p) || IsFileAt(fs, p))
    ensures Blocked(fs, q)
  {
    if Blocked(fs, p) {
      var i :| 0 < i < |p| && IsFileAt(fs, p[..i]);
      assert q[..i] == p[..i];
    } else {
      assert q[..|p|] == p;
    }
  }

  /** MkdirAll succeeds exactly when no file is in the way. */
  lemma MkdirAllSucceeds(fs: FS, p: Path)
    requires WellFormed(fs)
    ensures MkdirAll(fs, p).Ok? <==> !Blocked(fs, p) && !IsFileAt(fs, p)
  {
    if IsDirAt(fs, p) && p != [] {
      NotBlockedBelowDir(fs, p);
    }
  }
}
