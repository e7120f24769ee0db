/**
 * utility/copy.go: copying a file or a directory tree, optionally deleting
 * the destination first and skipping entries that match ignore patterns.
 */
module Copy {
  import opened Wrappers
  import opened Fs
  import opened WalkOrder
  import opened Patterns
  import Os

  /** copyDir's CopyContext: the walk's root, the destination root and the ignore patterns. */
  datatype CopyContext = CopyContext(source: Path, destination: Path, ignore: seq<string>, rx: Regexp)

  /** filepath.Dir of a cleaned path. */
  function DirOf(p: Path): Path
  {
    if p == [] then [] else Parent(p)
  }

  // ---------------------------------------------------------------------
  // Where a walked entry goes.

  /** `sub` occurs in `s` at position `j`. */
  predicate OccursAt(s: string, sub: string, j: int)
  {
    0 <= j && j + |sub| <= |s| && s[j..j + |sub|] == sub
  }

  /** strings.Index from position `k` on: the first occurrence at or after `k`, or -1. */
  function {:induction false} IndexFrom(s: string, sub: string, k: nat): (i: int)
    ensures i == -1 || (k <= i && OccursAt(s, sub, i))
    ensures i == -1 ==> forall j :: k <= j ==> !OccursAt(s, sub, j)
    ensures i >= 0 ==> forall j :: k <= j < i ==> !OccursAt(s, sub, j)
    decreases |s| - k
  {
    if k + |sub| > |s| then -1
    else if s[k..k + |sub|] == sub then k
    else IndexFrom(s, sub, k + 1)
  }

  /** strings.Replace(s, pat, rep, 1): the first occurrence of `pat` becomes `rep`. */
  function ReplaceOnce(s: string, pat: string, rep: string): (r: string)
    ensures pat <= s ==> r == rep + s[|pat|..]
    ensures (forall j :: !OccursAt(s, pat, j)) ==> r == s
  {
    assert pat <= s ==> OccursAt(s, pat, 0);
    var i := IndexFrom(s, pat, 0);
    if i < 0 then s
    else s[..i] + rep + s[i + |pat|..]
  }

  /**
   * The destination copyDirWalk computes, as written: a textual replacement
   * of the first occurrence of the source root in the printed entry path.
   * For every source root other than "." it is the prefix swap.
   */
  function DestinationAsWritten(source: Path, destination: Path, src: Path): string
  {
    ReplaceOnce(Render(src), Render(source), Render(destination))
  }

  /** For a source root other than "." the textual replacement swaps the printed root for the destination's. */
  lemma AsWrittenSwapsPrefix(source: Path, destination: Path, src: Path)
    requires source != [] && source <= src
    ensures |Render(source)| <= |Render(src)|
      && DestinationAsWritten(source, destination, src) == Render(destination) + Render(src)[|Render(source)|..]
  {
    if src != source {
      JoinNamesAppend(source, src[|source|..]);
      assert source + src[|source|..] == src;
    }
  }

  /**
   * With the working directory as the source root, filepath.Walk yields
   * entry paths without a "./" prefix, so the replacement hits the first '.'
   * inside a name: "a.txt" goes to "aouttxt" instead of "out/a.txt".
   */
  lemma DotSourceMangledName()
    ensures DestinationAsWritten([], ["out"], ["a.txt"]) == "aouttxt"
    ensures Render(Destination(CopyContext([], ["out"], [], Regexp(_ => true, (_, _) => false)), ["a.txt"]))
      == "out/a.txt"
  {
    var s := Render(["a.txt"]);
    assert s == "a.txt";
    assert !OccursAt(s, ".", 0) by { assert s[0..1] == "a"; }
    assert OccursAt(s, ".", 1) by { assert s[1..2] == "."; }
    assert IndexFrom(s, ".", 0) == 1;
    assert s[..1] + "out" + s[2..] == "aouttxt";
    assert Destination(CopyContext([], ["out"], [], Regexp(_ => true, (_, _) => false)), ["a.txt"])
      == ["out", "a.txt"];
  }

  /**
   * An entry whose path has no '.' is not moved at all: with "." as the
   * source root "docs/x" is copied onto itself.
   */
  lemma DotSourceCopiesOntoItself()
    ensures DestinationAsWritten([], ["out"], ["docs", "x"]) == Render(["docs", "x"])
  {
    var d := Render(["docs", "x"]);
    assert d == "docs/x";
    forall j
      ensures !OccursAt(d, ".", j)
    {
      if 0 <= j < |d| {
        assert d[j..j + 1] == [d[j]];
      }
    }
  }

  /**
   * The destination of a walked entry: the source root swapped for the
   * destination root (the behaviour of copyDirWalk for every source root
   * other than ".").
   */
  function Destination(cc: CopyContext, src: Path): (dst: Path)
    ensures cc.source <= src ==> cc.destination <= dst && dst[|cc.destination|..] == src[|cc.source|..]
  {
    if cc.source <= src then cc.destination + src[|cc.source|..] else src
  }

  /** Distinct walked entries have distinct destinations. */
  lemma DestinationInjective(cc: CopyContext, a: Path, b: Path)
    requires cc.source <= a && cc.source <= b && a != b
    ensures Destination(cc, a) != Destination(cc, b)
  {
    assert a == cc.source + a[|cc.source|..];
    assert b == cc.source + b[|cc.source|..];
  }

  /** When the two roots do not overlap, no walked entry lies on the way to a destination. */
  lemma SourceNotOnDestinationPath(cc: CopyContext, e: Path, d: Path)
    requires Disjoint(cc.source, cc.destination) && cc.source <= e && cc.destination <= d
    ensures !(e <= d)
  {
    if e <= d {
      PrefixesComparable(cc.source, cc.destination, d);
    }
  }

  // ---------------------------------------------------------------------
  // One entry.

  /** copyDirWalk's ignore loop returns early, skipping the entry, at the first pattern that fails to compile or matches. */
  predicate Ignored(cc: CopyContext, src: Path)
  {
    exists k :: 0 <= k < |cc.ignore| && (!cc.rx.compiles(cc.ignore[k]) || cc.rx.matches(cc.ignore[k], src))
  }

  method CheckIgnore(cc: CopyContext, src: Path) returns (skip: bool)
    ensures skip <==> Ignored(cc, src)
  {
    var k := 0;
    while k < |cc.ignore|
      invariant 0 <= k <= |cc.ignore|
      invariant forall j :: 0 <= j < k ==> cc.rx.compiles(cc.ignore[j]) && !cc.rx.matches(cc.ignore[j], src)
    {
      var pattern := cc.ignore[k];
      if !cc.rx.compiles(pattern) {
        return true;
      }
      if cc.rx.matches(pattern, src) {
        return true;
      }
      k := k + 1;
    }
    return false;
  }

  /** The permission bits os.FileInfo reports; a directory never gets as far as using them. */
  function ModePerm(n: Node): Perm
  {
    match n
    case File(_, perm) => perm
    case Dir => 0x1ED
  }

  /** copyFile: stat the source, copy its bytes, then give the copy the source's permission bits. */
  function CopyFileSpec(fs: FS, src: Path, dst: Path): Outcome
  {
    match Stat(fs, src)
    case Err(e) => Outcome(fs, Some(e))
    case Ok(info) =>
      match CopyContents(fs, src, dst)
      case Err(e) => Outcome(fs, Some(e))
      case Ok(fs1) => Done(fs1, Chmod(fs1, dst, ModePerm(info)))
  }

  method CopyFile(fs: Os.FileSystem, src: Path, dst: Path) returns (err: Option<Error>)
    requires fs.Valid()
    modifies fs
    ensures fs.Valid()
    ensures Outcome(fs.nodes, err) == CopyFileSpec(old(fs.nodes), src, dst)
  {
    var sfi := fs.Stat(src);
    if sfi.Err? {
      return Some(sfi.error);
    }
    err := fs.CopyContents(src, dst);
    if err.Some? {
      return;
    }
    err := fs.Chmod(dst, ModePerm(sfi.value));
  }

  /** Walk's lstat of one entry and copyDirWalk on it. */
  function WalkEntry(fs: FS, cc: CopyContext, src: Path): Outcome
  {
    var dst := Destination(cc, src);
    match Stat(fs, src)
    case Err(e) => Outcome(fs, Some(e))
    case Ok(info) =>
      if Ignored(cc, src) then Outcome(fs, None)
      else if info.Dir? then Done(fs, MkdirAll(fs, dst))
      else CopyFileSpec(fs, src, dst)
  }

  method CopyDirWalk(fs: Os.FileSystem, cc: CopyContext, src: Path) returns (err: Option<Error>)
    requires fs.Valid()
    modifies fs
    ensures fs.Valid()
    ensures Outcome(fs.nodes, err) == WalkEntry(old(fs.nodes), cc, src)
  {
    var dst := Destination(cc, src);
    var info := fs.Stat(src);
    if info.Err? {
      return Some(info.error);
    }
    var skip := CheckIgnore(cc, src);
    if skip {
      return None;
    }
    if info.value.Dir? {
      err := fs.MkdirAll(dst);
      return;
    }
    err := CopyFile(fs, src, dst);
  }

  // ---------------------------------------------------------------------
  // The walk and the whole copy.

  /** filepath.Walk over `entries` with copyDirWalk: the first error ends the walk. */
  function WalkSpec(fs: FS, cc: CopyContext, entries: seq<Path>): Outcome
    decreases |entries|
  {
    if entries == [] then Outcome(fs, None)
    else
      var o := WalkEntry(fs, cc, entries[0]);
      if o.err.Some? then o else WalkSpec(o.fs, cc, entries[1..])
  }

  /** copyDir: optionally delete the destination (ignoring failure), create it, then walk the source. */
  function CopyDirSpec(fs: FS, cc: CopyContext, hardCopy: bool): Outcome
  {
    var fs1 := if hardCopy then Apply(fs, RemoveAll(fs, cc.destination)) else fs;
    match MkdirAll(fs1, cc.destination)
    case Err(e) => Outcome(fs1, Some(e))
    case Ok(fs2) => WalkSpec(fs2, cc, Listing(fs2, cc.source))
  }

  /** Copy(source, dest, hardCopy, verbose, ignore...) on cleaned paths. */
  function CopySpec(fs: FS, source: Path, dest: Path, hardCopy: bool, ignore: seq<string>, rx: Regexp): Outcome
  {
    match Stat(fs, source)
    case Err(e) => Outcome(fs, Some(e))
    case Ok(Dir) => CopyDirSpec(fs, CopyContext(source, dest, ignore, rx), hardCopy)
    case Ok(File(_, _)) =>
      match MkdirAll(fs, DirOf(dest))
      case Err(e) => Outcome(fs, Some(e))
      case Ok(fs1) => CopyFileSpec(fs1, source, dest)
  }

  method CopyDir(fs: Os.FileSystem, cc: CopyContext, hardCopy: bool) returns (err: Option<Error>)
    requires fs.Valid()
    modifies fs
    ensures fs.Valid()
    ensures Outcome(fs.nodes, err) == CopyDirSpec(old(fs.nodes), cc, hardCopy)
  {
    if hardCopy {
      var _ := fs.RemoveAll(cc.destination);
    }
    err := fs.MkdirAll(cc.destination);
    if err.Some? {
      return;
    }
    var entries := Listing(fs.nodes, cc.source);
    err := Walk(fs, cc, entries);
  }

  /** filepath.Walk's loop over the listed entries with copyDirWalk as the visitor. */
  method Walk(fs: Os.FileSystem, cc: CopyContext, entries: seq<Path>) returns (err: Option<Error>)
    requires fs.Valid()
    modifies fs
    ensures fs.Valid()
    ensures Outcome(fs.nodes, err) == WalkSpec(old(fs.nodes), cc, entries)
  {
    ghost var start := fs.nodes;
    var i := 0;
    while i < |entries|
      invariant 0 <= i <= |entries| && fs.Valid()
      invariant WalkSpec(start, cc, entries) == WalkSpec(fs.nodes, cc, entries[i..])
    {
      assert entries[i..][1..] == entries[i + 1..];
      err := CopyDirWalk(fs, cc, entries[i]);
      if err.Some? {
        return;
      }
      i := i + 1;
    }
    err := None;
  }

  method Copy(fs: Os.FileSystem, source: Path, dest: Path, hardCopy: bool, ignore: seq<string>, rx: Regexp)
    returns (err: Option<Error>)
    requires fs.Valid()
    modifies fs
    ensures fs.Valid()
    ensures Outcome(fs.nodes, err) == CopySpec(old(fs.nodes), source, dest, hardCopy, ignore, rx)
  {
    var srcInfo := fs.Stat(source);
    if srcInfo.Err? {
      return Some(srcInfo.error);
    }
    if srcInfo.value.Dir? {
      err := CopyDir(fs, CopyContext(source, dest, ignore, rx), hardCopy);
      return;
    }
    err := fs.MkdirAll(DirOf(dest));
    if err.Some? {
      return;
    }
    err := CopyFile(fs, source, dest);
  }

  // ---------------------------------------------------------------------
  // What one step changes.

  /**
   * `fs'` differs from `fs` only on the way to `d`, and of the entries that
   * existed only `d` itself changed, and it still exists.
   */
  ghost predicate ChangesOnlyToward(fs: FS, fs': FS, d: Path)
  {
    forall q :: Get(fs', q) != Get(fs, q) ==> q <= d && (Get(fs, q).Some? ==> q == d && Get(fs', q).Some?)
  }

  lemma CopyFileEffect(fs: FS, src: Path, dst: Path)
    ensures ChangesOnlyToward(fs, CopyFileSpec(fs, src, dst).fs, dst)
    ensures var o := CopyFileSpec(fs, src, dst);
      o.err == None && src != dst && IsFileAt(fs, src) ==> Get(o.fs, dst) == Get(fs, src)
  {
  }

  lemma WalkEntryEffect(fs: FS, cc: CopyContext, e: Path)
    ensures var o := WalkEntry(fs, cc, e);
      && ChangesOnlyToward(fs, o.fs, Destination(cc, e))
      && (Ignored(cc, e) ==> o.fs == fs)
      && (o.err == None && !Ignored(cc, e) && IsDirAt(fs, e) ==> IsDirAt(o.fs, Destination(cc, e)))
      && (o.err == None && !Ignored(cc, e) && IsFileAt(fs, e) && e != Destination(cc, e)
          ==> Get(o.fs, Destination(cc, e)) == Get(fs, e))
  {
    var d := Destination(cc, e);
    CopyFileEffect(fs, e, d);
    if MkdirAll(fs, d).Ok? {
      MkdirAllEffect(fs, d);
    }
  }

  /**
   * The change at `q` between `fs` and `fs'` is accounted for by entry `e`:
   * `e` was not ignored, `q` lies on the way to its destination, and if `q`
   * existed before, it is that destination and it still exists.
   */
  ghost predicate Explains(cc: CopyContext, e: Path, fs: FS, fs': FS, q: Path)
  {
    && !Ignored(cc, e)
    && q <= Destination(cc, e)
    && (Get(fs, q).Some? ==> q == Destination(cc, e) && Get(fs', q).Some?)
  }

  /**
   * Everything a walk changes lies on the way to the destination of some
   * entry it did not ignore; an entry that existed before is changed only
   * when it is such a destination, and it still exists afterwards.
   */
  lemma {:induction false} WalkChanges(fs: FS, cc: CopyContext, entries: seq<Path>)
    ensures var r := WalkSpec(fs, cc, entries);
      forall q :: Get(r.fs, q) != Get(fs, q) ==> exists e :: e in entries && Explains(cc, e, fs, r.fs, q)
    decreases |entries|
  {
    if entries != [] {
      var e0 := entries[0];
      var o := WalkEntry(fs, cc, e0);
      WalkEntryEffect(fs, cc, e0);
      if o.err == None {
        var tail := entries[1..];
        WalkChanges(o.fs, cc, tail);
        var r := WalkSpec(o.fs, cc, tail);
        forall q | Get(r.fs, q) != Get(fs, q)
          ensures exists e :: e in entries && Explains(cc, e, fs, r.fs, q)
        {
          if Get(r.fs, q) != Get(o.fs, q) {
            var e :| e in tail && Explains(cc, e, o.fs, r.fs, q);
            assert e in entries;
          } else {
            assert e0 in entries;
          }
        }
      }
    }
  }

  /**
   * Between roots that do not overlap, no step of the walk touches the
   * source tree: after every prefix of the entries the subtree at the
   * source is what it was. filepath.Walk reads each directory's names only
   * when it reaches it, and by this lemma those reads see the tree the
   * listing was taken from.
   */
  lemma {:induction false} WalkKeepsSource(fs: FS, cc: CopyContext, entries: seq<Path>, i: nat)
    requires Disjoint(cc.source, cc.destination) && i <= |entries|
    requires forall e :: e in entries ==> cc.source <= e
    ensures SameTree(WalkSpec(fs, cc, entries[..i]).fs, cc.source, fs, cc.source)
  {
    var done := entries[..i];
    var r := WalkSpec(fs, cc, done).fs;
    WalkChanges(fs, cc, done);
    forall x
      ensures Get(r, cc.source + x) == Get(fs, cc.source + x)
    {
      var q := cc.source + x;
      if Get(r, q) != Get(fs, q) {
        var e :| e in done && Explains(cc, e, fs, r, q);
        assert e in entries;
        var d := Destination(cc, e);
        PrefixesComparable(cc.source, cc.destination, d);
        assert false;
      }
    }
  }

  /**
   * A walk that returns nil over distinct entries below a source root that
   * does not overlap the destination root leaves, for every entry it did not
   * ignore, a directory at its destination, or a copy of the file with the
   * same bytes and permission bits. An ignored ancestor does not matter:
   * each entry is tested on its own path.
   */
  lemma {:induction false} WalkCopies(fs: FS, cc: CopyContext, entries: seq<Path>)
    requires Disjoint(cc.source, cc.destination)
    requires forall e :: e in entries ==> cc.source <= e
    requires forall i, j :: 0 <= i < j < |entries| ==> entries[i] != entries[j]
    requires WalkSpec(fs, cc, entries).err == None
    ensures var r := WalkSpec(fs, cc, entries).fs;
      forall e :: e in entries && !Ignored(cc, e) ==>
        && (IsFileAt(fs, e) ==> Get(r, Destination(cc, e)) == Get(fs, e))
        && (IsDirAt(fs, e) ==> IsDirAt(r, Destination(cc, e)))
    decreases |entries|
  {
    if entries != [] {
      var e0 := entries[0];
      var tail := entries[1..];
      var o := WalkEntry(fs, cc, e0);
      WalkEntryEffect(fs, cc, e0);
      var d0 := Destination(cc, e0);
      assert e0 in entries;
      assert forall e :: e in tail ==> e in entries;
      assert forall i, j :: 0 <= i < j < |tail| ==> tail[i] == entries[i + 1] && tail[j] == entries[j + 1];
      WalkCopies(o.fs, cc, tail);
      WalkChanges(o.fs, cc, tail);
      forall k | 0 <= k < |tail|
        ensures tail[k] != e0
      {
        assert tail[k] == entries[k + 1];
      }
      forall e | e in tail
        ensures Get(o.fs, e) == Get(fs, e) && Destination(cc, e) != d0
      {
        SourceNotOnDestinationPath(cc, e, d0);
        DestinationInjective(cc, e0, e);
      }
    }
  }

  /** Why a walk stopped: the state after the entries before the failing one, and that entry's outcome. */
  lemma {:induction false} WalkStopsAtFirstError(fs: FS, cc: CopyContext, entries: seq<Path>)
    requires WalkSpec(fs, cc, entries).err.Some?
    ensures exists k :: (0 <= k < |entries|
      && WalkSpec(fs, cc, entries[..k]).err == None
      && WalkEntry(WalkSpec(fs, cc, entries[..k]).fs, cc, entries[k]) == WalkSpec(fs, cc, entries))
    decreases |entries|
  {
    var o := WalkEntry(fs, cc, entries[0]);
    if o.err.Some? {
      assert entries[..0] == [];
    } else {
      var tail := entries[1..];
      WalkStopsAtFirstError(o.fs, cc, tail);
      var k :| 0 <= k < |tail|
        && WalkSpec(o.fs, cc, tail[..k]).err == None
        && WalkEntry(WalkSpec(o.fs, cc, tail[..k]).fs, cc, tail[k]) == WalkSpec(o.fs, cc, tail);
      assert entries[..k + 1][0] == entries[0] && entries[..k + 1][1..] == tail[..k];
      assert entries[k + 1] == tail[k];
    }
  }

  /** A walk over entries that all exist and are all ignored changes nothing. */
  lemma {:induction false} WalkAllIgnored(fs: FS, cc: CopyContext, entries: seq<Path>)
    requires forall e :: e in entries ==> Get(fs, e).Some? && Ignored(cc, e)
    ensures WalkSpec(fs, cc, entries) == Outcome(fs, None)
    decreases |entries|
  {
    if entries != [] {
      assert entries[0] in entries;
      WalkAllIgnored(fs, cc, entries[1..]);
    }
  }

  // ---------------------------------------------------------------------
  // Copy as a whole.

  /** A missing source: the stat error is returned and nothing changes. */
  lemma CopyMissingSource(fs: FS, source: Path, dest: Path, hardCopy: bool, ignore: seq<string>, rx: Regexp)
    requires Get(fs, source) == None
    ensures CopySpec(fs, source, dest, hardCopy, ignore, rx) == Outcome(fs, Some(Missing(fs, source)))
  {
  }

  /** For a file source the hard-copy flag makes no difference. */
  lemma HardCopyIrrelevantForFiles(fs: FS, source: Path, dest: Path, ignore: seq<string>, rx: Regexp)
    requires IsFileAt(fs, source)
    ensures CopySpec(fs, source, dest, true, ignore, rx) == CopySpec(fs, source, dest, false, ignore, rx)
  {
  }

  /**
   * A file source copied to another path that is not a directory and whose
   * way is not blocked by a file: the parent of dest becomes a directory and
   * dest holds the source's bytes and permission bits.
   */
  lemma CopyFileSource(fs: FS, source: Path, dest: Path, hardCopy: bool, ignore: seq<string>, rx: Regexp)
    requires WellFormed(fs) && IsFileAt(fs, source) && source != dest
    requires !IsDirAt(fs, dest) && !Blocked(fs, dest)
    ensures var r := CopySpec(fs, source, dest, hardCopy, ignore, rx);
      && r.err == None
      && IsDirAt(r.fs, DirOf(dest))
      && Get(r.fs, dest) == Get(fs, source)
  {
    var parent := DirOf(dest);
    assert dest != [];
    if Blocked(fs, parent) || IsFileAt(fs, parent) {
      BlockedBelow(fs, parent, dest);
      assert false;
    }
    MkdirAllSucceeds(fs, parent);
    MkdirAllEffect(fs, parent);
    var fs1 := MkdirAll(fs, parent).value;
    assert Get(fs1, dest) == Get(fs, dest) by {
      if Get(fs1, dest) != Get(fs, dest) {
        assert false;
      }
    }
    CopyFileEffect(fs1, source, dest);
  }

  /** Copying a file onto itself empties it: os.Create truncates it before it is read. */
  lemma CopyOntoItselfTruncates(fs: FS, source: Path, hardCopy: bool, ignore: seq<string>, rx: Regexp)
    requires WellFormed(fs) && IsFileAt(fs, source)
    ensures var r := CopySpec(fs, source, source, hardCopy, ignore, rx);
      r.err == None && Get(r.fs, source) == Some(File([], Get(fs, source).value.perm))
  {
    NotBlockedBelowDir(fs, source);
    CopyFileSource2(fs, source);
  }

  lemma CopyFileSource2(fs: FS, source: Path)
    requires WellFormed(fs) && IsFileAt(fs, source) && !Blocked(fs, source)
    ensures var parent := DirOf(source);
      && MkdirAll(fs, parent).Ok?
      && Get(MkdirAll(fs, parent).value, source) == Get(fs, source)
      && IsDirAt(MkdirAll(fs, parent).value, parent)
  {
    var parent := DirOf(source);
    assert source != [] && source in fs;
    assert ParentIsDir(fs, source);
    assert IsDirAt(fs, parent);
  }

  /** The steps before the walk leave the source subtree as it was when the roots do not overlap. */
  lemma PrepareKeepsSource(fs: FS, cc: CopyContext, hardCopy: bool)
    requires Disjoint(cc.source, cc.destination)
    requires MkdirAll(if hardCopy then Apply(fs, RemoveAll(fs, cc.destination)) else fs, cc.destination).Ok?
    ensures var fs1 := if hardCopy then Apply(fs, RemoveAll(fs, cc.destination)) else fs;
      var fs2 := MkdirAll(fs1, cc.destination).value;
      && (forall q :: cc.source <= q ==> Get(fs2, q) == Get(fs, q))
      && Subtree(fs2, cc.source) == Subtree(fs, cc.source)
  {
    var fs1 := if hardCopy then Apply(fs, RemoveAll(fs, cc.destination)) else fs;
    var fs2 := MkdirAll(fs1, cc.destination).value;
    MkdirAllEffect(fs1, cc.destination);
    forall q | cc.source <= q
      ensures Get(fs2, q) == Get(fs, q)
    {
      if cc.destination <= q {
        PrefixesComparable(cc.source, cc.destination, q);
      }
      if Get(fs2, q) != Get(fs1, q) {
        SourceNotOnDestinationPath(cc, q, cc.destination);
      }
    }
    forall q | q in Subtree(fs2, cc.source)
      ensures q in Subtree(fs, cc.source)
    {
      assert Get(fs2, q) == Get(fs, q);
    }
    forall q | q in Subtree(fs, cc.source)
      ensures q in Subtree(fs2, cc.source)
    {
      assert Get(fs2, q) == Get(fs, q);
    }
  }

  /**
   * A directory copy that returns nil, between roots that do not overlap,
   * leaves a directory for every directory and a copy for every file of the
   * source tree that no pattern ignores.
   */
  lemma CopyDirCopies(fs: FS, source: Path, dest: Path, hardCopy: bool, ignore: seq<string>, rx: Regexp)
    requires IsDirAt(fs, source) && Disjoint(source, dest)
    requires CopySpec(fs, source, dest, hardCopy, ignore, rx).err == None
    ensures var r := CopySpec(fs, source, dest, hardCopy, ignore, rx).fs;
      var cc := CopyContext(source, dest, ignore, rx);
      forall e :: e in Subtree(fs, source) && !Ignored(cc, e) ==>
        && (IsFileAt(fs, e) ==> Get(r, Destination(cc, e)) == Get(fs, e))
        && (IsDirAt(fs, e) ==> IsDirAt(r, Destination(cc, e)))
  {
    var cc := CopyContext(source, dest, ignore, rx);
    var fs1 := if hardCopy then Apply(fs, RemoveAll(fs, dest)) else fs;
    var fs2 := MkdirAll(fs1, dest).value;
    PrepareKeepsSource(fs, cc, hardCopy);
    var entries := Listing(fs2, source);
    forall i, j | 0 <= i < j < |entries|
      ensures entries[i] != entries[j]
    {
      IncreasingDistinct(entries, i, j);
    }
    WalkCopies(fs2, cc, entries);
  }

  /**
   * After a hard copy of a directory between roots that do not overlap, the
   * destination holds only what the walk put there: every entry below it
   * lies on the way to the destination of a source entry no pattern ignores.
   */
  lemma HardCopyHoldsOnlyCopies(fs: FS, source: Path, dest: Path, ignore: seq<string>, rx: Regexp)
    requires WellFormed(fs) && IsDirAt(fs, source) && Disjoint(source, dest)
    ensures var r := CopySpec(fs, source, dest, true, ignore, rx).fs;
      var cc := CopyContext(source, dest, ignore, rx);
      forall q :: dest < q && Get(r, q).Some? ==>
        exists e :: e in Subtree(fs, source) && !Ignored(cc, e) && q <= Destination(cc, e)
  {
    var cc := CopyContext(source, dest, ignore, rx);
    var r := CopySpec(fs, source, dest, true, ignore, rx).fs;
    var fs1 := Apply(fs, RemoveAll(fs, dest));
    forall q | dest < q
      ensures Get(fs1, q) == None
    {
      if RemoveAll(fs, dest).Ok? {
        RemoveAllGet(fs, dest, q);
      } else {
        var i :| 0 < i < |dest| && IsFileAt(fs, dest[..i]);
        NothingBelowNonDir(fs, dest[..i], q);
      }
    }
    if MkdirAll(fs1, dest).Ok? {
      var fs2 := MkdirAll(fs1, dest).value;
      MkdirAllEffect(fs1, dest);
      PrepareKeepsSource(fs, cc, true);
      var entries := Listing(fs2, source);
      WalkChanges(fs2, cc, entries);
      forall q | dest < q && Get(r, q).Some?
        ensures exists e :: e in Subtree(fs, source) && !Ignored(cc, e) && q <= Destination(cc, e)
      {
        assert Get(fs2, q) == None;
        var e :| e in entries && !Ignored(cc, e) && q <= Destination(cc, e);
        assert e in Subtree(fs2, source);
      }
    }
  }

  /**
   * Without hard copy nothing is deleted: every entry that existed still
   * exists, and it is unchanged unless it is the destination of a source
   * entry no pattern ignores (a counterpart, overwritten).
   */
  lemma SoftCopyKeeps(fs: FS, source: Path, dest: Path, ignore: seq<string>, rx: Regexp)
    requires IsDirAt(fs, source) && Disjoint(source, dest)
    ensures var r := CopySpec(fs, source, dest, false, ignore, rx).fs;
      var cc := CopyContext(source, dest, ignore, rx);
      forall q :: Get(fs, q).Some? ==>
        && Get(r, q).Some?
        && (Get(r, q) == Get(fs, q)
            || exists e :: e in Subtree(fs, source) && !Ignored(cc, e) && q == Destination(cc, e))
  {
    var cc := CopyContext(source, dest, ignore, rx);
    var r := CopySpec(fs, source, dest, false, ignore, rx).fs;
    if MkdirAll(fs, dest).Ok? {
      var fs2 := MkdirAll(fs, dest).value;
      MkdirAllEffect(fs, dest);
      PrepareKeepsSource(fs, cc, false);
      var entries := Listing(fs2, source);
      WalkChanges(fs2, cc, entries);
      forall q | Get(fs, q).Some? && Get(r, q) != Get(fs, q)
        ensures Get(r, q).Some?
        ensures exists e :: e in Subtree(fs, source) && !Ignored(cc, e) && q == Destination(cc, e)
      {
        var e :| e in entries && Explains(cc, e, fs2, r, q);
        assert e in Subtree(fs2, source);
      }
    }
  }

  /**
   * An ignore pattern that does not compile skips every entry, so a
   * directory copy only creates the destination directory.
   */
  lemma UncompilablePatternCopiesNothing(fs: FS, source: Path, dest: Path, ignore: seq<string>, rx: Regexp)
    requires WellFormed(fs) && IsDirAt(fs, source)
    requires exists k :: 0 <= k < |ignore| && !rx.compiles(ignore[k])
    ensures CopySpec(fs, source, dest, false, ignore, rx) == Done(fs, MkdirAll(fs, dest))
  {
    var cc := CopyContext(source, dest, ignore, rx);
    if MkdirAll(fs, dest).Ok? {
      var fs2 := MkdirAll(fs, dest).value;
      MkdirAllEffect(fs, dest);
      var entries := Listing(fs2, source);
      forall e | e in entries
        ensures Get(fs2, e).Some? && Ignored(cc, e)
      {
        assert e in Subtree(fs2, source);
      }
      WalkAllIgnored(fs2, cc, entries);
    }
  }

  /**
   * A copy touches nothing beside its destination: every entry it changes
   * lies at or below the destination, or on the way to it.
   */
  lemma CopyConfined(fs: FS, source: Path, dest: Path, hardCopy: bool, ignore: seq<string>, rx: Regexp)
    ensures var r := CopySpec(fs, source, dest, hardCopy, ignore, rx).fs;
      forall q :: Get(r, q) != Get(fs, q) ==> q <= dest || dest <= q
  {
    match Stat(fs, source)
    case Err(_) =>
    case Ok(Dir) => CopyDirConfined(fs, source, dest, hardCopy, ignore, rx);
    case Ok(File(_, _)) => CopyFileConfined(fs, source, dest, hardCopy, ignore, rx);
  }

  lemma CopyDirConfined(fs: FS, source: Path, dest: Path, hardCopy: bool, ignore: seq<string>, rx: Regexp)
    requires Stat(fs, source) == Ok(Dir)
    ensures var r := CopySpec(fs, source, dest, hardCopy, ignore, rx).fs;
      forall q :: Get(r, q) != Get(fs, q) ==> q <= dest || dest <= q
  {
    var cc := CopyContext(source, dest, ignore, rx);
    var r := CopySpec(fs, source, dest, hardCopy, ignore, rx).fs;
    var fs1 := if hardCopy then Apply(fs, RemoveAll(fs, dest)) else fs;
    forall q | Get(fs1, q) != Get(fs, q)
      ensures dest <= q
    {
      RemoveAllGet(fs, dest, q);
    }
    if MkdirAll(fs1, dest).Ok? {
      var fs2 := MkdirAll(fs1, dest).value;
      MkdirAllEffect(fs1, dest);
      var entries := Listing(fs2, source);
      WalkChanges(fs2, cc, entries);
      forall q | Get(r, q) != Get(fs, q)
        ensures q <= dest || dest <= q
      {
        if Get(r, q) != Get(fs2, q) {
          var e :| e in entries && Explains(cc, e, fs2, r, q);
          PrefixesComparable(q, dest, Destination(cc, e));
        }
      }
    }
  }

  lemma CopyFileConfined(fs: FS, source: Path, dest: Path, hardCopy: bool, ignore: seq<string>, rx: Regexp)
    requires Stat(fs, source).Ok? && Stat(fs, source).value.File?
    ensures var r := CopySpec(fs, source, dest, hardCopy, ignore, rx).fs;
      forall q :: Get(r, q) != Get(fs, q) ==> q <= dest || dest <= q
  {
    var r := CopySpec(fs, source, dest, hardCopy, ignore, rx).fs;
    if MkdirAll(fs, DirOf(dest)).Ok? {
      var fs1 := MkdirAll(fs, DirOf(dest)).value;
      MkdirAllEffect(fs, DirOf(dest));
      CopyFileEffect(fs1, source, dest);
      forall q | Get(r, q) != Get(fs, q)
        ensures q <= dest || dest <= q
      {
        if Get(fs1, q) != Get(fs, q) {
          assert DirOf(dest) <= dest;
        }
      }
    }
  }
}
