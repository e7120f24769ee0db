/**
 * The file watcher: an initial walk registers the directories below a source
 * base, and each reported event runs at most one handler, chosen from the
 * event's op bitmask. The carbon-copy handlers mirror the source tree below a
 * destination base.
 */
module Watcher {
  import opened Wrappers
  import opened Fs
  import opened Patterns
  import opened WalkOrder
  import Copy
  import Os

  // ---------------------------------------------------------------------
  // Events.

  /** The fsnotify op bitmask. */
  type Op = bv32

  const CREATE: Op := 1
  const WRITE: Op := 2
  const REMOVE: Op := 4
  const RENAME: Op := 8
  const CHMOD: Op := 16

  /** The five handler slots of a watch context. */
  datatype Kind = OnWrite | OnRemove | OnCreate | OnRename | OnChmod

  /** The op bit that selects each handler. */
  function Bit(k: Kind): Op
  {
    match k
    case OnWrite => WRITE
    case OnRemove => REMOVE
    case OnCreate => CREATE
    case OnRename => RENAME
    case OnChmod => CHMOD
  }

  /** The position of a handler in the dispatch chain: lower is tried first. */
  function Rank(k: Kind): nat
  {
    match k
    case OnWrite => 0
    case OnRemove => 1
    case OnCreate => 2
    case OnRename => 3
    case OnChmod => 4
  }

  predicate Has(op: Op, k: Kind)
  {
    op & Bit(k) == Bit(k)
  }

  /**
   * filepath.Ext of one name: the suffix from the last '.' on, or "" when the
   * name has no '.'.
   */
  function ExtOf(name: string): (r: string)
    ensures r == [] ==> '.' !in name
    ensures r != [] ==> |r| <= |name| && r == name[|name| - |r|..] && r[0] == '.' && '.' !in r[1..]
  {
    if name == [] then []
    else if name[|name| - 1] == '.' then "."
    else
      var e := ExtOf(name[..|name| - 1]);
      if e == [] then [] else e + [name[|name| - 1]]
  }

  /** filepath.Ext of an event's path: the extension of its last element ("." for the working directory). */
  function Ext(p: Path): string
  {
    if p == [] then "." else ExtOf(p[|p| - 1])
  }

  const DS_STORE := ".DS_Store"

  /**
   * The event loop's dispatch: no handler for an extension ".DS_Store",
   * otherwise the first of Write, Remove, Create, Rename, Chmod whose bit is
   * set.
   */
  function Classify(name: Path, op: Op): (r: Option<Kind>)
    ensures Ext(name) == DS_STORE ==> r == None
    ensures r.Some? ==> Has(op, r.value) && forall k :: Rank(k) < Rank(r.value) ==> !Has(op, k)
    ensures r == None && Ext(name) != DS_STORE ==> forall k :: !Has(op, k)
  {
    if Ext(name) == DS_STORE then None
    else if Has(op, OnWrite) then Some(OnWrite)
    else if Has(op, OnRemove) then Some(OnRemove)
    else if Has(op, OnCreate) then Some(OnCreate)
    else if Has(op, OnRename) then Some(OnRename)
    else if Has(op, OnChmod) then Some(OnChmod)
    else None
  }

  /** Any name whose last element ends in ".DS_Store", a bare ".DS_Store" included, is filtered out. */
  lemma DSStoreFiltered(dir: Path, stem: string, op: Op)
    ensures Classify(dir + [stem + DS_STORE], op) == None
  {
    var p := dir + [stem + DS_STORE];
    assert p[|p| - 1] == stem + DS_STORE;
    DSStoreExt(stem);
  }

  lemma DSStoreExt(stem: string)
    ensures ExtOf(stem + DS_STORE) == DS_STORE
  {
    var tail := DS_STORE[1..];
    assert DS_STORE == "." + tail;
    assert stem + DS_STORE == stem + "." + tail;
    ExtOfSuffix(stem, tail);
  }

  lemma {:induction false} ExtOfSuffix(stem: string, tail: string)
    requires '.' !in tail
    ensures ExtOf(stem + "." + tail) == "." + tail
    decreases |tail|
  {
    var s := stem + "." + tail;
    if tail == [] {
      assert s[|s| - 1] == '.';
    } else {
      var t := tail[..|tail| - 1];
      var c := tail[|tail| - 1];
      assert tail == t + [c];
      assert '.' !in t;
      assert s == (stem + "." + t) + [c];
      assert s[..|s| - 1] == stem + "." + t;
      ExtOfSuffix(stem, t);
    }
  }

  /** The two dispatch properties in one: exactly one handler per event with a known bit, and none otherwise. */
  lemma DispatchAtMostOne(name: Path, op: Op, k: Kind)
    requires Ext(name) != DS_STORE && Has(op, k)
    ensures Classify(name, op).Some? && Rank(Classify(name, op).value) <= Rank(k)
  {
  }

  /** The handler functions of a watch context, one per kind. */
  datatype Handlers<A> = Handlers(chmod: A, removed: A, create: A, rename: A, write: A)

  function Handler<A>(h: Handlers<A>, k: Kind): A
  {
    match k
    case OnWrite => h.write
    case OnRemove => h.removed
    case OnCreate => h.create
    case OnRename => h.rename
    case OnChmod => h.chmod
  }

  /** WatchFileContext without its channels, verbosity and time-out map. */
  datatype WatchContext<A> = WatchContext(sourceBase: Path, destinationBase: Path, ignorePaths: seq<string>, handlers: Handlers<A>)

  // ---------------------------------------------------------------------
  // The mirrored path.

  /** A relative path as filepath.Rel writes it: `ups` times "..", then the names in `down`. */
  datatype RelPath = RelPath(ups: nat, down: Path)

  /** The length of the longest common prefix. */
  function CommonLength(a: Path, b: Path): (n: nat)
    ensures n <= |a| && n <= |b| && a[..n] == b[..n]
    ensures n < |a| && n < |b| ==> a[n] != b[n]
  {
    if a == [] || b == [] || a[0] != b[0] then 0
    else
      var m := CommonLength(a[1..], b[1..]);
      assert a[..m + 1] == [a[0]] + a[1..][..m];
      assert b[..m + 1] == [b[0]] + b[1..][..m];
      m + 1
  }

  /** filepath.Rel(base, targ) on cleaned paths from the same root. */
  function Rel(base: Path, targ: Path): RelPath
  {
    var n := CommonLength(base, targ);
    RelPath(|base| - n, targ[n..])
  }

  /**
   * filepath.Join(dir, rel): each ".." drops one element of dir. More ".."
   * than dir has elements would climb above the working directory, which
   * filepath.Join keeps as a leading ".." and a Path cannot spell; the model
   * stops at the working directory there. Event paths lie below the source
   * base, where Rel gives no "..".
   */
  function Join(dir: Path, rel: RelPath): Path
  {
    (if rel.ups <= |dir| then dir[..|dir| - rel.ups] else []) + rel.down
  }

  /** Join undoes Rel: the base joined with the path relative to it is the target again. */
  lemma JoinRel(base: Path, targ: Path)
    ensures Join(base, Rel(base, targ)) == targ
  {
    var n := CommonLength(base, targ);
    assert base[..n] + targ[n..] == targ[..n] + targ[n..] == targ;
  }

  /** The destination mirroring an event path: Join(DestinationBase, Rel(SourceBase, eventPath)). */
  function Mirror<A>(ctx: WatchContext<A>, eventPath: Path): Path
  {
    Join(ctx.destinationBase, Rel(ctx.sourceBase, eventPath))
  }

  /** Below the source base, the mirror is the destination base plus the same names. */
  lemma MirrorBelow<A>(ctx: WatchContext<A>, eventPath: Path)
    requires ctx.sourceBase <= eventPath
    ensures Mirror(ctx, eventPath) == ctx.destinationBase + eventPath[|ctx.sourceBase|..]
  {
    var n := CommonLength(ctx.sourceBase, eventPath);
  }

  /** Distinct paths below the source base have distinct mirrors, and an ancestor's mirror is the mirror's ancestor. */
  lemma MirrorTree<A>(ctx: WatchContext<A>, e1: Path, e2: Path)
    requires ctx.sourceBase <= e1 && ctx.sourceBase <= e2
    ensures Mirror(ctx, e1) == Mirror(ctx, e2) <==> e1 == e2
    ensures Mirror(ctx, e1) <= Mirror(ctx, e2) <==> e1 <= e2
  {
    var b := ctx.sourceBase;
    var d := ctx.destinationBase;
    MirrorBelow(ctx, e1);
    MirrorBelow(ctx, e2);
    assert e1 == b + e1[|b|..] && e2 == b + e2[|b|..];
    if d + e1[|b|..] <= d + e2[|b|..] {
      assert e1[|b|..] <= e2[|b|..] by {
        assert e1[|b|..] == (d + e1[|b|..])[|d|..];
        assert e2[|b|..][..|e1[|b|..]|] == (d + e2[|b|..])[|d|..][..|e1[|b|..]|];
      }
    }
    if e1 <= e2 {
      assert e1[|b|..] <= e2[|b|..];
    }
  }

  // ---------------------------------------------------------------------
  // The carbon-copy handlers.

  datatype CarbonAction = IgnoreDestination | DeleteDestination | CopySourceToDestination

  /** The handlers WatchFilesForCarbonCopy installs. */
  const CarbonCopy := Handlers(IgnoreDestination, DeleteDestination, CopySourceToDestination, DeleteDestination, CopySourceToDestination)

  /** The tree after one carbon-copy action; the handler's error is printed and dropped. */
  function ActionSpec(fs: FS, ctx: WatchContext<CarbonAction>, rx: Regexp, a: CarbonAction, eventPath: Path): FS
  {
    match a
    case IgnoreDestination => fs
    case DeleteDestination => Apply(fs, RemoveAll(fs, Mirror(ctx, eventPath)))
    case CopySourceToDestination => Copy.CopySpec(fs, eventPath, Mirror(ctx, eventPath), true, [], rx).fs
  }

  /** The tree after the event loop handled one event. */
  function EventSpec(fs: FS, ctx: WatchContext<CarbonAction>, rx: Regexp, name: Path, op: Op): FS
  {
    match Classify(name, op)
    case None => fs
    case Some(k) => ActionSpec(fs, ctx, rx, Handler(ctx.handlers, k), name)
  }

  method DeleteDestinationHandler(fs: Os.FileSystem, ctx: WatchContext<CarbonAction>, eventPath: Path)
    requires fs.Valid()
    modifies fs
    ensures fs.Valid()
    ensures fs.nodes == Apply(old(fs.nodes), RemoveAll(old(fs.nodes), Mirror(ctx, eventPath)))
  {
    var dest := Join(ctx.destinationBase, Rel(ctx.sourceBase, eventPath));
    var _ := fs.RemoveAll(dest);
  }

  method CopySourceToDestinationHandler(fs: Os.FileSystem, ctx: WatchContext<CarbonAction>, rx: Regexp, eventPath: Path)
    requires fs.Valid()
    modifies fs
    ensures fs.Valid()
    ensures fs.nodes == Copy.CopySpec(old(fs.nodes), eventPath, Mirror(ctx, eventPath), true, [], rx).fs
  {
    var dest := Join(ctx.destinationBase, Rel(ctx.sourceBase, eventPath));
    var _ := Copy.Copy(fs, eventPath, dest, true, [], rx);
  }

  /** One pass of the event loop's select on an event. */
  method HandleEvent(fs: Os.FileSystem, ctx: WatchContext<CarbonAction>, rx: Regexp, name: Path, op: Op)
    requires fs.Valid()
    modifies fs
    ensures fs.Valid()
    ensures fs.nodes == EventSpec(old(fs.nodes), ctx, rx, name, op)
  {
    var kind := Classify(name, op);
    if kind.None? {
      return;
    }
    match Handler(ctx.handlers, kind.value)
    case IgnoreDestination =>
    case DeleteDestination => DeleteDestinationHandler(fs, ctx, name);
    case CopySourceToDestination => CopySourceToDestinationHandler(fs, ctx, rx, name);
  }

  /**
   * A removed or renamed path: everything at and below its mirror is gone
   * and nothing else changes (unless the mirror is the working directory or
   * lies below a file, when RemoveAll fails and nothing changes).
   */
  lemma RemoveEventDeletesMirror(fs: FS, ctx: WatchContext<CarbonAction>, rx: Regexp, name: Path, op: Op)
    requires ctx.handlers == CarbonCopy
    requires Classify(name, op) in {Some(OnRemove), Some(OnRename)}
    requires Mirror(ctx, name) != [] && !Blocked(fs, Mirror(ctx, name))
    ensures var fs' := EventSpec(fs, ctx, rx, name, op);
      forall q :: Get(fs', q) == if Mirror(ctx, name) <= q then None else Get(fs, q)
  {
    var c := Classify(name, op);
    assert c == Some(OnRemove) || c == Some(OnRename);
    assert Handler(CarbonCopy, c.value) == DeleteDestination;
    var m := Mirror(ctx, name);
    var after := EventSpec(fs, ctx, rx, name, op);
    assert after == ActionSpec(fs, ctx, rx, DeleteDestination, name);
    forall q
      ensures Get(after, q) == if m <= q then None else Get(fs, q)
    {
      RemoveAllGet(fs, m, q);
    }
  }

  /**
   * A written or created file: its mirror is a file with the same bytes and
   * permission bits, when the mirror is another path, not a directory, and
   * not below a file.
   */
  lemma WriteEventCopiesFile(fs: FS, ctx: WatchContext<CarbonAction>, rx: Regexp, name: Path, op: Op)
    requires WellFormed(fs) && IsFileAt(fs, name)
    requires ctx.handlers == CarbonCopy
    requires Classify(name, op) in {Some(OnWrite), Some(OnCreate)}
    requires Mirror(ctx, name) != name && !IsDirAt(fs, Mirror(ctx, name)) && !Blocked(fs, Mirror(ctx, name))
    ensures Get(EventSpec(fs, ctx, rx, name, op), Mirror(ctx, name)) == Get(fs, name)
  {
    Copy.CopyFileSource(fs, name, Mirror(ctx, name), true, [], rx);
  }

  /** A chmod-only event, or an event with none of the five bits, leaves the tree as it was. */
  lemma ChmodChangesNothing(fs: FS, ctx: WatchContext<CarbonAction>, rx: Regexp, name: Path, op: Op)
    requires ctx.handlers == CarbonCopy
    requires !Has(op, OnWrite) && !Has(op, OnRemove) && !Has(op, OnCreate) && !Has(op, OnRename)
    ensures EventSpec(fs, ctx, rx, name, op) == fs
  {
    var c := Classify(name, op);
    assert c == None || c == Some(OnChmod);
  }

  // ---------------------------------------------------------------------
  // The initial walk.

  /** What the ignore loop finds for one path. */
  datatype Match = NoMatch | Matched | BadPattern

  /**
   * The patterns tried in order: a pattern that does not compile leaves a nil
   * regexp whose use panics; the first pattern that matches ends the loop.
   */
  function IgnoreCheck(ignore: seq<string>, rx: Regexp, p: Path): (r: Match)
    ensures r == NoMatch <==> forall k :: 0 <= k < |ignore| ==> rx.compiles(ignore[k]) && !rx.matches(ignore[k], p)
    ensures r == Matched ==> exists k :: 0 <= k < |ignore| && rx.compiles(ignore[k]) && rx.matches(ignore[k], p)
    ensures r == BadPattern ==> exists k :: 0 <= k < |ignore| && !rx.compiles(ignore[k])
  {
    if ignore == [] then NoMatch
    else if !rx.compiles(ignore[0]) then BadPattern
    else if rx.matches(ignore[0], p) then Matched
    else
      var r := IgnoreCheck(ignore[1..], rx, p);
      assert forall k :: 1 <= k < |ignore| ==> ignore[k] == ignore[1..][k - 1];
      r
  }

  /** The loop over IgnorePaths in the walk function. */
  method CheckIgnorePaths(ignore: seq<string>, rx: Regexp, p: Path) returns (r: Match)
    ensures r == IgnoreCheck(ignore, rx, p)
  {
    var k := 0;
    while k < |ignore|
      invariant 0 <= k <= |ignore|
      invariant IgnoreCheck(ignore, rx, p) == IgnoreCheck(ignore[k..], rx, p)
    {
      assert ignore[k..][1..] == ignore[k + 1..];
      if !rx.compiles(ignore[k]) {
        return BadPattern;
      }
      if rx.matches(ignore[k], p) {
        return Matched;
      }
      k := k + 1;
    }
    return NoMatch;
  }

  /** The result of the walk: the directories handed to watcher.Add, or a panic. */
  datatype Registration = Watching(dirs: set<Path>) | Panicked

  /** The walk reaches `e`: no directory between the base and `e` was pruned. */
  ghost predicate Reached(ignore: seq<string>, rx: Regexp, base: Path, e: Path)
  {
    base <= e && forall k :: |base| <= k < |e| ==> IgnoreCheck(ignore, rx, e[..k]) == NoMatch
  }

  /** The walk panics at `e`: a nil regexp is used, or a matched path has no FileInfo. */
  ghost predicate PanicsAt(fs: FS, ignore: seq<string>, rx: Regexp, e: Path)
  {
    var m := IgnoreCheck(ignore, rx, e);
    m == BadPattern || (m == Matched && Get(fs, e) == None)
  }

  /**
   * The registration filepath.Walk from SourceBase makes: a panic if a
   * reached path panics, and otherwise every reached directory that no
   * pattern matches.
   */
  ghost function WatchSpec(fs: FS, ignore: seq<string>, rx: Regexp, base: Path): (r: Registration)
    ensures r.Watching? ==> forall d :: d in r.dirs ==> IsDirAt(fs, d) && d in Subtree(fs, base)
  {
    if exists e :: e in Subtree(fs, base) && base <= e && Reached(ignore, rx, base, e) && PanicsAt(fs, ignore, rx, e) then
      Panicked
    else
      Watching(set d | d in Subtree(fs, base) && base <= d && IsDirAt(fs, d)
        && Reached(ignore, rx, base, d) && IgnoreCheck(ignore, rx, d) == NoMatch)
  }

  /** What the walk function does with one path. */
  datatype Verdict = Panic | SkipDir | Proceed(add: bool)

  /**
   * The walk function: a matched directory returns SkipDir and a matched
   * file nil; an unmatched directory is added to the watcher. A stat error
   * (only the base can be missing) is returned and ends a walk that has
   * nothing more to visit.
   */
  function WalkFn(fs: FS, ignore: seq<string>, rx: Regexp, e: Path): (v: Verdict)
    ensures v == Panic <==> PanicsAt(fs, ignore, rx, e)
    ensures v == SkipDir <==> IgnoreCheck(ignore, rx, e) == Matched && IsDirAt(fs, e)
    ensures v == Proceed(true) <==> IgnoreCheck(ignore, rx, e) == NoMatch && IsDirAt(fs, e)
  {
    match IgnoreCheck(ignore, rx, e)
    case BadPattern => Panic
    case Matched => if Get(fs, e) == None then Panic else if IsDirAt(fs, e) then SkipDir else Proceed(false)
    case NoMatch => Proceed(IsDirAt(fs, e))
  }

  method Visit(fs: FS, ignore: seq<string>, rx: Regexp, e: Path) returns (v: Verdict)
    ensures v == WalkFn(fs, ignore, rx, e)
  {
    var m := CheckIgnorePaths(ignore, rx, e);
    var info := Stat(fs, e);
    if m == BadPattern {
      return Panic;
    }
    if m == Matched {
      if info.Err? {
        return Panic;
      }
      return if info.value.Dir? then SkipDir else Proceed(false);
    }
    if info.Err? {
      return Proceed(false);
    }
    return Proceed(info.value.Dir?);
  }

  /** `p` was visited, matched as `m` says, and is a directory. */
  ghost predicate Kept(fs: FS, ignore: seq<string>, rx: Regexp, base: Path, p: Path, m: Match)
  {
    Reached(ignore, rx, base, p) && IgnoreCheck(ignore, rx, p) == m && IsDirAt(fs, p)
  }

  /** After the first `i` entries: no panic yet, and the pruned and watched directories among them. */
  ghost predicate WalkInv(fs: FS, ignore: seq<string>, rx: Regexp, base: Path, entries: seq<Path>, i: int,
                          pruned: set<Path>, watched: set<Path>)
  {
    && 0 <= i <= |entries|
    && (forall j :: 0 <= j < i && Reached(ignore, rx, base, entries[j]) ==> !PanicsAt(fs, ignore, rx, entries[j]))
    && (forall p :: p in pruned <==> p in entries[..i] && Kept(fs, ignore, rx, base, p, Matched))
    && (forall p :: p in watched <==> p in entries[..i] && Kept(fs, ignore, rx, base, p, NoMatch))
  }

  /** The walk function's verdicts, applied in visiting order. */
  method RegisterWatches(fs: FS, ignore: seq<string>, rx: Regexp, base: Path) returns (r: Registration)
    requires WellFormed(fs)
    ensures r == WatchSpec(fs, ignore, rx, base)
  {
    var entries := Listing(fs, base);
    var watched: set<Path> := {};
    var pruned: set<Path> := {};
    var i := 0;
    while i < |entries|
      invariant WalkInv(fs, ignore, rx, base, entries, i, pruned, watched)
    {
      var panicked;
      panicked, pruned, watched := WalkEntry(fs, ignore, rx, base, entries, i, pruned, watched);
      if panicked {
        return Panicked;
      }
      i := i + 1;
    }
    WalkDone(fs, ignore, rx, base, entries, pruned, watched);
    return Watching(watched);
  }

  /**
   * One callback of the walk: an entry below a pruned directory is never
   * visited; otherwise the walk function's verdict panics, prunes the entry
   * or adds it to the watcher.
   */
  method WalkEntry(fs: FS, ignore: seq<string>, rx: Regexp, base: Path, entries: seq<Path>, i: int,
                   pruned: set<Path>, watched: set<Path>)
    returns (panicked: bool, pruned': set<Path>, watched': set<Path>)
    requires WellFormed(fs) && entries == Listing(fs, base) && i < |entries|
    requires WalkInv(fs, ignore, rx, base, entries, i, pruned, watched)
    ensures panicked ==> WatchSpec(fs, ignore, rx, base) == Panicked
    ensures !panicked ==> WalkInv(fs, ignore, rx, base, entries, i + 1, pruned', watched')
  {
    var e := entries[i];
    ReachedIff(fs, ignore, rx, base, entries, i, pruned, watched);
    panicked, pruned', watched' := false, pruned, watched;
    if exists p :: p in pruned && p < e {
      // below a directory that returned SkipDir: the walk never calls back
      WalkStep(fs, ignore, rx, base, entries, i, pruned, watched, Proceed(false));
    } else {
      var v := Visit(fs, ignore, rx, e);
      if v == Panic {
        WalkPanics(fs, ignore, rx, base, entries, e);
        return true, pruned, watched;
      }
      WalkStep(fs, ignore, rx, base, entries, i, pruned, watched, v);
      if v == SkipDir {
        pruned' := pruned + {e};
      } else if v.add {
        watched' := watched + {e};
      }
    }
  }

  /** The invariant after one entry, given what the walk function decided for it (nothing, when not reached). */
  lemma WalkStep(fs: FS, ignore: seq<string>, rx: Regexp, base: Path, entries: seq<Path>, i: int,
                 pruned: set<Path>, watched: set<Path>, v: Verdict)
    requires WalkInv(fs, ignore, rx, base, entries, i, pruned, watched) && i < |entries|
    requires if Reached(ignore, rx, base, entries[i]) then v == WalkFn(fs, ignore, rx, entries[i]) else v == Proceed(false)
    requires v != Panic
    ensures WalkInv(fs, ignore, rx, base, entries, i + 1,
      if v == SkipDir then pruned + {entries[i]} else pruned,
      if v == Proceed(true) then watched + {entries[i]} else watched)
  {
    assert entries[..i + 1] == entries[..i] + [entries[i]];
  }

  lemma WalkPanics(fs: FS, ignore: seq<string>, rx: Regexp, base: Path, entries: seq<Path>, e: Path)
    requires entries == Listing(fs, base) && e in entries
    requires Reached(ignore, rx, base, e) && PanicsAt(fs, ignore, rx, e)
    ensures WatchSpec(fs, ignore, rx, base) == Panicked
  {
  }

  lemma WalkDone(fs: FS, ignore: seq<string>, rx: Regexp, base: Path, entries: seq<Path>,
                 pruned: set<Path>, watched: set<Path>)
    requires entries == Listing(fs, base)
    requires WalkInv(fs, ignore, rx, base, entries, |entries|, pruned, watched)
    ensures WatchSpec(fs, ignore, rx, base) == Watching(watched)
  {
    assert entries[..|entries|] == entries;
    forall e | e in Subtree(fs, base) && base <= e && Reached(ignore, rx, base, e)
      ensures !PanicsAt(fs, ignore, rx, e)
    {
      var j :| 0 <= j < |entries| && entries[j] == e;
    }
    var dirs := set d | d in Subtree(fs, base) && base <= d && IsDirAt(fs, d)
      && Reached(ignore, rx, base, d) && IgnoreCheck(ignore, rx, d) == NoMatch;
    forall d
      ensures d in watched <==> d in dirs
    {
      assert d in entries <==> d in Subtree(fs, base);
    }
    assert watched == dirs;
  }

  /**
   * In visiting order, `entries[i]` is reached exactly when no directory
   * already pruned lies above it.
   */
  lemma ReachedIff(fs: FS, ignore: seq<string>, rx: Regexp, base: Path, entries: seq<Path>, i: int,
                   pruned: set<Path>, watched: set<Path>)
    requires WellFormed(fs) && entries == Listing(fs, base) && i < |entries|
    requires WalkInv(fs, ignore, rx, base, entries, i, pruned, watched)
    ensures Reached(ignore, rx, base, entries[i]) <==> !exists p :: p in pruned && p < entries[i]
  {
    var e := entries[i];
    if p :| p in pruned && p < e {
      assert Kept(fs, ignore, rx, base, p, Matched);
      PrunedBlocks(ignore, rx, base, p, e);
    }
    if !Reached(ignore, rx, base, e) {
      StopIsPruned(fs, ignore, rx, base, entries, i, pruned, watched);
    }
  }

  /** Nothing below a reached directory that the patterns match is reached. */
  lemma PrunedBlocks(ignore: seq<string>, rx: Regexp, base: Path, p: Path, e: Path)
    requires Reached(ignore, rx, base, p) && IgnoreCheck(ignore, rx, p) == Matched && p < e
    ensures !Reached(ignore, rx, base, e)
  {
    assert e[..|p|] == p;
  }

  lemma StopIsPruned(fs: FS, ignore: seq<string>, rx: Regexp, base: Path, entries: seq<Path>, i: int,
                     pruned: set<Path>, watched: set<Path>)
    requires WellFormed(fs) && entries == Listing(fs, base) && i < |entries|
    requires WalkInv(fs, ignore, rx, base, entries, i, pruned, watched)
    requires !Reached(ignore, rx, base, entries[i])
    ensures exists p :: p in pruned && p < entries[i]
  {
    var e := entries[i];
    assert e in entries;
    var a := FirstStop(ignore, rx, base, e);
    var j := ListedBefore(fs, base, entries, i, a);
    assert Reached(ignore, rx, base, entries[j]);
    assert !PanicsAt(fs, ignore, rx, entries[j]);
    assert IgnoreCheck(ignore, rx, a) == Matched;
    assert a in entries[..i];
    assert Kept(fs, ignore, rx, base, a, Matched);
    assert a in pruned;
  }

  /** A directory between the base and a listed entry is itself a directory listed before it. */
  lemma ListedBefore(fs: FS, base: Path, entries: seq<Path>, i: int, a: Path) returns (j: int)
    requires WellFormed(fs) && entries == Listing(fs, base) && 0 <= i < |entries|
    requires base <= a < entries[i]
    ensures 0 <= j < i && entries[j] == a && IsDirAt(fs, a)
  {
    var e := entries[i];
    SubtreeClosed(fs, base, e, a);
    j :| 0 <= j < |entries| && entries[j] == a;
    ListingPreOrder(entries, j, i);
    if a != [] {
      assert e in fs;
      AncestorIsDir(fs, e, a);
    }
  }

  /** The first directory on the way from the base to `e` at which the walk stops. */
  lemma {:induction false} FirstStop(ignore: seq<string>, rx: Regexp, base: Path, e: Path) returns (a: Path)
    requires base <= e && !Reached(ignore, rx, base, e)
    ensures base <= a < e && Reached(ignore, rx, base, a) && IgnoreCheck(ignore, rx, a) != NoMatch
    decreases |e|
  {
    var k :| |base| <= k < |e| && IgnoreCheck(ignore, rx, e[..k]) != NoMatch;
    a := e[..k];
    if !Reached(ignore, rx, base, a) {
      a := FirstStop(ignore, rx, base, e[..k]);
      assert forall m :: 0 <= m <= k ==> e[..k][..m] == e[..m];
    }
  }

  /** A pruned directory takes its whole subtree with it: nothing at or below it is watched. */
  lemma PrunedSubtreeUnwatched(fs: FS, ignore: seq<string>, rx: Regexp, base: Path, d: Path)
    requires base <= d && IgnoreCheck(ignore, rx, d) != NoMatch
    requires WatchSpec(fs, ignore, rx, base).Watching?
    ensures forall q :: d <= q ==> q !in WatchSpec(fs, ignore, rx, base).dirs
  {
    forall q | d <= q
      ensures q !in WatchSpec(fs, ignore, rx, base).dirs
    {
      if d != q {
        assert q[..|d|] == d;
      }
    }
  }

  /**
   * With patterns that all compile and a base that exists, the walk does not
   * panic, and it watches the base itself unless a pattern matches it.
   */
  lemma WalkWatchesBase(fs: FS, ignore: seq<string>, rx: Regexp, base: Path)
    requires WellFormed(fs) && IsDirAt(fs, base)
    requires forall k :: 0 <= k < |ignore| ==> rx.compiles(ignore[k])
    ensures WatchSpec(fs, ignore, rx, base).Watching?
    ensures base in WatchSpec(fs, ignore, rx, base).dirs <==> IgnoreCheck(ignore, rx, base) == NoMatch
  {
    forall e | e in Subtree(fs, base) && base <= e
      ensures !PanicsAt(fs, ignore, rx, e)
    {
      if e != base {
        assert e in fs;
      }
    }
  }

  /** Without ignore patterns every directory below the base is watched. */
  lemma NoPatternsWatchAll(fs: FS, rx: Regexp, base: Path)
    requires WellFormed(fs)
    ensures WatchSpec(fs, [], rx, base) == Watching(set d | d in Subtree(fs, base) && IsDirAt(fs, d))
  {
    var s := set d | d in Subtree(fs, base) && IsDirAt(fs, d);
    forall d | d in s
      ensures d in WatchSpec(fs, [], rx, base).dirs
    {
      assert base <= d;
    }
  }
}
