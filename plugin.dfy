/**
 * The plugin developer command: it builds a plugin with `go build`, copies
 * the plugin's files into <dest>/content/plugins/<id>, optionally runs
 * GoCMS, and on a watched change rebuilds, copies and restarts.
 */
module Plugin {
  import opened Wrappers
  import opened Fs
  import opened Config
  import opened Patterns
  import opened Models
  import opened PathText
  import opened Cli
  import Copy
  import Watcher
  import Os

  const DEFAULT_ENTRY := "main.go"

  /** The patterns every plugin watch ignores, before those given with --ignore. */
  const DEFAULT_IGNORE: seq<string> := ["vendor", ".git", "docs", ".idea", "___*", "node_modules"]

  /** time.Second * 5, in nanoseconds. */
  const CHANGE_TIMEOUT: int := 5_000_000_000

  /** os.FileMode(0755). */
  const EXECUTABLE: Perm := 0x1ED

  const MISSING_ARGUMENTS := "A source and destination directory must be specified."

  /** The command-line values the command reads; --copy values are taken as cleaned paths. */
  datatype Flags = Flags(entry: string, gocms: bool, run: bool, watch: bool, verbose: bool,
                         copy: seq<Path>, ignore: seq<string>)

  /** `go build`: it fails, or it writes the compiled binary to its output path as os.Create would. */
  datatype BuildOutcome = BuildFails | Compiled(binary: Bytes)

  // ---------------------------------------------------------------------
  // The files to copy.

  /** Where the plugin lives: Join(dest, "content", "plugins", id). */
  function PluginPath(destDir: Path, id: string): (p: Path)
    ensures destDir + [CONTENT_DIR, PLUGINS_DIR] <= p
  {
    destDir + [CONTENT_DIR, PLUGINS_DIR] + Clean(id)
  }

  /** The six interface values of a manifest, in the order load_interface_for_plugin visits them. */
  function InterfaceAssets(i: PluginInterface): seq<string>
  {
    [i.public, i.publicVendor, i.publicStyle, i.admin, i.adminVendor, i.adminStyle]
  }

  /** The six values, one after another. */
  lemma InterfaceAssetsInOrder(i: PluginInterface)
    ensures InterfaceAssets(i)
      == [] + [i.public] + [i.publicVendor] + [i.publicStyle] + [i.admin] + [i.adminVendor] + [i.adminStyle]
  {
  }

  /** Whether loadFileOrUrl treats a non-empty value as a file: url.ParseRequestURI rejects it. */
  predicate IsAssetFile(a: string, isRequestURI: string -> bool)
  {
    a != "" && !isRequestURI(a)
  }

  /** The files the interface values add, in order: each file value, below <src>/content. */
  function AssetFiles(srcDir: Path, assets: seq<string>, isRequestURI: string -> bool): (r: seq<Path>)
    ensures |r| <= |assets|
  {
    if assets == [] then []
    else
      var head := if IsAssetFile(assets[0], isRequestURI) then [srcDir + [CONTENT_DIR] + Clean(assets[0])] else [];
      head + AssetFiles(srcDir, assets[1..], isRequestURI)
  }

  /** Exactly the file values are loaded, each below <src>/content. */
  lemma {:induction false} AssetFilesMembers(srcDir: Path, assets: seq<string>, isRequestURI: string -> bool)
    ensures forall f :: (f in AssetFiles(srcDir, assets, isRequestURI)
      <==> exists a :: a in assets && IsAssetFile(a, isRequestURI) && f == srcDir + [CONTENT_DIR] + Clean(a))
    decreases |assets|
  {
    if assets != [] {
      AssetFilesMembers(srcDir, assets[1..], isRequestURI);
      assert forall a :: a in assets <==> a == assets[0] || a in assets[1..];
    }
  }

  lemma {:induction false} AssetFilesAppend(srcDir: Path, xs: seq<string>, ys: seq<string>, isRequestURI: string -> bool)
    ensures AssetFiles(srcDir, xs + ys, isRequestURI) == AssetFiles(srcDir, xs, isRequestURI) + AssetFiles(srcDir, ys, isRequestURI)
    decreases |xs|
  {
    if xs == [] {
      assert xs + ys == ys;
    } else {
      var head := if IsAssetFile(xs[0], isRequestURI) then [srcDir + [CONTENT_DIR] + Clean(xs[0])] else [];
      assert (xs + ys)[0] == xs[0];
      assert (xs + ys)[1..] == xs[1..] + ys;
      AssetFilesAppend(srcDir, xs[1..], ys, isRequestURI);
      calc {
        AssetFiles(srcDir, xs + ys, isRequestURI);
        head + AssetFiles(srcDir, xs[1..] + ys, isRequestURI);
        head + (AssetFiles(srcDir, xs[1..], isRequestURI) + AssetFiles(srcDir, ys, isRequestURI));
        (head + AssetFiles(srcDir, xs[1..], isRequestURI)) + AssetFiles(srcDir, ys, isRequestURI);
      }
    }
  }

  /**
   * filesToCopy as buildContextFromFlags leaves it: the manifest, the docs
   * if the manifest names them, the --copy values, then the interface files.
   */
  function FilesToCopy(srcDir: Path, manifest: PluginManifest, copy: seq<Path>, isRequestURI: string -> bool): seq<Path>
  {
    [srcDir + [PLUGIN_MANIFEST]]
      + (if manifest.services.docs != "" then [srcDir + Clean(manifest.services.docs)] else [])
      + copy
      + AssetFiles(srcDir, InterfaceAssets(manifest.interface), isRequestURI)
  }

  /**
   * The manifest comes first, and every file the command adds on its own
   * (all but the --copy values) lies in the source directory.
   */
  lemma FilesToCopyInSource(srcDir: Path, manifest: PluginManifest, copy: seq<Path>, isRequestURI: string -> bool)
    ensures var files := FilesToCopy(srcDir, manifest, copy, isRequestURI);
      && files[0] == srcDir + [PLUGIN_MANIFEST]
      && forall f :: f in files ==> f in copy || srcDir <= f
  {
    var files := FilesToCopy(srcDir, manifest, copy, isRequestURI);
    AssetFilesMembers(srcDir, InterfaceAssets(manifest.interface), isRequestURI);
    forall f | f in files && f !in copy
      ensures srcDir <= f
    {
      var assets := AssetFiles(srcDir, InterfaceAssets(manifest.interface), isRequestURI);
      if f in assets {
        var a :| a in InterfaceAssets(manifest.interface) && IsAssetFile(a, isRequestURI) && f == srcDir + [CONTENT_DIR] + Clean(a);
      }
    }
  }

  // ---------------------------------------------------------------------
  // Where a file goes.

  /**
   * copyPluginFiles's destination below the plugin directory, as written:
   * unless the file is a bare name or the source directory is ".", the
   * first occurrence of the printed source directory anywhere in the
   * printed file path is deleted, and Join cleans what is left.
   */
  function DestFileAsWritten(srcDir: Path, file: Path): Path
  {
    if |file| > 1 && srcDir != [] then Clean(Copy.ReplaceOnce(Render(file), Render(srcDir), "")) else file
  }

  /**
   * The destination below the plugin directory: the file's path with the
   * source directory taken off its front, for a file inside the source
   * directory that is not a bare name.
   */
  function DestFile(srcDir: Path, file: Path): (r: Path)
    ensures |file| > 1 && srcDir != [] && srcDir <= file ==> file == srcDir + r
    ensures !(|file| > 1 && srcDir != [] && srcDir <= file) ==> r == file
  {
    if |file| > 1 && srcDir != [] && srcDir <= file then file[|srcDir|..] else file
  }

  /** For every file inside the source directory the two agree. */
  lemma DestFileAgrees(srcDir: Path, file: Path)
    requires Names(file) && srcDir <= file
    ensures DestFileAsWritten(srcDir, file) == DestFile(srcDir, file)
  {
    if |file| > 1 && srcDir != [] {
      var rest := file[|srcDir|..];
      assert file == srcDir + rest;
      if rest == [] {
        assert file == srcDir;
        assert Render(srcDir) <= Render(file);
      } else {
        JoinNamesAppend(srcDir, rest);
        var s := Render(file);
        assert s == Render(srcDir) + "/" + Render(rest);
        assert Render(srcDir) <= s;
        assert s[|Render(srcDir)|..] == "/" + Render(rest);
        CleanRooted(Render(rest));
        assert Names(rest) by {
          forall i | 0 <= i < |rest|
            ensures IsName(rest[i])
          {
            assert rest[i] == file[|srcDir| + i];
          }
        }
        CleanRender(rest);
      }
    }
  }

  /**
   * A --copy value outside the source directory is mangled: with source
   * directory "a", "data/x" goes to "dta/x" below the plugin directory
   * instead of "data/x".
   */
  lemma DestFileMangled()
    ensures DestFileAsWritten(["a"], ["data", "x"]) == ["dta", "x"]
    ensures DestFile(["a"], ["data", "x"]) == ["data", "x"]
  {
    assert Render(["data", "x"]) == "data/x";
    assert Render(["a"]) == "a";
    FirstADropped();
    CleanOfDtaX();
  }

  /** Replacing the first "a" in "data/x" removes the one inside the first name. */
  lemma FirstADropped()
    ensures Copy.ReplaceOnce("data/x", "a", "") == "dta/x"
  {
    var s := "data/x";
    assert !Copy.OccursAt(s, "a", 0) by { assert s[0..1] == "d"; }
    assert Copy.OccursAt(s, "a", 1) by { assert s[1..2] == "a"; }
    assert Copy.IndexFrom(s, "a", 0) == 1;
    assert s[..1] + "" + s[2..] == "dta/x";
  }

  lemma CleanOfDtaX()
    ensures Clean("dta/x") == ["dta", "x"]
  {
    var t := "dta/x";
    assert t == "dta" + "/" + "x";
    NameEndOfJoin("dta", "x");
    assert t[..3] == "dta" && t[4..] == "x";
    assert NameEnd("x") == 1 by {
      assert "x"[1..] == "";
    }
    assert "x"[..1] == "x";
  }

  /** copyPluginFiles: each file in order is hard-copied to its place; the first missing file or failed copy ends the loop with its error. */
  function CopyFilesSpec(fs: FS, srcDir: Path, pluginPath: Path, files: seq<Path>, rx: Regexp): Outcome
    decreases |files|
  {
    if files == [] then Outcome(fs, None)
    else
      var file := files[0];
      match Stat(fs, file)
      case Err(NotExist(p)) => Outcome(fs, Some(NotExist(p)))
      case _ =>
        var o := Copy.CopySpec(fs, file, pluginPath + DestFile(srcDir, file), true, [], rx);
        if o.err.Some? then o else CopyFilesSpec(o.fs, srcDir, pluginPath, files[1..], rx)
  }

  /** Copying the plugin's files changes nothing outside the plugin directory but the directories leading to it. */
  lemma {:induction false} CopyFilesConfined(fs: FS, srcDir: Path, pluginPath: Path, files: seq<Path>, rx: Regexp)
    ensures var r := CopyFilesSpec(fs, srcDir, pluginPath, files, rx).fs;
      forall q :: Get(r, q) != Get(fs, q) ==> q <= pluginPath || pluginPath <= q
    decreases |files|
  {
    var file := if files == [] then [] else files[0];
    if files != [] && !(Stat(fs, file).Err? && Stat(fs, file).error.NotExist?) {
      var dest := pluginPath + DestFile(srcDir, file);
      var o := Copy.CopySpec(fs, file, dest, true, [], rx);
      Copy.CopyConfined(fs, file, dest, true, [], rx);
      var r := CopyFilesSpec(fs, srcDir, pluginPath, files, rx).fs;
      if o.err.None? {
        CopyFilesConfined(o.fs, srcDir, pluginPath, files[1..], rx);
        assert r == CopyFilesSpec(o.fs, srcDir, pluginPath, files[1..], rx).fs;
      } else {
        assert r == o.fs;
      }
      forall q | Get(r, q) != Get(fs, q)
        ensures q <= pluginPath || pluginPath <= q
      {
        if q <= dest {
          PrefixesComparable(q, pluginPath, dest);
        }
      }
    }
  }

  /** A missing file stops the loop: what was copied before it stays, nothing after it is copied. */
  lemma MissingFileStops(fs: FS, srcDir: Path, pluginPath: Path, files: seq<Path>, rx: Regexp)
    requires files != [] && Stat(fs, files[0]) == Err(NotExist(files[0]))
    ensures CopyFilesSpec(fs, srcDir, pluginPath, files, rx) == Outcome(fs, Some(NotExist(files[0])))
  {
  }

  // ---------------------------------------------------------------------
  // The build.

  /**
   * runBinaryBuildCommand: `go build -o <bin>`, which creates the missing
   * directories above its output as os.MkdirAll would before writing it,
   * then chmod 0755 of the binary.
   */
  function BuildSpec(fs: FS, bin: Path, build: BuildOutcome): Outcome
  {
    match build
    case BuildFails => Outcome(fs, Some(Failed("go build")))
    case Compiled(binary) =>
      match MkdirAll(fs, Copy.DirOf(bin))
      case Err(e) => Outcome(fs, Some(e))
      case Ok(fs0) =>
        match Create(fs0, bin, binary)
        case Err(e) => Outcome(fs0, Some(e))
        case Ok(fs1) => Done(fs1, Chmod(fs1, bin, EXECUTABLE))
  }

  /**
   * A build either leaves an executable binary at its output path, having
   * changed nothing else but the directories it created on the way to it,
   * or changes nothing.
   */
  lemma BuildAllOrNothing(fs: FS, bin: Path, build: BuildOutcome)
    requires WellFormed(fs)
    ensures var o := BuildSpec(fs, bin, build);
      && (o.err == None ==> build.Compiled? && Get(o.fs, bin) == Some(File(build.binary, EXECUTABLE)))
      && (o.err == None ==> forall q :: Get(o.fs, q) != Get(fs, q) ==>
            q == bin || (q < bin && Get(fs, q) == None && Get(o.fs, q) == Some(Dir)))
      && (o.err != None ==> o.fs == fs)
  {
    if build.Compiled? {
      var parent := Copy.DirOf(bin);
      if MkdirAll(fs, parent).Ok? {
        var fs0 := MkdirAll(fs, parent).value;
        MkdirAllEffect(fs, parent);
        if bin != [] {
          assert parent < bin;
          if IsDirAt(fs0, bin) {
            AncestorIsDirOfDir(fs, bin, parent);
            assert MkdirAll(fs, parent) == Ok(fs);
          }
        }
      }
    }
  }

  // ---------------------------------------------------------------------
  // The handler of watched changes, on a snapshot of its state.

  /** The fields the change handler reads and does not change. */
  datatype Settings = Settings(run: bool, srcDir: Path, destDir: Path, manifest: PluginManifest,
                               files: seq<Path>, ignore: seq<string>)

  /** What the change handler changes: the time-out map, the skip flag, the running instance and the tree. */
  datatype DevState = DevState(times: map<string, int>, skip: bool, running: bool, fs: FS)

  /** How the handler ended. */
  datatype Reaction = Dropped | Panicked | BuildFailed | Rebuilt(copyErr: Option<Error>)

  /** The paths the handler refuses outright. */
  predicate IsRootName(name: string)
  {
    name == "." || name == "/" || name == "./" || name == ""
  }

  /** A running instance exists exactly when run is set and the last build did not fail. */
  predicate Consistent(run: bool, st: DevState)
  {
    (run ==> (st.running <==> !st.skip)) && (!run ==> !st.running)
  }

  /** The time-out check: a change less than five seconds after the last accepted one for the same path. */
  predicate TooSoon(times: map<string, int>, name: string, now: int)
  {
    name in times && now - times[name] < CHANGE_TIMEOUT
  }

  /** onFileChangeHandler on a snapshot: the reaction and the state after it. */
  function OnChange(s: Settings, st: DevState, name: string, now: int, build: BuildOutcome, rx: Regexp): (Reaction, DevState)
  {
    if IsRootName(name) then (Dropped, st)
    else match Watcher.IgnoreCheck(s.ignore, rx, Clean(name))
      case BadPattern => (Panicked, st)
      case Matched => (Dropped, st)
      case NoMatch =>
        if TooSoon(st.times, name, now) then (Dropped, st)
        else Rebuild(s, st.(times := st.times[name := now]), build, rx)
  }

  /**
   * The handler past its filters: stop the instance unless a failed build
   * already did, build, and on success copy and restart.
   */
  function Rebuild(s: Settings, st: DevState, build: BuildOutcome, rx: Regexp): (Reaction, DevState)
  {
    var running := if s.run && !st.skip then false else st.running;
    var pluginPath := PluginPath(s.destDir, s.manifest.id);
    var b := BuildSpec(st.fs, pluginPath + Clean(s.manifest.services.bin), build);
    if b.err.Some? then (BuildFailed, DevState(st.times, true, running, b.fs))
    else
      var c := CopyFilesSpec(b.fs, s.srcDir, pluginPath, s.files, rx);
      (Rebuilt(c.err), DevState(st.times, false, if s.run then true else running, c.fs))
  }

  /** The handler keeps Consistent, and so it never closes the done channel of an instance it already stopped. */
  lemma OnChangeConsistent(s: Settings, st: DevState, name: string, now: int, build: BuildOutcome, rx: Regexp)
    requires Consistent(s.run, st)
    ensures Consistent(s.run, OnChange(s, st, name, now, build, rx).1)
    ensures s.run && !st.skip ==> st.running
  {
  }

  /** A dropped change leaves everything as it was, the time-out map included. */
  lemma DroppedChangesNothing(s: Settings, st: DevState, name: string, now: int, build: BuildOutcome, rx: Regexp)
    requires IsRootName(name) || Watcher.IgnoreCheck(s.ignore, rx, Clean(name)) == Watcher.Matched
      || (Watcher.IgnoreCheck(s.ignore, rx, Clean(name)) == Watcher.NoMatch && TooSoon(st.times, name, now))
    ensures OnChange(s, st, name, now, build, rx) == (Dropped, st)
  {
  }

  /**
   * An accepted change stamps its path with the current time, so a second
   * change to the same path within five seconds is dropped; one five seconds
   * or more later is accepted again.
   */
  lemma Debounce(s: Settings, st: DevState, name: string, now: int, later: int, build: BuildOutcome, build': BuildOutcome, rx: Regexp)
    requires !IsRootName(name) && Watcher.IgnoreCheck(s.ignore, rx, Clean(name)) == Watcher.NoMatch
    requires !TooSoon(st.times, name, now)
    ensures var st' := OnChange(s, st, name, now, build, rx).1;
      && st'.times == st.times[name := now]
      && (later < now + CHANGE_TIMEOUT ==> OnChange(s, st', name, later, build', rx) == (Dropped, st'))
      && (later >= now + CHANGE_TIMEOUT ==> OnChange(s, st', name, later, build', rx).0 != Dropped)
  {
  }

  /** A failed build: the skip flag is set, no instance runs, and nothing is copied. */
  lemma FailedBuildSkips(s: Settings, st: DevState, name: string, now: int, rx: Regexp)
    requires Consistent(s.run, st)
    requires !IsRootName(name) && Watcher.IgnoreCheck(s.ignore, rx, Clean(name)) == Watcher.NoMatch
    requires !TooSoon(st.times, name, now)
    ensures var (reaction, st') := OnChange(s, st, name, now, BuildFails, rx);
      reaction == BuildFailed && st'.skip && !st'.running && st'.fs == st.fs
  {
  }

  /**
   * A successful build clears the skip flag and restarts the instance when
   * run is set, whether or not the copy that follows it failed.
   */
  lemma BuiltRestarts(s: Settings, st: DevState, name: string, now: int, binary: Bytes, rx: Regexp)
    requires !IsRootName(name) && Watcher.IgnoreCheck(s.ignore, rx, Clean(name)) == Watcher.NoMatch
    requires !TooSoon(st.times, name, now)
    requires BuildSpec(st.fs, PluginPath(s.destDir, s.manifest.id) + Clean(s.manifest.services.bin), Compiled(binary)).err == None
    ensures var (reaction, st') := OnChange(s, st, name, now, Compiled(binary), rx);
      reaction.Rebuilt? && !st'.skip && (s.run ==> st'.running)
  {
  }

  /** The plugin's watch wiring: Write, Remove and Create reach the change handler; Chmod and Rename do nothing. */
  datatype PluginAction = IgnoreDestination | OnFileChange

  const PluginHandlers := Watcher.Handlers(IgnoreDestination, OnFileChange, OnFileChange, IgnoreDestination, OnFileChange)

  /** An event reaches the change handler exactly when it is not a ".DS_Store" and has the Write, Remove or Create bit. */
  lemma WiringReachesHandler(name: Path, op: Watcher.Op)
    ensures (var k := Watcher.Classify(name, op); k.Some? && Watcher.Handler(PluginHandlers, k.value) == OnFileChange)
      <==> (Watcher.Ext(name) != Watcher.DS_STORE
            && (Watcher.Has(op, Watcher.OnWrite) || Watcher.Has(op, Watcher.OnRemove) || Watcher.Has(op, Watcher.OnCreate)))
  {
  }

  // ---------------------------------------------------------------------
  // The plugin context.

  /** The watch context's ChangeTimeoutMap: when each path's last accepted change arrived, in nanoseconds. */
  class ChangeTimeouts {
    var times: map<string, int>

    constructor ()
      ensures times == map[]
    {
      times := map[];
    }
  }

  class PluginContext {
    var hardCopy: bool
    var watch: bool
    var buildEntry: string
    var filesToCopy: seq<Path>
    var run: bool
    var devMode: bool
    var pluginPath: Path
    var srcDir: Path
    var destDir: Path
    var verbose: bool
    var manifest: PluginManifest
    var ignorePath: seq<string>
    var skipRunDueToFailedCompile: bool
    /** A GoCMS instance was started by runGoCMS and its done channel is still open. */
    var running: bool

    ghost predicate Valid()
      reads this
    {
      (run ==> (running <==> !skipRunDueToFailedCompile)) && (!run ==> !running)
    }

    function GetSettings(): Settings
      reads this
    {
      Settings(run, srcDir, destDir, manifest, filesToCopy, ignorePath)
    }

    /** The struct literal of buildContextFromFlags. */
    constructor (srcDir: Path, destDir: Path, manifest: PluginManifest)
      ensures this.srcDir == srcDir && this.destDir == destDir && this.manifest == manifest
      ensures buildEntry == DEFAULT_ENTRY && !devMode && !run && !watch && !verbose && !hardCopy
      ensures filesToCopy == [] && ignorePath == [] && pluginPath == []
      ensures !skipRunDueToFailedCompile && !running
    {
      this.srcDir := srcDir;
      this.destDir := destDir;
      this.manifest := manifest;
      buildEntry := DEFAULT_ENTRY;
      hardCopy, watch, run, devMode, verbose := false, false, false, false, false;
      filesToCopy, ignorePath, pluginPath := [], [], [];
      skipRunDueToFailedCompile, running := false, false;
    }

    method LoadFileOrUrl(path: string, isRequestURI: string -> bool)
      modifies this`filesToCopy
      ensures filesToCopy == old(filesToCopy) + if !isRequestURI(path) then [srcDir + [CONTENT_DIR] + Clean(path)] else []
    {
      if !isRequestURI(path) {
        filesToCopy := filesToCopy + [srcDir + [CONTENT_DIR] + Clean(path)];
      }
    }

    method LoadInterfaceForPlugin(isRequestURI: string -> bool)
      modifies this`filesToCopy
      ensures filesToCopy == old(filesToCopy) + AssetFiles(srcDir, InterfaceAssets(manifest.interface), isRequestURI)
    {
      var i := manifest.interface;
      ghost var before, done := filesToCopy, [];
      assert AssetFiles(srcDir, done, isRequestURI) == [];
      LoadAsset(i.public, isRequestURI);
      LoadNext(before, done, i.public, isRequestURI);
      done := done + [i.public];
      LoadAsset(i.publicVendor, isRequestURI);
      LoadNext(before, done, i.publicVendor, isRequestURI);
      done := done + [i.publicVendor];
      LoadAsset(i.publicStyle, isRequestURI);
      LoadNext(before, done, i.publicStyle, isRequestURI);
      done := done + [i.publicStyle];
      LoadAsset(i.admin, isRequestURI);
      LoadNext(before, done, i.admin, isRequestURI);
      done := done + [i.admin];
      LoadAsset(i.adminVendor, isRequestURI);
      LoadNext(before, done, i.adminVendor, isRequestURI);
      done := done + [i.adminVendor];
      LoadAsset(i.adminStyle, isRequestURI);
      LoadNext(before, done, i.adminStyle, isRequestURI);
      done := done + [i.adminStyle];
      InterfaceAssetsInOrder(i);
    }

    /** The bookkeeping between two steps of LoadInterfaceForPlugin: `done` were loaded, then `a`. */
    ghost method LoadNext(before: seq<Path>, done: seq<string>, a: string, isRequestURI: string -> bool)
      requires filesToCopy == before + AssetFiles(srcDir, done, isRequestURI) + AssetFiles(srcDir, [a], isRequestURI)
      ensures filesToCopy == before + AssetFiles(srcDir, done + [a], isRequestURI)
    {
      AssetFilesAppend(srcDir, done, [a], isRequestURI);
    }

    /** One of the six `if value != "" { loadFileOrUrl(value) }` steps. */
    method LoadAsset(a: string, isRequestURI: string -> bool)
      modifies this`filesToCopy
      ensures filesToCopy == old(filesToCopy) + AssetFiles(srcDir, [a], isRequestURI)
    {
      if a != "" {
        LoadFileOrUrl(a, isRequestURI);
      }
    }

    /** The flag part of buildContextFromFlags, on a context fresh from the struct literal. */
    method ApplyFlags(flags: Flags, isRequestURI: string -> bool)
      requires buildEntry == DEFAULT_ENTRY && filesToCopy == [] && ignorePath == []
      modifies this`buildEntry, this`devMode, this`run, this`watch, this`verbose, this`filesToCopy, this`ignorePath
      ensures buildEntry == (if flags.entry != "" then flags.entry else DEFAULT_ENTRY)
      ensures devMode == flags.gocms && run == flags.run && watch == flags.watch && verbose == flags.verbose
      ensures filesToCopy == FilesToCopy(srcDir, manifest, flags.copy, isRequestURI)
      ensures ignorePath == DEFAULT_IGNORE + flags.ignore
    {
      // Each flag only ever sets its field, whose default is the flag's own default.
      if flags.entry != "" {
        buildEntry := flags.entry;
      }
      devMode, run, watch, verbose := flags.gocms, flags.run, flags.watch, flags.verbose;
      CollectFiles(flags.copy, isRequestURI);
      ignorePath := ignorePath + DEFAULT_IGNORE + flags.ignore;
    }

    /** The copy list: the manifest, the docs if named, the --copy values, then the interface files. */
    method CollectFiles(copy: seq<Path>, isRequestURI: string -> bool)
      requires filesToCopy == []
      modifies this`filesToCopy
      ensures filesToCopy == FilesToCopy(srcDir, manifest, copy, isRequestURI)
    {
      filesToCopy := filesToCopy + [srcDir + [PLUGIN_MANIFEST]];
      if manifest.services.docs != "" {
        filesToCopy := filesToCopy + [srcDir + Clean(manifest.services.docs)];
      }
      filesToCopy := filesToCopy + copy;
      LoadInterfaceForPlugin(isRequestURI);
    }

    /**
     * startFileWatcher's watch context: the source directory, the ignore
     * patterns, and the plugin's handlers; nothing is mirrored.
     */
    function FileWatcher(): Watcher.WatchContext<PluginAction>
      reads this
    {
      Watcher.WatchContext(srcDir, [], ignorePath, PluginHandlers)
    }

    method GetBinaryBuildCommand()
      modifies this`pluginPath
      ensures pluginPath == PluginPath(destDir, manifest.id)
    {
      pluginPath := destDir + [CONTENT_DIR, PLUGINS_DIR] + Clean(manifest.id);
    }

    method RunBinaryBuildCommand(fs: Os.FileSystem, build: BuildOutcome) returns (err: Option<Error>)
      requires fs.Valid()
      modifies fs
      ensures fs.Valid()
      ensures Outcome(fs.nodes, err) == BuildSpec(old(fs.nodes), pluginPath + Clean(manifest.services.bin), build)
    {
      var fullBinPath := pluginPath + Clean(manifest.services.bin);
      if build.BuildFails? {
        return Some(Failed("go build"));
      }
      err := fs.MkdirAll(Copy.DirOf(fullBinPath));
      if err.Some? {
        return;
      }
      err := fs.Create(fullBinPath, build.binary);
      if err.Some? {
        return;
      }
      err := fs.Chmod(fullBinPath, EXECUTABLE);
    }

    method CopyPluginFiles(fs: Os.FileSystem, rx: Regexp) returns (err: Option<Error>)
      requires fs.Valid()
      modifies fs
      ensures fs.Valid()
      ensures Outcome(fs.nodes, err) == CopyFilesSpec(old(fs.nodes), srcDir, pluginPath, filesToCopy, rx)
    {
      var k := 0;
      while k < |filesToCopy|
        invariant 0 <= k <= |filesToCopy| && fs.Valid()
        invariant CopyFilesSpec(old(fs.nodes), srcDir, pluginPath, filesToCopy, rx)
          == CopyFilesSpec(fs.nodes, srcDir, pluginPath, filesToCopy[k..], rx)
      {
        var file := filesToCopy[k];
        assert filesToCopy[k..][0] == file && filesToCopy[k..][1..] == filesToCopy[k + 1..];
        var info := fs.Stat(file);
        if info.Err? && info.error.NotExist? {
          return Some(info.error);
        }
        var destFile := if |file| > 1 && srcDir != [] && srcDir <= file then file[|srcDir|..] else file;
        err := Copy.Copy(fs, file, pluginPath + destFile, true, [], rx);
        if err.Some? {
          return;
        }
        k := k + 1;
      }
      return None;
    }

    method RunGoCMS()
      modifies this`running
      ensures running
    {
      running := true;
    }

    /** onFileChangeHandler for one change reported at time `now`. */
    method OnFileChangeHandler(c: ChangeTimeouts, fs: Os.FileSystem, name: string, now: int, build: BuildOutcome, rx: Regexp)
      returns (reaction: Reaction)
      requires fs.Valid()
      modifies this`skipRunDueToFailedCompile, this`running, this`pluginPath, c, fs
      ensures fs.Valid()
      ensures (reaction, DevState(c.times, skipRunDueToFailedCompile, running, fs.nodes))
        == OnChange(GetSettings(), old(DevState(c.times, skipRunDueToFailedCompile, running, fs.nodes)), name, now, build, rx)
      ensures pluginPath == if reaction.Dropped? || reaction.Panicked? then old(pluginPath) else PluginPath(destDir, manifest.id)
    {
      if name == "." || name == "/" || name == "./" || name == "" {
        return Dropped;
      }
      var m := Watcher.CheckIgnorePaths(ignorePath, rx, Clean(name));
      if m == Watcher.BadPattern {
        return Panicked;
      }
      if m == Watcher.Matched {
        return Dropped;
      }
      if name in c.times && now - c.times[name] < CHANGE_TIMEOUT {
        return Dropped;
      }
      c.times := c.times[name := now];
      reaction := RebuildHandler(c, fs, build, rx);
    }

    /** The part of onFileChangeHandler after the time-out map is stamped. */
    method RebuildHandler(c: ChangeTimeouts, fs: Os.FileSystem, build: BuildOutcome, rx: Regexp) returns (reaction: Reaction)
      requires fs.Valid()
      modifies this`skipRunDueToFailedCompile, this`running, this`pluginPath, fs
      ensures fs.Valid()
      ensures (reaction, DevState(c.times, skipRunDueToFailedCompile, running, fs.nodes))
        == Rebuild(GetSettings(), old(DevState(c.times, skipRunDueToFailedCompile, running, fs.nodes)), build, rx)
      ensures pluginPath == PluginPath(destDir, manifest.id)
    {
      if run && !skipRunDueToFailedCompile {
        running := false;
      }
      GetBinaryBuildCommand();
      var err := RunBinaryBuildCommand(fs, build);
      if err.Some? {
        skipRunDueToFailedCompile := true;
        return BuildFailed;
      }
      var copyErr := CopyPluginFiles(fs, rx);
      skipRunDueToFailedCompile := false;
      if run {
        RunGoCMS();
      }
      return Rebuilt(copyErr);
    }
  }

  /** buildContextFromFlags: both directories are required before anything else; the manifest is read from <src>/manifest.json. */
  method BuildContextFromFlags(args: seq<string>, flags: Flags, parseManifest: Path -> Result<PluginManifest, Error>,
                               isRequestURI: string -> bool)
    returns (pctx: PluginContext?, err: Option<Error>)
    ensures Arg(args, 0) == "" || Arg(args, 1) == "" ==> err == Some(Failed(MISSING_ARGUMENTS))
    ensures Arg(args, 0) != "" && Arg(args, 1) != "" && parseManifest(Clean(Arg(args, 0)) + [PLUGIN_MANIFEST]).Err?
      ==> err == Some(parseManifest(Clean(Arg(args, 0)) + [PLUGIN_MANIFEST]).error)
    ensures err == None <==> Arg(args, 0) != "" && Arg(args, 1) != "" && parseManifest(Clean(Arg(args, 0)) + [PLUGIN_MANIFEST]).Ok?
    ensures err == None ==> pctx != null && fresh(pctx)
    ensures err == None ==> (pctx != null
      && pctx.srcDir == Clean(Arg(args, 0)) && pctx.destDir == Clean(Arg(args, 1))
      && pctx.manifest == parseManifest(Clean(Arg(args, 0)) + [PLUGIN_MANIFEST]).value)
    ensures err == None ==> (pctx != null
      && pctx.buildEntry == (if flags.entry != "" then flags.entry else DEFAULT_ENTRY)
      && pctx.devMode == flags.gocms && pctx.run == flags.run && pctx.watch == flags.watch && pctx.verbose == flags.verbose
      && !pctx.hardCopy && !pctx.skipRunDueToFailedCompile && !pctx.running)
    ensures err == None ==> (pctx != null
      && pctx.filesToCopy == FilesToCopy(pctx.srcDir, pctx.manifest, flags.copy, isRequestURI)
      && pctx.ignorePath == DEFAULT_IGNORE + flags.ignore)
  {
    var src := Arg(args, 0);
    var dest := Arg(args, 1);
    if src == "" || dest == "" {
      return null, Some(Failed(MISSING_ARGUMENTS));
    }
    var srcDir := Clean(src);
    var destDir := Clean(dest);
    var manifest := parseManifest(srcDir + [PLUGIN_MANIFEST]);
    if manifest.Err? {
      return null, Some(manifest.error);
    }
    pctx := new PluginContext(srcDir, destDir, manifest.value);
    pctx.ApplyFlags(flags, isRequestURI);
    return pctx, None;
  }

  /**
   * cmd_copy_plugin up to the point where it starts waiting: build context,
   * build, copy (its error is dropped), start GoCMS when run is set, and
   * hand back the watch context when watch is set.
   * `go generate` only prints its failure and is left out.
   */
  method CmdCopyPlugin(fs: Os.FileSystem, args: seq<string>, flags: Flags, parseManifest: Path -> Result<PluginManifest, Error>,
                       isRequestURI: string -> bool, build: BuildOutcome, rx: Regexp)
    returns (pctx: PluginContext?, err: Option<Error>, watch: Option<Watcher.WatchContext<PluginAction>>)
    requires fs.Valid()
    modifies fs
    ensures fs.Valid()
    ensures err == None ==> pctx != null && pctx.Valid() && pctx.running == flags.run
    ensures err == None ==> pctx != null && pctx.pluginPath == PluginPath(pctx.destDir, pctx.manifest.id)
    ensures err == None ==> (pctx != null
      && var b := BuildSpec(old(fs.nodes), pctx.pluginPath + Clean(pctx.manifest.services.bin), build);
         b.err == None && fs.nodes == CopyFilesSpec(b.fs, pctx.srcDir, pctx.pluginPath, pctx.filesToCopy, rx).fs)
    ensures err != None ==> fs.nodes == old(fs.nodes) && watch == None
    ensures err == None ==> (pctx != null && watch == if flags.watch then Some(pctx.FileWatcher()) else None)
  {
    watch := None;
    pctx, err := BuildContextFromFlags(args, flags, parseManifest, isRequestURI);
    if err.Some? {
      return;
    }
    pctx.GetBinaryBuildCommand();
    err := pctx.RunBinaryBuildCommand(fs, build);
    if err.Some? {
      BuildAllOrNothing(old(fs.nodes), pctx.pluginPath + Clean(pctx.manifest.services.bin), build);
      return;
    }
    var _ := pctx.CopyPluginFiles(fs, rx);
    if pctx.run {
      pctx.RunGoCMS();
    }
    if pctx.watch {
      watch := Some(pctx.FileWatcher());
    }
  }
}
