/**
 * The theme developer command: it copies a theme's source directory into
 * <dest>/content/themes/<name>, optionally deleting what is there first,
 * and can then keep the two in step with a carbon-copy watch.
 */
module Theme {
  import opened Wrappers
  import opened Fs
  import opened Config
  import opened Patterns
  import opened PathText
  import opened Cli
  import Copy
  import Watcher
  import Os
  import WalkOrder

  /** Where a theme lives: Join(dest, "content", "themes", name). */
  function ThemeDir(dest: string, name: string): (p: Path)
    ensures Clean(dest) + [CONTENT_DIR, THEMES_DIR] <= p
  {
    Clean(dest) + [CONTENT_DIR, THEMES_DIR] + Clean(name)
  }

  /**
   * The source and theme directory cmd_copy_theme copies between: none
   * without arguments or without a name. An empty source or destination is
   * only reported, so the copy goes ahead from or into the working directory.
   */
  function Target(args: seq<string>, name: string): (r: Option<(Path, Path)>)
    ensures r.Some? <==> args != [] && name != ""
    ensures r.Some? ==> r.value.0 == Clean(Arg(args, 0)) && r.value.1 == ThemeDir(Arg(args, 1), name)
  {
    if args == [] || name == "" then None
    else Some((Clean(Arg(args, 0)), ThemeDir(Arg(args, 1), name)))
  }

  /**
   * With a source but no destination the theme is copied into
   * content/themes/<name> below the working directory; an empty source is
   * cleaned to the working directory, which is then the copy's source.
   */
  lemma EmptyArgumentStillCopies(src: string, name: string)
    requires name != ""
    ensures Target([src], name) == Some((Clean(src), [CONTENT_DIR, THEMES_DIR] + Clean(name)))
    ensures Target(["", ""], name) == Some(([], [CONTENT_DIR, THEMES_DIR] + Clean(name)))
  {
    assert Clean("") == [];
    assert ThemeDir("", name) == [CONTENT_DIR, THEMES_DIR] + Clean(name);
  }

  /** The carbon-copy watch WatchFilesForCarbonCopy starts, with no ignore patterns. */
  function CarbonWatch(source: Path, themeDir: Path): (w: Watcher.WatchContext<Watcher.CarbonAction>)
    ensures w.handlers == Watcher.CarbonCopy && w.ignorePaths == []
  {
    Watcher.WatchContext(source, themeDir, [], Watcher.CarbonCopy)
  }

  /** cmd_copy_theme: the tree after the copy, and the watch it starts (none after a failed copy). */
  function ThemeSpec(fs: FS, args: seq<string>, name: string, delete: bool, watch: bool, rx: Regexp)
    : (FS, Option<Watcher.WatchContext<Watcher.CarbonAction>>)
  {
    match Target(args, name)
    case None => (fs, None)
    case Some((source, themeDir)) =>
      var o := Copy.CopySpec(fs, source, themeDir, delete, [], rx);
      if o.err.Some? || !watch then (o.fs, None) else (o.fs, Some(CarbonWatch(source, themeDir)))
  }

  /** Without arguments or without a name nothing changes and nothing is watched. */
  lemma MissingArgumentsChangeNothing(fs: FS, args: seq<string>, name: string, delete: bool, watch: bool, rx: Regexp)
    requires args == [] || name == ""
    ensures ThemeSpec(fs, args, name, delete, watch, rx) == (fs, None)
  {
  }

  /** The command changes nothing outside the theme directory but the directories leading to it. */
  lemma ThemeConfined(fs: FS, args: seq<string>, name: string, delete: bool, watch: bool, rx: Regexp)
    ensures var (fs', _) := ThemeSpec(fs, args, name, delete, watch, rx);
      forall q :: Get(fs', q) != Get(fs, q) ==> Target(args, name).Some? && (q <= Target(args, name).value.1 || Target(args, name).value.1 <= q)
  {
    match Target(args, name)
    case None =>
    case Some((source, themeDir)) =>
      Copy.CopyConfined(fs, source, themeDir, delete, [], rx);
  }

  /**
   * A watch is started exactly when asked for and the copy succeeded, and
   * it mirrors every path below the source into the theme directory.
   */
  lemma WatchMirrorsIntoTheme(fs: FS, args: seq<string>, name: string, delete: bool, watch: bool, rx: Regexp, e: Path)
    requires Target(args, name).Some?
    ensures var (source, themeDir) := Target(args, name).value;
      var w := ThemeSpec(fs, args, name, delete, watch, rx).1;
      && (w.Some? <==> watch && Copy.CopySpec(fs, source, themeDir, delete, [], rx).err == None)
      && (w.Some? && source <= e ==> Watcher.Mirror(w.value, e) == themeDir + e[|source|..])
  {
    var (source, themeDir) := Target(args, name).value;
    var w := ThemeSpec(fs, args, name, delete, watch, rx).1;
    if w.Some? && source <= e {
      Watcher.MirrorBelow(w.value, e);
    }
  }

  /**
   * The directories the carbon-copy watch registers, on the tree after the
   * copy. It is handed the source argument as given: an empty one makes
   * filepath.Walk fail at its first Lstat, so nothing is registered.
   */
  ghost function ThemeRegistration(fs: FS, src: string, rx: Regexp): Watcher.Registration
  {
    if src == "" then Watcher.Watching({}) else Watcher.WatchSpec(fs, [], rx, Clean(src))
  }

  /**
   * With no ignore patterns the watch never panics; it watches nothing for
   * an empty source and otherwise exactly the directories at or below the
   * cleaned source.
   */
  lemma ThemeWatchesSourceDirs(fs: FS, src: string, rx: Regexp)
    requires WellFormed(fs)
    ensures var r := ThemeRegistration(fs, src, rx);
      && r.Watching?
      && (src == "" ==> r.dirs == {})
      && (src != "" ==> forall d :: d in r.dirs <==> Clean(src) <= d && IsDirAt(fs, d))
  {
    if src != "" {
      var base := Clean(src);
      Watcher.NoPatternsWatchAll(fs, rx, base);
      forall d | base <= d && IsDirAt(fs, d)
        ensures d in WalkOrder.Subtree(fs, base)
      {
        if d != base {
          assert d in fs;
        }
      }
    }
  }

  /**
   * cmd_copy_theme on the file tree; the watch it would start is handed
   * back with the directories it registers.
   */
  method CmdTheme(fs: Os.FileSystem, args: seq<string>, name: string, delete: bool, watch: bool, rx: Regexp)
    returns (w: Option<Watcher.WatchContext<Watcher.CarbonAction>>, reg: Watcher.Registration)
    requires fs.Valid()
    modifies fs
    ensures fs.Valid()
    ensures (fs.nodes, w) == ThemeSpec(old(fs.nodes), args, name, delete, watch, rx)
    ensures reg == if w.Some? then ThemeRegistration(fs.nodes, Arg(args, 0), rx) else Watcher.Watching({})
  {
    reg := Watcher.Watching({});
    if args == [] {
      return None, reg;
    }
    var srcDir := Arg(args, 0);
    var destDir := Arg(args, 1);
    // An empty source or destination is only reported.
    if name == "" {
      return None, reg;
    }
    var themeDirPath := ThemeDir(destDir, name);
    var err := Copy.Copy(fs, Clean(srcDir), themeDirPath, delete, [], rx);
    if err.Some? {
      return None, reg;
    }
    if watch {
      if srcDir != "" {
        reg := Watcher.RegisterWatches(fs.nodes, [], rx, Clean(srcDir));
      }
      return Some(CarbonWatch(Clean(srcDir), themeDirPath)), reg;
    }
    return None, reg;
  }
}
