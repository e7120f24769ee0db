/**
 * commands/install/install.go: download the release archive into the
 * install directory, unpack it there and delete the archive. Every failure
 * is printed and swallowed.
 */
module Install {
  import opened Wrappers
  import opened Fs
  import opened Config
  import Os

  /** The archive location `<Clean(installPath)>/gocms.zip`. */
  function ArchiveLocation(installPath: Path): (loc: Path)
    ensures loc != [] && Parent(loc) == installPath && loc[|loc| - 1] == BINARY_ARCHIVE
  {
    installPath + [BINARY_ARCHIVE]
  }

  /**
   * Printed, the location is the printed install directory, a '/' and the
   * archive name ("./gocms.zip" for the working directory is the file
   * "gocms.zip").
   */
  lemma ArchiveLocationRendered(installPath: Path)
    ensures installPath != [] ==> Render(ArchiveLocation(installPath)) == Render(installPath) + "/" + BINARY_ARCHIVE
    ensures installPath == [] ==> Render(ArchiveLocation(installPath)) == BINARY_ARCHIVE
  {
    if installPath != [] {
      JoinNamesAppend(installPath, [BINARY_ARCHIVE]);
    }
  }

  /** The fixed part of the release URL: protocol, host and domain, release, and the version "current". */
  const RELEASE_BASE: string := BINARY_PROTOCOL + "://" + BINARY_HOST + "." + BINARY_DOMAIN + "/"
    + BINARY_DEFAULT_RELEASE + "/" + BINARY_DEFAULT_VERSION + "/"

  /** The release URL: the fixed part, the platform directory and the archive name. */
  function DownloadUrl(pf: Platform): string
  {
    RELEASE_BASE + pf.binaryOsPath + "/" + BINARY_ARCHIVE
  }

  /**
   * Every URL starts with the fixed part and ends with "/gocms.zip"; only the
   * platform directory varies, and it determines the URL.
   */
  lemma DownloadUrlShape(pf: Platform, other: Platform)
    ensures RELEASE_BASE <= DownloadUrl(pf)
    ensures DownloadUrl(pf)[|DownloadUrl(pf)| - |BINARY_ARCHIVE| - 1..] == "/" + BINARY_ARCHIVE
    ensures DownloadUrl(pf) == DownloadUrl(other) <==> pf.binaryOsPath == other.binaryOsPath
  {
    var a, b := pf.binaryOsPath, other.binaryOsPath;
    var tail := "/" + BINARY_ARCHIVE;
    assert DownloadUrl(pf) == RELEASE_BASE + (a + tail);
    assert DownloadUrl(other) == RELEASE_BASE + (b + tail);
    if DownloadUrl(pf) == DownloadUrl(other) {
      assert a + tail == DownloadUrl(pf)[|RELEASE_BASE|..];
      assert a == (a + tail)[..|a|];
      assert b == (b + tail)[..|b|];
    }
  }

  // ---------------------------------------------------------------------
  // What the network and the archive provide.

  /** What the HTTP transfer produced (utility/downloadFile.go is not part of this model). */
  datatype Fetch = Fetched(data: Bytes) | FetchFailed(reason: string)

  /** One member of the archive, by its path below the target directory. */
  datatype ZipEntry = ZipDir(name: Path) | ZipFile(name: Path, data: Bytes)

  /** What decoding the archive produced (utility.Unzip is not part of this model). */
  datatype Unpack = Unpacked(entries: seq<ZipEntry>) | UnpackFailed(reason: string)

  /** DownloadFile: the transfer creates the missing directories and then writes the file. */
  function DownloadSpec(fs: FS, location: Path, fetch: Fetch): Outcome
    requires location != []
  {
    match fetch
    case FetchFailed(reason) => Outcome(fs, Some(Failed(reason)))
    case Fetched(data) =>
      match MkdirAll(fs, Parent(location))
      case Err(e) => Outcome(fs, Some(e))
      case Ok(fs1) => Done(fs1, Create(fs1, location, data))
  }

  /** Writing one archive member below `dir`. */
  function ExtractEntry(fs: FS, dir: Path, e: ZipEntry): Outcome
  {
    match e
    case ZipDir(name) => Done(fs, MkdirAll(fs, dir + name))
    case ZipFile(name, data) =>
      var p := dir + name;
      match MkdirAll(fs, if p == [] then [] else Parent(p))
      case Err(err) => Outcome(fs, Some(err))
      case Ok(fs1) => Done(fs1, Create(fs1, p, data))
  }

  /** The members in archive order; the first failure ends the extraction. */
  function ExtractSpec(fs: FS, dir: Path, entries: seq<ZipEntry>): Outcome
    decreases |entries|
  {
    if entries == [] then Outcome(fs, None)
    else
      var o := ExtractEntry(fs, dir, entries[0]);
      if o.err.Some? then o else ExtractSpec(o.fs, dir, entries[1..])
  }

  /** Unzip: the archive must be a readable file; then its members are written below `dir`. */
  function UnzipSpec(fs: FS, archive: Path, dir: Path, unpack: Unpack): Outcome
  {
    if !IsFileAt(fs, archive) then Outcome(fs, Some(if IsDirAt(fs, archive) then IsDir(archive) else Missing(fs, archive)))
    else
      match unpack
      case UnpackFailed(reason) => Outcome(fs, Some(Failed(reason)))
      case Unpacked(entries) => ExtractSpec(fs, dir, entries)
  }

  /**
   * BasicInstall: download, and unzip only when the download succeeded; the
   * archive is removed (ignoring the result) on each of the three exits, and
   * nil is returned on each of them.
   */
  function BasicInstallSpec(fs: FS, installPath: Path, fetch: Fetch, unpack: Unpack): (r: Outcome)
    ensures r.err == None
  {
    var location := ArchiveLocation(installPath);
    var d := DownloadSpec(fs, location, fetch);
    if d.err.Some? then
      Outcome(Apply(d.fs, Remove(d.fs, location)), None)
    else
      var u := UnzipSpec(d.fs, location, installPath, unpack);
      if u.err.Some? then
        Outcome(Apply(u.fs, Remove(u.fs, location)), None)
      else
        Outcome(Apply(u.fs, Remove(u.fs, location)), None)
  }

  method Download(fs: Os.FileSystem, location: Path, fetch: Fetch) returns (err: Option<Error>)
    requires fs.Valid() && location != []
    modifies fs
    ensures fs.Valid()
    ensures Outcome(fs.nodes, err) == DownloadSpec(old(fs.nodes), location, fetch)
  {
    if fetch.FetchFailed? {
      return Some(Failed(fetch.reason));
    }
    err := fs.MkdirAll(Parent(location));
    if err.Some? {
      return;
    }
    err := fs.Create(location, fetch.data);
  }

  method Unzip(fs: Os.FileSystem, archive: Path, dir: Path, unpack: Unpack) returns (err: Option<Error>)
    requires fs.Valid()
    modifies fs
    ensures fs.Valid()
    ensures Outcome(fs.nodes, err) == UnzipSpec(old(fs.nodes), archive, dir, unpack)
  {
    var info := fs.Stat(archive);
    if info.Err? {
      return Some(info.error);
    }
    if info.value.Dir? {
      return Some(IsDir(archive));
    }
    if unpack.UnpackFailed? {
      return Some(Failed(unpack.reason));
    }
    err := Extract(fs, dir, unpack.entries);
  }

  method Extract(fs: Os.FileSystem, dir: Path, entries: seq<ZipEntry>) returns (err: Option<Error>)
    requires fs.Valid()
    modifies fs
    ensures fs.Valid()
    ensures Outcome(fs.nodes, err) == ExtractSpec(old(fs.nodes), dir, entries)
  {
    ghost var start := fs.nodes;
    var i := 0;
    while i < |entries|
      invariant 0 <= i <= |entries| && fs.Valid()
      invariant ExtractSpec(start, dir, entries) == ExtractSpec(fs.nodes, dir, entries[i..])
    {
      assert entries[i..][1..] == entries[i + 1..];
      err := ExtractOne(fs, dir, entries[i]);
      if err.Some? {
        return;
      }
      i := i + 1;
    }
    err := None;
  }

  method ExtractOne(fs: Os.FileSystem, dir: Path, e: ZipEntry) returns (err: Option<Error>)
    requires fs.Valid()
    modifies fs
    ensures fs.Valid()
    ensures Outcome(fs.nodes, err) == ExtractEntry(old(fs.nodes), dir, e)
  {
    match e
    case ZipDir(name) =>
      err := fs.MkdirAll(dir + name);
    case ZipFile(name, data) =>
      var p := dir + name;
      err := fs.MkdirAll(if p == [] then [] else Parent(p));
      if err.None? {
        err := fs.Create(p, data);
      }
  }

  method BasicInstall(fs: Os.FileSystem, installPath: Path, fetch: Fetch, unpack: Unpack) returns (err: Option<Error>)
    requires fs.Valid()
    modifies fs
    ensures fs.Valid()
    ensures Outcome(fs.nodes, err) == BasicInstallSpec(old(fs.nodes), installPath, fetch, unpack)
  {
    var location := ArchiveLocation(installPath);
    err := Download(fs, location, fetch);
    if err.Some? {
      var _ := fs.Remove(location);
      return None;
    }
    err := Unzip(fs, location, installPath, unpack);
    if err.Some? {
      var _ := fs.Remove(location);
      return None;
    }
    var _ := fs.Remove(location);
    return None;
  }

  /** cmd_install: without an argument nothing happens; the command never reports an error. */
  method CmdInstall(fs: Os.FileSystem, args: seq<Path>, fetch: Fetch, unpack: Unpack) returns (err: Option<Error>)
    requires fs.Valid()
    modifies fs
    ensures fs.Valid() && err == None
    ensures args == [] ==> fs.nodes == old(fs.nodes)
    ensures args != [] ==> fs.nodes == BasicInstallSpec(old(fs.nodes), args[0], fetch, unpack).fs
  {
    if |args| == 0 {
      return None;
    }
    var _ := BasicInstall(fs, args[0], fetch, unpack);
    return None;
  }

  // ---------------------------------------------------------------------
  // What an install changes.

  /**
   * Outside the subtree at `d`, `fs'` differs from `fs` only by new
   * directories on the way to `d`.
   */
  ghost predicate ConfinedTo(fs: FS, fs': FS, d: Path)
  {
    forall q :: !(d <= q) && Get(fs', q) != Get(fs, q) ==> q < d && Get(fs, q) == None && Get(fs', q) == Some(Dir)
  }

  lemma ConfinedTrans(fs: FS, fs1: FS, fs2: FS, d: Path)
    requires ConfinedTo(fs, fs1, d) && ConfinedTo(fs1, fs2, d)
    ensures ConfinedTo(fs, fs2, d)
  {
  }

  lemma MkdirAllConfined(fs: FS, p: Path, d: Path)
    requires d <= p
    ensures ConfinedTo(fs, Apply(fs, MkdirAll(fs, p)), d)
  {
    if MkdirAll(fs, p).Ok? {
      MkdirAllEffect(fs, p);
      forall q | !(d <= q) && Get(Apply(fs, MkdirAll(fs, p)), q) != Get(fs, q)
        ensures q < d
      {
        PrefixesComparable(q, d, p);
      }
    }
  }

  lemma ExtractEntryConfined(fs: FS, dir: Path, e: ZipEntry)
    requires WellFormed(fs)
    ensures WellFormed(ExtractEntry(fs, dir, e).fs)
    ensures ConfinedTo(fs, ExtractEntry(fs, dir, e).fs, dir)
  {
    MkdirAllWellFormed(fs, dir + e.name);
    MkdirAllConfined(fs, dir + e.name, dir);
    var p := dir + e.name;
    if e.ZipFile? {
      var parent := if p == [] then [] else Parent(p);
      MkdirAllWellFormed(fs, parent);
      if MkdirAll(fs, parent).Ok? {
        var fs1 := MkdirAll(fs, parent).value;
        MkdirAllEffect(fs, parent);
        CreateWellFormed(fs1, p, e.data);
        forall q | !(dir <= q) && Get(ExtractEntry(fs, dir, e).fs, q) != Get(fs, q)
          ensures q < dir && Get(fs, q) == None && Get(ExtractEntry(fs, dir, e).fs, q) == Some(Dir)
        {
          assert q != p;
          if e.name != [] {
            PrefixesComparable(q, dir, parent);
          } else {
            assert parent <= dir;
          }
        }
      }
    }
  }

  lemma {:induction false} ExtractConfined(fs: FS, dir: Path, entries: seq<ZipEntry>)
    requires WellFormed(fs)
    ensures WellFormed(ExtractSpec(fs, dir, entries).fs)
    ensures ConfinedTo(fs, ExtractSpec(fs, dir, entries).fs, dir)
    decreases |entries|
  {
    if entries != [] {
      var o := ExtractEntry(fs, dir, entries[0]);
      ExtractEntryConfined(fs, dir, entries[0]);
      if o.err.None? {
        ExtractConfined(o.fs, dir, entries[1..]);
        ConfinedTrans(fs, o.fs, ExtractSpec(o.fs, dir, entries[1..]).fs, dir);
      }
    }
  }

  /** The download, the unzip and the removal together. */
  lemma StepsConfined(fs: FS, installPath: Path, fetch: Fetch, unpack: Unpack)
    requires WellFormed(fs)
    ensures var location := ArchiveLocation(installPath);
      var d := DownloadSpec(fs, location, fetch);
      && WellFormed(d.fs) && ConfinedTo(fs, d.fs, installPath)
      && (d.err.None? ==> IsFileAt(d.fs, location))
      && var u := UnzipSpec(d.fs, location, installPath, unpack);
      && WellFormed(u.fs) && ConfinedTo(d.fs, u.fs, installPath)
  {
    var location := ArchiveLocation(installPath);
    MkdirAllWellFormed(fs, installPath);
    MkdirAllConfined(fs, installPath, installPath);
    if fetch.Fetched? && MkdirAll(fs, installPath).Ok? {
      CreateWellFormed(MkdirAll(fs, installPath).value, location, fetch.data);
    }
    var d := DownloadSpec(fs, location, fetch);
    if unpack.Unpacked? && IsFileAt(d.fs, location) {
      ExtractConfined(d.fs, installPath, unpack.entries);
    }
  }

  /**
   * BasicInstall changes nothing outside the install directory except by
   * creating the missing directories on the way to it.
   */
  lemma BasicInstallConfined(fs: FS, installPath: Path, fetch: Fetch, unpack: Unpack)
    requires WellFormed(fs)
    ensures WellFormed(BasicInstallSpec(fs, installPath, fetch, unpack).fs)
    ensures ConfinedTo(fs, BasicInstallSpec(fs, installPath, fetch, unpack).fs, installPath)
  {
    var location := ArchiveLocation(installPath);
    StepsConfined(fs, installPath, fetch, unpack);
    var d := DownloadSpec(fs, location, fetch);
    var u := UnzipSpec(d.fs, location, installPath, unpack);
    var last := if d.err.Some? then d.fs else u.fs;
    ArchiveRemovalConfined(last, installPath);
    if d.err.None? {
      ConfinedTrans(fs, d.fs, u.fs, installPath);
    }
    assert BasicInstallSpec(fs, installPath, fetch, unpack).fs == Apply(last, Remove(last, location));
    ConfinedTrans(fs, last, Apply(last, Remove(last, location)), installPath);
  }

  /** Removing the archive keeps the tree well formed and touches only the install directory. */
  lemma ArchiveRemovalConfined(fs: FS, installPath: Path)
    requires WellFormed(fs)
    ensures var after := Apply(fs, Remove(fs, ArchiveLocation(installPath)));
      WellFormed(after) && ConfinedTo(fs, after, installPath)
  {
    RemoveWellFormed(fs, ArchiveLocation(installPath));
  }

  /**
   * The archive is never left behind as a file: whatever the download and
   * the unzip did, a file at the archive location is removed on the way out.
   */
  lemma ArchiveNotLeft(fs: FS, installPath: Path, fetch: Fetch, unpack: Unpack)
    requires WellFormed(fs)
    ensures !IsFileAt(BasicInstallSpec(fs, installPath, fetch, unpack).fs, ArchiveLocation(installPath))
  {
    var location := ArchiveLocation(installPath);
    StepsConfined(fs, installPath, fetch, unpack);
    var d := DownloadSpec(fs, location, fetch);
    var u := UnzipSpec(d.fs, location, installPath, unpack);
    var last := if d.err.Some? then d.fs else u.fs;
    if IsFileAt(last, location) {
      assert !HasDescendant(last, location) by {
        forall q | q in last
          ensures !(location < q)
        {
          if location < q {
            NothingBelowNonDir(last, location, q);
          }
        }
      }
    }
  }

  /** The unzip is attempted only after a successful download: a failed one makes the archive irrelevant. */
  lemma NoUnzipAfterFailedDownload(fs: FS, installPath: Path, reason: string, u1: Unpack, u2: Unpack)
    ensures BasicInstallSpec(fs, installPath, FetchFailed(reason), u1)
         == BasicInstallSpec(fs, installPath, FetchFailed(reason), u2)
    ensures BasicInstallSpec(fs, installPath, FetchFailed(reason), u1).fs
         == Apply(fs, Remove(fs, ArchiveLocation(installPath)))
  {
  }
}
