/**
 * The three places of an installation (utility/paths.go): the working
 * directory itself, its `.bk` backup directory and its `.staging`
 * directory, and the renames between them.
 */
module Paths {
  import opened Wrappers
  import opened Fs
  import opened Config
  import Os

  datatype FilePathHelper = FilePathHelper(current: Path)
  {
    function AddWorkingDirPath(f: Path): Path
    {
      current + f
    }

    function AddBackupDirPath(f: Path): Path
    {
      current + ([BACKUP_DIR] + f)
    }

    function AddStagingDirPath(f: Path): Path
    {
      current + ([STAGING_DIR] + f)
    }

    method WorkingToBackup(fs: Os.FileSystem, f: Path) returns (err: Option<Error>)
      requires fs.Valid()
      modifies fs
      ensures fs.Valid()
      ensures fs.nodes == Apply(old(fs.nodes), Rename(old(fs.nodes), AddWorkingDirPath(f), AddBackupDirPath(f)))
      ensures err == ErrorOf(Rename(old(fs.nodes), AddWorkingDirPath(f), AddBackupDirPath(f)))
    {
      err := fs.Rename(AddWorkingDirPath(f), AddBackupDirPath(f));
    }

    method BackupToWorking(fs: Os.FileSystem, f: Path) returns (err: Option<Error>)
      requires fs.Valid()
      modifies fs
      ensures fs.Valid()
      ensures fs.nodes == Apply(old(fs.nodes), Rename(old(fs.nodes), AddBackupDirPath(f), AddWorkingDirPath(f)))
      ensures err == ErrorOf(Rename(old(fs.nodes), AddBackupDirPath(f), AddWorkingDirPath(f)))
    {
      err := fs.Rename(AddBackupDirPath(f), AddWorkingDirPath(f));
    }

    /** The rename error is returned as it is (the message printed beside it is not modelled). */
    method StagingToWorking(fs: Os.FileSystem, f: Path) returns (err: Option<Error>)
      requires fs.Valid()
      modifies fs
      ensures fs.Valid()
      ensures fs.nodes == Apply(old(fs.nodes), Rename(old(fs.nodes), AddStagingDirPath(f), AddWorkingDirPath(f)))
      ensures err == ErrorOf(Rename(old(fs.nodes), AddStagingDirPath(f), AddWorkingDirPath(f)))
    {
      err := fs.Rename(AddStagingDirPath(f), AddWorkingDirPath(f));
    }
  }

  /** The working, backup and staging places of a name are three different paths. */
  lemma PlacesDistinct(h: FilePathHelper, f: Path)
    ensures h.AddWorkingDirPath(f) != h.AddBackupDirPath(f)
    ensures h.AddWorkingDirPath(f) != h.AddStagingDirPath(f)
    ensures h.AddBackupDirPath(f) != h.AddStagingDirPath(f)
  {
    assert h.AddBackupDirPath(f)[|h.current|] == BACKUP_DIR;
    assert h.AddStagingDirPath(f)[|h.current|] == STAGING_DIR;
  }

  /**
   * For a name that does not itself start with `.bk` or `.staging`, the three
   * places are disjoint subtrees, so a rename between two of them is never a
   * move into itself.
   */
  lemma PlacesDisjoint(h: FilePathHelper, f: Path)
    requires f != [] && f[0] != BACKUP_DIR && f[0] != STAGING_DIR
    ensures Disjoint(h.AddWorkingDirPath(f), h.AddBackupDirPath(f))
    ensures Disjoint(h.AddWorkingDirPath(f), h.AddStagingDirPath(f))
    ensures Disjoint(h.AddBackupDirPath(f), h.AddStagingDirPath(f))
  {
    var c := h.current;
    assert h.AddWorkingDirPath(f)[|c|] == f[0];
    assert h.AddBackupDirPath(f)[|c|] == BACKUP_DIR;
    assert h.AddStagingDirPath(f)[|c|] == STAGING_DIR;
  }

  /** After a successful WorkingToBackup the backup place holds what the working place held, which is gone. */
  lemma WorkingToBackupMoves(fs: FS, h: FilePathHelper, f: Path)
    requires WellFormed(fs)
    requires Rename(fs, h.AddWorkingDirPath(f), h.AddBackupDirPath(f)).Ok?
    ensures var fs' := Rename(fs, h.AddWorkingDirPath(f), h.AddBackupDirPath(f)).value;
      && SameTree(fs', h.AddBackupDirPath(f), fs, h.AddWorkingDirPath(f))
      && Gone(fs', h.AddWorkingDirPath(f))
      && UnchangedOutside(fs', fs, h.AddWorkingDirPath(f), h.AddBackupDirPath(f))
  {
    var w, b := h.AddWorkingDirPath(f), h.AddBackupDirPath(f);
    PlacesDistinct(h, f);
    RenameMoves(fs, w, b);
    RenameFrame(fs, w, b);
    var fs' := Move(fs, w, b);
    forall r
      ensures Get(fs', b + r) == Get(fs, w + r)
    {
      MoveGet(fs, w, b, b + r);
      assert (b + r)[|b|..] == r;
    }
    forall r
      ensures Get(fs', w + r) == None
    {
      MoveGet(fs, w, b, w + r);
      if b <= w + r {
        PrefixesComparable(b, w, w + r);
      }
    }
  }

  /**
   * WorkingToBackup followed by BackupToWorking, both succeeding, gives back
   * the original tree, provided the backup place was free (a file there would
   * have been replaced by the first rename).
   */
  lemma BackupRoundTrip(fs: FS, h: FilePathHelper, f: Path)
    requires WellFormed(fs) && Get(fs, h.AddBackupDirPath(f)) == None
    requires Rename(fs, h.AddWorkingDirPath(f), h.AddBackupDirPath(f)).Ok?
    requires var fs1 := Rename(fs, h.AddWorkingDirPath(f), h.AddBackupDirPath(f)).value;
      Rename(fs1, h.AddBackupDirPath(f), h.AddWorkingDirPath(f)).Ok?
    ensures var fs1 := Rename(fs, h.AddWorkingDirPath(f), h.AddBackupDirPath(f)).value;
      Rename(fs1, h.AddBackupDirPath(f), h.AddWorkingDirPath(f)).value == fs
  {
    PlacesDistinct(h, f);
    RenameThereAndBack(fs, h.AddWorkingDirPath(f), h.AddBackupDirPath(f));
  }
}
