/** utility/forceRename.go: make room at the destination, then rename onto it. */
module ForceRename {
  import opened Wrappers
  import opened Fs
  import Os

  /** The tree and the returned error after ForceRename(src, dst). */
  function ForceRenameSpec(fs: FS, src: Path, dst: Path): Outcome
  {
    match RemoveAll(fs, dst)
    case Err(e) => Outcome(fs, Some(e))
    case Ok(fs1) => Outcome(Apply(fs1, Rename(fs1, src, dst)), None)
  }

  method ForceRename(fs: Os.FileSystem, src: Path, dst: Path) returns (err: Option<Error>)
    requires fs.Valid()
    modifies fs
    ensures fs.Valid()
    ensures Outcome(fs.nodes, err) == ForceRenameSpec(old(fs.nodes), src, dst)
  {
    err := fs.RemoveAll(dst);
    if err.Some? {
      return;
    }
    var _ := fs.Rename(src, dst);
    err := None;
  }

  /** The only error reported is the removal's; the tree is then untouched. */
  lemma ReportsOnlyRemovalErrors(fs: FS, src: Path, dst: Path)
    ensures var Outcome(fs', err) := ForceRenameSpec(fs, src, dst);
      && err == ErrorOf(RemoveAll(fs, dst))
      && (err.Some? ==> fs' == fs)
  {
  }

  /** A failed rename after the removal is swallowed: the result is nil and only the removal happened. */
  lemma SwallowsRenameFailure(fs: FS, src: Path, dst: Path)
    requires RemoveAll(fs, dst).Ok?
    requires Rename(RemoveAll(fs, dst).value, src, dst).Err?
    ensures ForceRenameSpec(fs, src, dst) == Outcome(RemoveAll(fs, dst).value, None)
  {
  }

  /**
   * When the source exists, does not overlap the destination, and the
   * destination's parent is a directory, ForceRename succeeds: the destination
   * holds the source's former subtree, the source is gone, and nothing
   * outside the two subtrees changes.
   */
  lemma ForceRenameMoves(fs: FS, src: Path, dst: Path)
    requires WellFormed(fs) && Get(fs, src).Some? && Disjoint(src, dst) && ParentIsDir(fs, dst)
    ensures var Outcome(fs', err) := ForceRenameSpec(fs, src, dst);
      && err == None
      && SameTree(fs', dst, fs, src)
      && Gone(fs', src)
      && UnchangedOutside(fs', fs, src, dst)
  {
    NotBlockedBelowDir(fs, dst);
    var fs1 := RemoveAll(fs, dst).value;
    RemoveAllWellFormed(fs, dst);
    RemoveAllGet(fs, dst, dst);
    RemoveAllGet(fs, dst, Parent(dst));
    RemoveAllGet(fs, dst, src);
    RenameIntoFree(fs1, src, dst);
    var fs' := Apply(fs1, Rename(fs1, src, dst));
    forall r
      ensures Get(fs1, src + r) == Get(fs, src + r)
    {
      RemoveAllGet(fs, dst, src + r);
      if dst <= src + r {
        PrefixesComparable(dst, src, src + r);
      }
    }
    forall q | !(src <= q) && !(dst <= q)
      ensures Get(fs', q) == Get(fs, q)
    {
      RemoveAllGet(fs, dst, q);
    }
  }
}
