/**
 * The file system as the Go program sees it: one mutable tree, changed in
 * place by the calls of package os. Each method does what the pure function
 * of the same name in module Fs says.
 */
module Os {
  import opened Wrappers
  import opened Fs

  class FileSystem {
    var nodes: FS

    ghost predicate Valid()
      reads this
    {
      WellFormed(nodes)
    }

    constructor (init: FS)
      requires WellFormed(init)
      ensures Valid() && nodes == init
    {
      nodes := init;
    }

    method Stat(p: Path) returns (r: Result<Node, Error>)
      ensures r == Fs.Stat(nodes, p)
    {
      r := Fs.Stat(nodes, p);
    }

    method Mkdir(p: Path) returns (err: Option<Error>)
      requires Valid()
      modifies this
      ensures Valid()
      ensures nodes == Apply(old(nodes), Fs.Mkdir(old(nodes), p))
      ensures err == ErrorOf(Fs.Mkdir(old(nodes), p))
    {
      var r := Fs.Mkdir(nodes, p);
      MkdirWellFormed(nodes, p);
      nodes := Apply(nodes, r);
      err := ErrorOf(r);
    }

    method MkdirAll(p: Path) returns (err: Option<Error>)
      requires Valid()
      modifies this
      ensures Valid()
      ensures nodes == Apply(old(nodes), Fs.MkdirAll(old(nodes), p))
      ensures err == ErrorOf(Fs.MkdirAll(old(nodes), p))
    {
      var r := Fs.MkdirAll(nodes, p);
      MkdirAllWellFormed(nodes, p);
      nodes := Apply(nodes, r);
      err := ErrorOf(r);
    }

    method Remove(p: Path) returns (err: Option<Error>)
      requires Valid()
      modifies this
      ensures Valid()
      ensures nodes == Apply(old(nodes), Fs.Remove(old(nodes), p))
      ensures err == ErrorOf(Fs.Remove(old(nodes), p))
    {
      var r := Fs.Remove(nodes, p);
      RemoveWellFormed(nodes, p);
      nodes := Apply(nodes, r);
      err := ErrorOf(r);
    }

    method RemoveAll(p: Path) returns (err: Option<Error>)
      requires Valid()
      modifies this
      ensures Valid()
      ensures nodes == Apply(old(nodes), Fs.RemoveAll(old(nodes), p))
      ensures err == ErrorOf(Fs.RemoveAll(old(nodes), p))
    {
      var r := Fs.RemoveAll(nodes, p);
      RemoveAllWellFormed(nodes, p);
      nodes := Apply(nodes, r);
      err := ErrorOf(r);
    }

    method Rename(src: Path, dst: Path) returns (err: Option<Error>)
      requires Valid()
      modifies this
      ensures Valid()
      ensures nodes == Apply(old(nodes), Fs.Rename(old(nodes), src, dst))
      ensures err == ErrorOf(Fs.Rename(old(nodes), src, dst))
    {
      var r := Fs.Rename(nodes, src, dst);
      RenameWellFormed(nodes, src, dst);
      nodes := Apply(nodes, r);
      err := ErrorOf(r);
    }

    method Create(p: Path, data: Bytes) returns (err: Option<Error>)
      requires Valid()
      modifies this
      ensures Valid()
      ensures nodes == Apply(old(nodes), Fs.Create(old(nodes), p, data))
      ensures err == ErrorOf(Fs.Create(old(nodes), p, data))
    {
      var r := Fs.Create(nodes, p, data);
      CreateWellFormed(nodes, p, data);
      nodes := Apply(nodes, r);
      err := ErrorOf(r);
    }

    method CopyContents(src: Path, dst: Path) returns (err: Option<Error>)
      requires Valid()
      modifies this
      ensures Valid()
      ensures nodes == Apply(old(nodes), Fs.CopyContents(old(nodes), src, dst))
      ensures err == ErrorOf(Fs.CopyContents(old(nodes), src, dst))
    {
      var r := Fs.CopyContents(nodes, src, dst);
      CopyContentsWellFormed(nodes, src, dst);
      nodes := Apply(nodes, r);
      err := ErrorOf(r);
    }

    method Chmod(p: Path, perm: Perm) returns (err: Option<Error>)
      requires Valid()
      modifies this
      ensures Valid()
      ensures nodes == Apply(old(nodes), Fs.Chmod(old(nodes), p, perm))
      ensures err == ErrorOf(Fs.Chmod(old(nodes), p, perm))
    {
      var r := Fs.Chmod(nodes, p, perm);
      ChmodWellFormed(nodes, p, perm);
      nodes := Apply(nodes, r);
      err := ErrorOf(r);
    }
  }
}
