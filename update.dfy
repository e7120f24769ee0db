/**
 * commands/update/update.go: move the current binary, `content` and `.env`
 * into `.bk`, install the new release into `.staging`, then move the new
 * binary and content in and the user's `.env`, plugins and themes back.
 * Every individual step's failure is ignored.
 */
module Update {
  import opened Wrappers
  import opened Fs
  import opened Config
  import opened Paths
  import opened Install
  import Os

  // ---------------------------------------------------------------------
  // Names below the installation directory.

  function Binary(pf: Platform): Path
  {
    [pf.binaryFile]
  }

  const Content: Path := [CONTENT_DIR]
  const Env: Path := [ENV_FILE]
  const Docs: Path := [CONTENT_DIR, DOCS_DIR]
  const Admin: Path := [CONTENT_DIR, GOCMS_ADMIN_DIR]
  const Templates: Path := [CONTENT_DIR, TEMPLATES_DIR]
  const Plugins: Path := [CONTENT_DIR, PLUGINS_DIR]
  const Themes: Path := [CONTENT_DIR, THEMES_DIR]
  const DefaultTheme: Path := [CONTENT_DIR, THEMES_DIR, THEMES_DEFAULT_DIR]

  // ---------------------------------------------------------------------
  // The update as a fixed sequence of file-system steps.

  datatype Step = MkdirStep(path: Path) | RenameStep(src: Path, dst: Path) | RemoveStep(path: Path)

  /** One step, its error discarded. */
  function RunStep(fs: FS, s: Step): FS
  {
    match s
    case MkdirStep(p) => Apply(fs, Mkdir(fs, p))
    case RenameStep(src, dst) => Apply(fs, Rename(fs, src, dst))
    case RemoveStep(p) => Apply(fs, Remove(fs, p))
  }

  /** The steps in order, each run whether or not the ones before it failed. */
  function Run(fs: FS, steps: seq<Step>): FS
    decreases |steps|
  {
    if steps == [] then fs else Run(RunStep(fs, steps[0]), steps[1..])
  }

  /** The backup: binary, content and .env from the installation into `.bk`. */
  function BackupSteps(h: FilePathHelper, pf: Platform): seq<Step>
  {
    [ RenameStep(h.AddWorkingDirPath(Binary(pf)), h.AddBackupDirPath(Binary(pf))),
      RenameStep(h.AddWorkingDirPath(Content), h.AddBackupDirPath(Content)),
      RenameStep(h.AddWorkingDirPath(Env), h.AddBackupDirPath(Env)) ]
  }

  /** The rollback: the same three items back from `.bk`. */
  function RollbackSteps(h: FilePathHelper, pf: Platform): seq<Step>
  {
    [ RenameStep(h.AddBackupDirPath(Binary(pf)), h.AddWorkingDirPath(Binary(pf))),
      RenameStep(h.AddBackupDirPath(Content), h.AddWorkingDirPath(Content)),
      RenameStep(h.AddBackupDirPath(Env), h.AddWorkingDirPath(Env)) ]
  }

  /**
   * Applying the update: the new binary, the user's .env, a fresh content
   * directory with the new docs, admin and templates, the user's plugins and
   * themes, and then the new default theme in place of the old one.
   */
  function ApplySteps(h: FilePathHelper, pf: Platform): seq<Step>
  {
    [ RenameStep(h.AddStagingDirPath(Binary(pf)), h.AddWorkingDirPath(Binary(pf))),
      RenameStep(h.AddBackupDirPath(Env), h.AddWorkingDirPath(Env)),
      MkdirStep(h.AddWorkingDirPath(Content)),
      RenameStep(h.AddStagingDirPath(Docs), h.AddWorkingDirPath(Docs)),
      RenameStep(h.AddStagingDirPath(Admin), h.AddWorkingDirPath(Admin)),
      RenameStep(h.AddStagingDirPath(Templates), h.AddWorkingDirPath(Templates)),
      RenameStep(h.AddBackupDirPath(Plugins), h.AddWorkingDirPath(Plugins)),
      RenameStep(h.AddBackupDirPath(Themes), h.AddWorkingDirPath(Themes)),
      RemoveStep(h.AddWorkingDirPath(DefaultTheme)),
      RenameStep(h.AddStagingDirPath(DefaultTheme), h.AddWorkingDirPath(DefaultTheme)) ]
  }

  /** After the install: roll back if it reported an error, otherwise apply. */
  function FinishSpec(fs: FS, h: FilePathHelper, pf: Platform, installErr: Option<Error>): FS
  {
    if installErr.Some? then Run(fs, RollbackSteps(h, pf)) else Run(fs, ApplySteps(h, pf))
  }

  /** The tree once `.bk` is created, the backup done and the release installed into `.staging`. */
  function Staged(fs: FS, h: FilePathHelper, pf: Platform, fetch: Fetch, unpack: Unpack): Outcome
  {
    var backedUp := Run(Apply(fs, Mkdir(fs, h.AddBackupDirPath([]))), BackupSteps(h, pf));
    BasicInstallSpec(backedUp, h.AddStagingDirPath([]), fetch, unpack)
  }

  /** cmd_update with the command-line arguments `args`. */
  function UpdateSpec(fs: FS, pf: Platform, args: seq<Path>, fetch: Fetch, unpack: Unpack): FS
  {
    if args == [] then fs
    else
      var h := FilePathHelper(args[0]);
      var info := Stat(fs, h.AddWorkingDirPath(Binary(pf)));
      if info.Err? && info.error.NotExist? then fs
      else if Mkdir(fs, h.AddBackupDirPath([])).Err? then fs
      else
        var staged := Staged(fs, h, pf, fetch, unpack);
        FinishSpec(staged.fs, h, pf, staged.err)
  }

  // ---------------------------------------------------------------------
  // The command.

  method Backup(fs: Os.FileSystem, h: FilePathHelper, pf: Platform)
    requires fs.Valid()
    modifies fs
    ensures fs.Valid()
    ensures fs.nodes == Run(old(fs.nodes), BackupSteps(h, pf))
  {
    ghost var todo := BackupSteps(h, pf);
    ghost var goal := Run(fs.nodes, todo);
    ghost var before;
    before := fs.nodes;
    var _ := h.WorkingToBackup(fs, Binary(pf));
    assert fs.nodes == RunStep(before, todo[0]);
    todo := todo[1..];
    assert goal == Run(fs.nodes, todo);
    before := fs.nodes;
    var _ := h.WorkingToBackup(fs, Content);
    assert fs.nodes == RunStep(before, todo[0]);
    todo := todo[1..];
    assert goal == Run(fs.nodes, todo);
    before := fs.nodes;
    var _ := h.WorkingToBackup(fs, Env);
    assert fs.nodes == RunStep(before, todo[0]);
    todo := todo[1..];
    assert goal == Run(fs.nodes, todo);
    assert todo == [];
  }

  method Rollback(fs: Os.FileSystem, h: FilePathHelper, pf: Platform)
    requires fs.Valid()
    modifies fs
    ensures fs.Valid()
    ensures fs.nodes == Run(old(fs.nodes), RollbackSteps(h, pf))
  {
    ghost var todo := RollbackSteps(h, pf);
    ghost var goal := Run(fs.nodes, todo);
    ghost var before;
    before := fs.nodes;
    var _ := h.BackupToWorking(fs, Binary(pf));
    assert fs.nodes == RunStep(before, todo[0]);
    todo := todo[1..];
    assert goal == Run(fs.nodes, todo);
    before := fs.nodes;
    var _ := h.BackupToWorking(fs, Content);
    assert fs.nodes == RunStep(before, todo[0]);
    todo := todo[1..];
    assert goal == Run(fs.nodes, todo);
    before := fs.nodes;
    var _ := h.BackupToWorking(fs, Env);
    assert fs.nodes == RunStep(before, todo[0]);
    todo := todo[1..];
    assert goal == Run(fs.nodes, todo);
    assert todo == [];
  }

  method ApplyUpdate(fs: Os.FileSystem, h: FilePathHelper, pf: Platform)
    requires fs.Valid()
    modifies fs
    ensures fs.Valid()
    ensures fs.nodes == Run(old(fs.nodes), ApplySteps(h, pf))
  {
    ghost var steps := ApplySteps(h, pf);
    ghost var start := fs.nodes;
    ApplyFirstSteps(fs, h, pf);
    ApplyLastSteps(fs, h, pf);
    RunAppend(start, steps[..5], steps[5..]);
    assert steps[..5] + steps[5..] == steps;
  }

  /** The new binary, the user's `.env`, a fresh `content` with the new docs and admin. */
  method ApplyFirstSteps(fs: Os.FileSystem, h: FilePathHelper, pf: Platform)
    requires fs.Valid()
    modifies fs
    ensures fs.Valid()
    ensures fs.nodes == Run(old(fs.nodes), ApplySteps(h, pf)[..5])
  {
    ghost var todo := [ RenameStep(h.AddStagingDirPath(Binary(pf)), h.AddWorkingDirPath(Binary(pf))),
                        RenameStep(h.AddBackupDirPath(Env), h.AddWorkingDirPath(Env)),
                        MkdirStep(h.AddWorkingDirPath(Content)),
                        RenameStep(h.AddStagingDirPath(Docs), h.AddWorkingDirPath(Docs)),
                        RenameStep(h.AddStagingDirPath(Admin), h.AddWorkingDirPath(Admin)) ];
    assert todo == ApplySteps(h, pf)[..5];
    ghost var goal := Run(fs.nodes, todo);
    ghost var before;
    before := fs.nodes;
    var _ := h.StagingToWorking(fs, Binary(pf));
    assert fs.nodes == RunStep(before, todo[0]);
    todo := todo[1..];
    assert goal == Run(fs.nodes, todo);
    before := fs.nodes;
    var _ := h.BackupToWorking(fs, Env);
    assert fs.nodes == RunStep(before, todo[0]);
    todo := todo[1..];
    assert goal == Run(fs.nodes, todo);
    before := fs.nodes;
    var _ := fs.Mkdir(h.AddWorkingDirPath(Content));
    assert fs.nodes == RunStep(before, todo[0]);
    todo := todo[1..];
    assert goal == Run(fs.nodes, todo);
    before := fs.nodes;
    var _ := h.StagingToWorking(fs, Docs);
    assert fs.nodes == RunStep(before, todo[0]);
    todo := todo[1..];
    assert goal == Run(fs.nodes, todo);
    before := fs.nodes;
    var _ := h.StagingToWorking(fs, Admin);
    assert fs.nodes == RunStep(before, todo[0]);
    todo := todo[1..];
    assert goal == Run(fs.nodes, todo);
    assert todo == [];
  }

  /** The new templates, the user's plugins and themes, and the new default theme. */
  method ApplyLastSteps(fs: Os.FileSystem, h: FilePathHelper, pf: Platform)
    requires fs.Valid()
    modifies fs
    ensures fs.Valid()
    ensures fs.nodes == Run(old(fs.nodes), ApplySteps(h, pf)[5..])
  {
    ghost var todo := [ RenameStep(h.AddStagingDirPath(Templates), h.AddWorkingDirPath(Templates)),
                        RenameStep(h.AddBackupDirPath(Plugins), h.AddWorkingDirPath(Plugins)),
                        RenameStep(h.AddBackupDirPath(Themes), h.AddWorkingDirPath(Themes)),
                        RemoveStep(h.AddWorkingDirPath(DefaultTheme)),
                        RenameStep(h.AddStagingDirPath(DefaultTheme), h.AddWorkingDirPath(DefaultTheme)) ];
    assert todo == ApplySteps(h, pf)[5..];
    ghost var goal := Run(fs.nodes, todo);
    ghost var before;
    before := fs.nodes;
    var _ := h.StagingToWorking(fs, Templates);
    assert fs.nodes == RunStep(before, todo[0]);
    todo := todo[1..];
    assert goal == Run(fs.nodes, todo);
    before := fs.nodes;
    var _ := h.BackupToWorking(fs, Plugins);
    assert fs.nodes == RunStep(before, todo[0]);
    todo := todo[1..];
    assert goal == Run(fs.nodes, todo);
    before := fs.nodes;
    var _ := h.BackupToWorking(fs, Themes);
    assert fs.nodes == RunStep(before, todo[0]);
    todo := todo[1..];
    assert goal == Run(fs.nodes, todo);
    before := fs.nodes;
    var _ := fs.Remove(h.AddWorkingDirPath(DefaultTheme));
    assert fs.nodes == RunStep(before, todo[0]);
    todo := todo[1..];
    assert goal == Run(fs.nodes, todo);
    before := fs.nodes;
    var _ := h.StagingToWorking(fs, DefaultTheme);
    assert fs.nodes == RunStep(before, todo[0]);
    todo := todo[1..];
    assert goal == Run(fs.nodes, todo);
    assert todo == [];
  }

  /** The part of cmd_update after BasicInstall, on the error BasicInstall returned. */
  method FinishUpdate(fs: Os.FileSystem, h: FilePathHelper, pf: Platform, installErr: Option<Error>)
    requires fs.Valid()
    modifies fs
    ensures fs.Valid()
    ensures fs.nodes == FinishSpec(old(fs.nodes), h, pf, installErr)
  {
    if installErr.Some? {
      Rollback(fs, h, pf);
      return;
    }
    ApplyUpdate(fs, h, pf);
  }

  method CmdUpdate(fs: Os.FileSystem, pf: Platform, args: seq<Path>, fetch: Fetch, unpack: Unpack) returns (err: Option<Error>)
    requires fs.Valid()
    modifies fs
    ensures fs.Valid() && err == None
    ensures fs.nodes == UpdateSpec(old(fs.nodes), pf, args, fetch, unpack)
  {
    if |args| == 0 {
      return None;
    }
    var h := FilePathHelper(args[0]);
    var info := fs.Stat(h.AddWorkingDirPath(Binary(pf)));
    if info.Err? && info.error.NotExist? {
      return None;
    }
    err := fs.Mkdir(h.AddBackupDirPath([]));
    if err.Some? {
      return None;
    }
    Backup(fs, h, pf);
    var installErr := BasicInstall(fs, h.AddStagingDirPath([]), fetch, unpack);
    FinishUpdate(fs, h, pf, installErr);
    return None;
  }

  // ---------------------------------------------------------------------
  // What a step can change.

  /** Running `s` cannot change the entry at `q`. */
  predicate ClearOf(s: Step, q: Path)
  {
    match s
    case MkdirStep(p) => p != q
    case RemoveStep(p) => p != q
    case RenameStep(src, dst) => !(src <= q) && !(dst <= q)
  }

  /** Running `s` cannot change anything in the subtree at `q`. */
  predicate ClearBelow(s: Step, q: Path)
  {
    match s
    case MkdirStep(p) => !(q <= p)
    case RemoveStep(p) => !(q <= p)
    case RenameStep(src, dst) => Disjoint(src, q) && Disjoint(dst, q)
  }

  lemma RunStepWellFormed(fs: FS, s: Step)
    requires WellFormed(fs)
    ensures WellFormed(RunStep(fs, s))
  {
    match s
    case MkdirStep(p) => MkdirWellFormed(fs, p);
    case RemoveStep(p) => RemoveWellFormed(fs, p);
    case RenameStep(src, dst) => RenameWellFormed(fs, src, dst);
  }

  lemma {:induction false} RunWellFormed(fs: FS, steps: seq<Step>)
    requires WellFormed(fs)
    ensures WellFormed(Run(fs, steps))
    decreases |steps|
  {
    if steps != [] {
      RunStepWellFormed(fs, steps[0]);
      RunWellFormed(RunStep(fs, steps[0]), steps[1..]);
    }
  }

  lemma RunStepKeeps(fs: FS, s: Step, q: Path)
    requires WellFormed(fs) && ClearOf(s, q)
    ensures Get(RunStep(fs, s), q) == Get(fs, q)
  {
    if s.RenameStep? {
      RenameFrame(fs, s.src, s.dst);
    }
  }

  /** Steps that cannot change the entry at `q` leave it as it was. */
  lemma {:induction false} RunKeeps(fs: FS, steps: seq<Step>, q: Path)
    requires WellFormed(fs)
    requires forall k :: 0 <= k < |steps| ==> ClearOf(steps[k], q)
    ensures Get(Run(fs, steps), q) == Get(fs, q)
    decreases |steps|
  {
    if steps != [] {
      RunStepKeeps(fs, steps[0], q);
      RunStepWellFormed(fs, steps[0]);
      RunKeeps(RunStep(fs, steps[0]), steps[1..], q);
    }
  }

  lemma ClearBelowClearOf(s: Step, q: Path, r: Path)
    requires ClearBelow(s, q)
    ensures ClearOf(s, q + r)
  {
    if s.RenameStep? {
      if s.src <= q + r {
        PrefixesComparable(s.src, q, q + r);
      }
      if s.dst <= q + r {
        PrefixesComparable(s.dst, q, q + r);
      }
    }
  }

  /** Steps that cannot change the subtree at `q` leave it as it was. */
  lemma RunKeepsTree(fs: FS, steps: seq<Step>, q: Path)
    requires WellFormed(fs)
    requires forall k :: 0 <= k < |steps| ==> ClearBelow(steps[k], q)
    ensures SameTree(Run(fs, steps), q, fs, q)
  {
    forall r
      ensures Get(Run(fs, steps), q + r) == Get(fs, q + r)
    {
      forall k | 0 <= k < |steps|
        ensures ClearOf(steps[k], q + r)
      {
        ClearBelowClearOf(steps[k], q, r);
      }
      RunKeeps(fs, steps, q + r);
    }
  }

  lemma {:induction false} RunAppend(fs: FS, a: seq<Step>, b: seq<Step>)
    ensures Run(fs, a + b) == Run(Run(fs, a), b)
    decreases |a|
  {
    if a != [] {
      assert (a + b)[1..] == a[1..] + b;
      RunAppend(RunStep(fs, a[0]), a[1..], b);
    } else {
      assert a + b == b;
    }
  }

  /** Running a list of steps is running its first `k` steps, step `k`, and the rest. */
  lemma RunSplit(fs: FS, steps: seq<Step>, k: nat)
    requires k < |steps|
    ensures Run(fs, steps) == Run(RunStep(Run(fs, steps[..k]), steps[k]), steps[k + 1..])
  {
    assert steps == steps[..k] + steps[k..];
    RunAppend(fs, steps[..k], steps[k..]);
    assert steps[k..][1..] == steps[k + 1..];
  }

  /**
   * Step `k` renames `src` onto a free name below a directory, and no other
   * step touches the two subtrees before it, or the target subtree after it:
   * in the end the target holds what the source held at the start.
   */
  lemma MovedAt(fs: FS, steps: seq<Step>, k: nat, src: Path, dst: Path)
    requires WellFormed(fs) && k < |steps| && steps[k] == RenameStep(src, dst) && Disjoint(src, dst)
    requires forall j :: 0 <= j < k ==> ClearBelow(steps[j], src) && ClearBelow(steps[j], dst)
    requires forall j :: k < j < |steps| ==> ClearBelow(steps[j], dst)
    requires Gone(fs, dst) && ParentIsDir(Run(fs, steps[..k]), dst)
    ensures SameTree(Run(fs, steps), dst, fs, src)
    ensures (forall j :: k < j < |steps| ==> ClearBelow(steps[j], src)) ==> Gone(Run(fs, steps), src)
  {
    var before := Run(fs, steps[..k]);
    RunWellFormed(fs, steps[..k]);
    RunKeepsTree(fs, steps[..k], src);
    RunKeepsTree(fs, steps[..k], dst);
    assert Get(before, dst + []) == Get(fs, dst + []);
    assert dst + [] == dst;
    RenameIntoFree(before, src, dst);
    var after := RunStep(before, steps[k]);
    RunStepWellFormed(before, steps[k]);
    RunKeepsTree(after, steps[k + 1..], dst);
    RunSplit(fs, steps, k);
    if forall j :: k < j < |steps| ==> ClearBelow(steps[j], src) {
      RunKeepsTree(after, steps[k + 1..], src);
    }
  }

  /** Appending distinct tails to the same directory gives disjoint paths. */
  lemma TailsDisjoint(c: Path)
    ensures forall x: Path, y: Path :: !(x <= y) ==> !(c + x <= c + y)
  {
    forall x: Path, y: Path | c + x <= c + y
      ensures x <= y
    {
      assert x == (c + x)[|c|..] == (c + y)[|c|..|c| + |x|];
    }
  }

  /** Nothing below an empty place. */
  lemma GoneBelow(fs: FS, p: Path, q: Path)
    requires Gone(fs, p) && p <= q
    ensures Gone(fs, q)
  {
    forall r
      ensures Get(fs, q + r) == None
    {
      assert q + r == p + (q[|p|..] + r);
    }
  }

  // ---------------------------------------------------------------------
  // Steps relative to the installation directory.

  function Lift(c: Path, s: Step): Step
  {
    match s
    case MkdirStep(p) => MkdirStep(c + p)
    case RenameStep(a, b) => RenameStep(c + a, c + b)
    case RemoveStep(p) => RemoveStep(c + p)
  }

  function LiftAll(c: Path, steps: seq<Step>): seq<Step>
  {
    seq(|steps|, i requires 0 <= i < |steps| => Lift(c, steps[i]))
  }

  lemma LiftClear(c: Path, s: Step, q: Path)
    ensures ClearBelow(s, q) ==> ClearBelow(Lift(c, s), c + q)
    ensures ClearOf(s, q) ==> ClearOf(Lift(c, s), c + q)
  {
    TailsDisjoint(c);
    forall p: Path | c + p == c + q
      ensures p == q
    {
      assert p == (c + p)[|c|..];
    }
  }

  /** Two paths that differ in some component neither is a prefix of the other. */
  predicate Apart(x: Path, y: Path)
    decreases |x|
  {
    |x| > 0 && |y| > 0 && (x[0] != y[0] || Apart(x[1..], y[1..]))
  }

  lemma {:induction false} ApartDisjoint(x: Path, y: Path)
    requires Apart(x, y)
    ensures Disjoint(x, y)
    decreases |x|
  {
    if x[0] == y[0] {
      ApartDisjoint(x[1..], y[1..]);
    }
  }

  /** A condition on tails, decidable on literal paths, under which `s` keeps the subtree at `q`. */
  predicate SepBelow(s: Step, q: Path)
  {
    match s
    case MkdirStep(p) => Apart(q, p) || |q| > |p|
    case RemoveStep(p) => Apart(q, p) || |q| > |p|
    case RenameStep(a, b) => Apart(a, q) && Apart(b, q)
  }

  /** A condition on tails, decidable on literal paths, under which `s` keeps the entry at `q`. */
  predicate SepOf(s: Step, q: Path)
  {
    match s
    case MkdirStep(p) => Apart(p, q) || |p| != |q|
    case RemoveStep(p) => Apart(p, q) || |p| != |q|
    case RenameStep(a, b) => (Apart(a, q) || |a| > |q|) && (Apart(b, q) || |b| > |q|)
  }

  lemma SepLifted(c: Path, s: Step, q: Path)
    ensures SepBelow(s, q) ==> ClearBelow(Lift(c, s), c + q)
    ensures SepOf(s, q) ==> ClearOf(Lift(c, s), c + q)
  {
    LiftClear(c, s, q);
    match s
    case MkdirStep(p) =>
      if Apart(q, p) { ApartDisjoint(q, p); }
      if Apart(p, q) { ApartDisjoint(p, q); }
    case RemoveStep(p) =>
      if Apart(q, p) { ApartDisjoint(q, p); }
      if Apart(p, q) { ApartDisjoint(p, q); }
    case RenameStep(a, b) =>
      if Apart(a, q) { ApartDisjoint(a, q); }
      if Apart(b, q) { ApartDisjoint(b, q); }
  }

  lemma SepAllLifted(c: Path, steps: seq<Step>, lo: nat, hi: nat, q: Path)
    requires lo <= hi <= |steps|
    requires forall j :: lo <= j < hi ==> SepBelow(steps[j], q)
    ensures forall j :: lo <= j < hi ==> ClearBelow(LiftAll(c, steps)[j], c + q)
  {
    forall j | lo <= j < hi
      ensures ClearBelow(LiftAll(c, steps)[j], c + q)
    {
      SepLifted(c, steps[j], q);
    }
  }

  /** Lifted steps that leave the entry at tail `q` alone keep the entry at `c + q`. */
  lemma KeepsLifted(fs: FS, c: Path, steps: seq<Step>, i: nat, k: nat, q: Path)
    requires WellFormed(fs) && i <= k <= |steps|
    requires forall j :: i <= j < k ==> SepOf(steps[j], q)
    ensures Get(Run(fs, LiftAll(c, steps)[..k]), c + q) == Get(Run(fs, LiftAll(c, steps)[..i]), c + q)
  {
    var l := LiftAll(c, steps);
    var mid := l[i..k];
    assert l[..k] == l[..i] + mid;
    RunAppend(fs, l[..i], mid);
    RunWellFormed(fs, l[..i]);
    LiftedRangeClear(c, steps, i, k, q);
    RunKeeps(Run(fs, l[..i]), mid, c + q);
  }

  /** Lifted steps that keep apart from `q` keep clear of `c + q`. */
  lemma LiftedRangeClear(c: Path, steps: seq<Step>, i: nat, k: nat, q: Path)
    requires i <= k <= |steps|
    requires forall j :: i <= j < k ==> SepOf(steps[j], q)
    ensures forall j :: 0 <= j < k - i ==> ClearOf(LiftAll(c, steps)[i..k][j], c + q)
  {
    var mid := LiftAll(c, steps)[i..k];
    forall j | 0 <= j < |mid|
      ensures ClearOf(mid[j], c + q)
    {
      assert mid[j] == Lift(c, steps[i + j]);
      SepLifted(c, steps[i + j], q);
    }
  }

  /** Lifted steps that leave the subtree at tail `q` alone keep the subtree at `c + q`. */
  lemma KeepsTreeLifted(fs: FS, c: Path, steps: seq<Step>, q: Path)
    requires WellFormed(fs)
    requires forall j :: 0 <= j < |steps| ==> SepBelow(steps[j], q)
    ensures SameTree(Run(fs, LiftAll(c, steps)), c + q, fs, c + q)
  {
    forall j | 0 <= j < |steps|
      ensures ClearBelow(LiftAll(c, steps)[j], c + q)
    {
      SepLifted(c, steps[j], q);
    }
    RunKeepsTree(fs, LiftAll(c, steps), c + q);
  }

  /** `MovedAt` for lifted steps. */
  lemma MovedAtLifted(fs: FS, c: Path, steps: seq<Step>, k: nat, a: Path, b: Path)
    requires WellFormed(fs) && k < |steps| && steps[k] == RenameStep(a, b) && Apart(a, b)
    requires forall j :: 0 <= j < k ==> SepBelow(steps[j], a) && SepBelow(steps[j], b)
    requires forall j :: k < j < |steps| ==> SepBelow(steps[j], b)
    requires Gone(fs, c + b) && ParentIsDir(Run(fs, LiftAll(c, steps)[..k]), c + b)
    ensures SameTree(Run(fs, LiftAll(c, steps)), c + b, fs, c + a)
    ensures (forall j :: k < j < |steps| ==> SepBelow(steps[j], a)) ==> Gone(Run(fs, LiftAll(c, steps)), c + a)
  {
    var l := LiftAll(c, steps);
    TailsDisjoint(c);
    ApartDisjoint(a, b);
    SepAllLifted(c, steps, 0, k, a);
    SepAllLifted(c, steps, 0, k, b);
    SepAllLifted(c, steps, k + 1, |steps|, b);
    if forall j :: k < j < |steps| ==> SepBelow(steps[j], a) {
      SepAllLifted(c, steps, k + 1, |steps|, a);
    }
    MovedAt(fs, l, k, c + a, c + b);
  }

  /** The backup relative to the installation directory. */
  function BackupTails(pf: Platform): seq<Step>
  {
    [ RenameStep([pf.binaryFile], [BACKUP_DIR, pf.binaryFile]),
      RenameStep([CONTENT_DIR], [BACKUP_DIR, CONTENT_DIR]),
      RenameStep([ENV_FILE], [BACKUP_DIR, ENV_FILE]) ]
  }

  lemma BackupLifted(h: FilePathHelper, pf: Platform)
    ensures BackupSteps(h, pf) == LiftAll(h.current, BackupTails(pf))
  {
    assert [BACKUP_DIR] + [pf.binaryFile] == [BACKUP_DIR, pf.binaryFile];
    assert [BACKUP_DIR] + [CONTENT_DIR] == [BACKUP_DIR, CONTENT_DIR];
    assert [BACKUP_DIR] + [ENV_FILE] == [BACKUP_DIR, ENV_FILE];
  }

  /** Each backup step keeps away from the others' paths and from `.bk` itself. */
  lemma BackupTailsSeparate(pf: Platform)
    requires ValidPlatform(pf)
    ensures forall j :: 0 <= j < 3 ==> BackupTails(pf)[j].RenameStep? && Apart(BackupTails(pf)[j].src, BackupTails(pf)[j].dst)
    ensures forall j :: 0 <= j < 3 ==> SepOf(BackupTails(pf)[j], [BACKUP_DIR]) && SepOf(BackupTails(pf)[j], [])
    ensures forall i, j :: 0 <= i < 3 && 0 <= j < 3 && i != j ==>
      SepBelow(BackupTails(pf)[i], BackupTails(pf)[j].src) && SepBelow(BackupTails(pf)[i], BackupTails(pf)[j].dst)
  {
    var b := pf.binaryFile;
    var names := [[b], [CONTENT_DIR], [ENV_FILE], [BACKUP_DIR, b], [BACKUP_DIR, CONTENT_DIR], [BACKUP_DIR, ENV_FILE]];
    forall x, y | 0 <= x < 6 && 0 <= y < 6 && x != y && x % 3 != y % 3
      ensures Apart(names[x], names[y])
    {
    }
    var tails := BackupTails(pf);
    forall i, j | 0 <= i < 3 && 0 <= j < 3 && i != j
      ensures SepBelow(tails[i], tails[j].src) && SepBelow(tails[i], tails[j].dst)
    {
      assert i in {0, 1, 2} && j in {0, 1, 2};
      assert tails[i].src == names[i] && tails[i].dst == names[i + 3];
      assert tails[j].src == names[j] && tails[j].dst == names[j + 3];
    }
  }

  /** The backup and staging directories themselves. */
  lemma PlaceRoots(h: FilePathHelper)
    ensures h.AddBackupDirPath([]) == h.current + [BACKUP_DIR]
    ensures h.AddStagingDirPath([]) == h.current + [STAGING_DIR]
  {
    assert [BACKUP_DIR] + [] == [BACKUP_DIR];
    assert [STAGING_DIR] + [] == [STAGING_DIR];
  }

  lemma PlaceNames(h: FilePathHelper, x: string, y: string)
    ensures h.AddBackupDirPath([x]) == h.current + [BACKUP_DIR, x]
    ensures h.AddStagingDirPath([x]) == h.current + [STAGING_DIR, x]
    ensures h.AddBackupDirPath([x, y]) == h.current + [BACKUP_DIR, x, y]
    ensures h.AddStagingDirPath([x, y]) == h.current + [STAGING_DIR, x, y]
  {
    assert [BACKUP_DIR] + [x] == [BACKUP_DIR, x];
    assert [STAGING_DIR] + [x] == [STAGING_DIR, x];
    assert [BACKUP_DIR] + [x, y] == [BACKUP_DIR, x, y];
    assert [STAGING_DIR] + [x, y] == [STAGING_DIR, x, y];
  }

  // ---------------------------------------------------------------------
  // The backup.

  /** An installation to update: its binary is there and no `.bk` is left over. */
  ghost predicate Installation(fs: FS, h: FilePathHelper, pf: Platform)
  {
    && WellFormed(fs) && ValidPlatform(pf)
    && Get(fs, h.AddWorkingDirPath(Binary(pf))).Some?
    && Get(fs, h.AddBackupDirPath([])) == None
  }

  /**
   * After the backup: the three items are in `.bk` as they were in the
   * installation `fs`, and no longer in the installation directory.
   */
  ghost predicate BackedUp(t: FS, fs: FS, h: FilePathHelper, pf: Platform)
  {
    && WellFormed(t) && ValidPlatform(pf)
    && IsDirAt(t, h.current) && IsDirAt(t, h.AddBackupDirPath([]))
    && Gone(t, h.AddWorkingDirPath(Binary(pf)))
    && Gone(t, h.AddWorkingDirPath(Content))
    && Gone(t, h.AddWorkingDirPath(Env))
    && SameTree(t, h.AddBackupDirPath(Binary(pf)), fs, h.AddWorkingDirPath(Binary(pf)))
    && SameTree(t, h.AddBackupDirPath(Content), fs, h.AddWorkingDirPath(Content))
    && SameTree(t, h.AddBackupDirPath(Env), fs, h.AddWorkingDirPath(Env))
  }

  /** A path outside the three items the backup moves and outside `.bk`. */
  predicate UntouchedByBackup(h: FilePathHelper, pf: Platform, q: Path)
  {
    && !(h.AddWorkingDirPath(Binary(pf)) <= q)
    && !(h.AddWorkingDirPath(Content) <= q)
    && !(h.AddWorkingDirPath(Env) <= q)
    && !(h.AddBackupDirPath([]) <= q)
  }

  /** In an installation `.bk` can be created, and the new `.bk` is empty. */
  lemma BackupDirCreated(fs: FS, h: FilePathHelper, pf: Platform)
    requires Installation(fs, h, pf)
    ensures Mkdir(fs, h.AddBackupDirPath([])).Ok?
    ensures var fs1 := Mkdir(fs, h.AddBackupDirPath([])).value;
      && WellFormed(fs1) && IsDirAt(fs1, h.current) && IsDirAt(fs1, h.AddBackupDirPath([]))
      && (forall x :: x != BACKUP_DIR ==> SameTree(fs1, h.current + [x], fs, h.current + [x]))
      && (forall x :: Gone(fs1, h.current + [BACKUP_DIR, x]))
      && (forall q :: !(h.AddBackupDirPath([]) <= q) ==> Get(fs1, q) == Get(fs, q))
  {
    var c := h.current;
    PlaceRoots(h);
    var bk := c + [BACKUP_DIR];
    assert Parent(c + [pf.binaryFile]) == c;
    assert ParentIsDir(fs, c + [pf.binaryFile]);
    assert Parent(bk) == c;
    var fs1 := Mkdir(fs, bk).value;
    MkdirWellFormed(fs, bk);
    AbsentIsGone(fs, bk);
    forall x | x != BACKUP_DIR
      ensures SameTree(fs1, c + [x], fs, c + [x])
    {
      forall r
        ensures Get(fs1, c + [x] + r) == Get(fs, c + [x] + r)
      {
        assert (c + [x] + r)[|c|] == x != bk[|c|];
      }
    }
    forall x
      ensures Gone(fs1, c + [BACKUP_DIR, x])
    {
      assert bk <= c + [BACKUP_DIR, x];
      GoneBelow(fs, bk, c + [BACKUP_DIR, x]);
      forall r
        ensures Get(fs1, c + [BACKUP_DIR, x] + r) == None
      {
        assert |c + [BACKUP_DIR, x] + r| > |bk|;
      }
    }
  }

  /**
   * Creating `.bk` in an installation succeeds, and the backup then moves
   * exactly the binary, `content` and `.env` into it.
   */
  lemma BackupMoves(fs: FS, h: FilePathHelper, pf: Platform)
    requires Installation(fs, h, pf)
    ensures Mkdir(fs, h.AddBackupDirPath([])).Ok?
    ensures var t := Run(Mkdir(fs, h.AddBackupDirPath([])).value, BackupSteps(h, pf));
      && BackedUp(t, fs, h, pf)
      && forall q :: UntouchedByBackup(h, pf, q) ==> Get(t, q) == Get(fs, q)
  {
    BackupMovesItems(fs, h, pf);
    BackupFrame(fs, h, pf);
  }

  /** The k-th backup rename carries item `x` of the current directory into `.bk`. */
  lemma BackupItem(fs: FS, h: FilePathHelper, pf: Platform, k: nat, x: string)
    requires Installation(fs, h, pf) && k < 3 && x != BACKUP_DIR
    requires BackupTails(pf)[k] == RenameStep([x], [BACKUP_DIR, x])
    ensures Mkdir(fs, h.AddBackupDirPath([])).Ok?
    ensures var t := Run(Mkdir(fs, h.AddBackupDirPath([])).value, LiftAll(h.current, BackupTails(pf)));
      SameTree(t, h.current + [BACKUP_DIR, x], fs, h.current + [x]) && Gone(t, h.current + [x])
  {
    var c := h.current;
    BackupDirCreated(fs, h, pf);
    PlaceRoots(h);
    var bk := c + [BACKUP_DIR];
    var fs1 := Mkdir(fs, bk).value;
    var tails := BackupTails(pf);
    var l := LiftAll(c, tails);
    assert l[..0] == [];
    assert Parent(c + [BACKUP_DIR, x]) == bk;
    BackupTailsSeparate(pf);
    KeepsLifted(fs1, c, tails, 0, k, [BACKUP_DIR]);
    MovedAtLifted(fs1, c, tails, k, [x], [BACKUP_DIR, x]);
    assert SameTree(fs1, c + [x], fs, c + [x]);
  }

  lemma BackupMovesItems(fs: FS, h: FilePathHelper, pf: Platform)
    requires Installation(fs, h, pf)
    ensures Mkdir(fs, h.AddBackupDirPath([])).Ok?
    ensures BackedUp(Run(Mkdir(fs, h.AddBackupDirPath([])).value, BackupSteps(h, pf)), fs, h, pf)
  {
    var c := h.current;
    var b := pf.binaryFile;
    BackupDirCreated(fs, h, pf);
    PlaceRoots(h);
    PlaceNames(h, b, "");
    PlaceNames(h, CONTENT_DIR, "");
    PlaceNames(h, ENV_FILE, "");
    var fs1 := Mkdir(fs, c + [BACKUP_DIR]).value;
    var tails := BackupTails(pf);
    BackupLifted(h, pf);
    var l := LiftAll(c, tails);
    BackupItem(fs, h, pf, 0, b);
    BackupItem(fs, h, pf, 1, CONTENT_DIR);
    BackupItem(fs, h, pf, 2, ENV_FILE);
    BackupTailsSeparate(pf);
    RunWellFormed(fs1, l);
    assert l[..3] == l;
    assert l[..0] == [];
    KeepsLifted(fs1, c, tails, 0, 3, [BACKUP_DIR]);
    KeepsLifted(fs1, c, tails, 0, 3, []);
    assert c + [] == c;
  }

  lemma BackupFrame(fs: FS, h: FilePathHelper, pf: Platform)
    requires Installation(fs, h, pf)
    ensures Mkdir(fs, h.AddBackupDirPath([])).Ok?
    ensures var t := Run(Mkdir(fs, h.AddBackupDirPath([])).value, BackupSteps(h, pf));
      forall q :: UntouchedByBackup(h, pf, q) ==> Get(t, q) == Get(fs, q)
  {
    BackupDirCreated(fs, h, pf);
    PlaceRoots(h);
    var fs1 := Mkdir(fs, h.AddBackupDirPath([])).value;
    var l := BackupSteps(h, pf);
    forall q | UntouchedByBackup(h, pf, q)
      ensures Get(Run(fs1, l), q) == Get(fs, q)
    {
      forall j | 0 <= j < |l|
        ensures ClearOf(l[j], q)
      {
      }
      RunKeeps(fs1, l, q);
    }
  }

  lemma LiftApart(c: Path, x: Path, y: Path)
    requires Apart(x, y)
    ensures Disjoint(c + x, c + y)
  {
    ApartDisjoint(x, y);
    TailsDisjoint(c);
  }

  // ---------------------------------------------------------------------
  // When nothing happens.

  /**
   * Without an argument, without a binary in the installation directory, or
   * with `.bk` left over from an earlier run, the update changes nothing.
   */
  lemma UpdateNeedsInstallation(fs: FS, pf: Platform, args: seq<Path>, fetch: Fetch, unpack: Unpack)
    requires WellFormed(fs)
    ensures args == [] ==> UpdateSpec(fs, pf, args, fetch, unpack) == fs
    ensures args != [] && Get(fs, FilePathHelper(args[0]).AddWorkingDirPath(Binary(pf))) == None ==>
      UpdateSpec(fs, pf, args, fetch, unpack) == fs
    ensures args != [] && Get(fs, FilePathHelper(args[0]).AddBackupDirPath([])).Some? ==>
      UpdateSpec(fs, pf, args, fetch, unpack) == fs
  {
    if args != [] {
      var h := FilePathHelper(args[0]);
      var c := h.current;
      var bin := h.AddWorkingDirPath(Binary(pf));
      PlaceRoots(h);
      var bk := c + [BACKUP_DIR];
      if Get(fs, bin) == None && Blocked(fs, bin) {
        var i :| 0 < i < |bin| && IsFileAt(fs, bin[..i]);
        assert bin[..i] <= c;
        assert Parent(bk) == c;
        if bin[..i] == c {
          assert !ParentIsDir(fs, bk);
        } else {
          NothingBelowNonDir(fs, bin[..i], c);
          assert !ParentIsDir(fs, bk);
        }
      }
    }
  }

  // ---------------------------------------------------------------------
  // The install into `.staging`.

  /** The install into `.staging` changes nothing outside `.staging`. */
  lemma InstallStaysInStaging(t: FS, h: FilePathHelper, fetch: Fetch, unpack: Unpack)
    requires WellFormed(t) && IsDirAt(t, h.current)
    ensures var s := BasicInstallSpec(t, h.AddStagingDirPath([]), fetch, unpack).fs;
      && WellFormed(s)
      && forall q :: !(h.AddStagingDirPath([]) <= q) ==> Get(s, q) == Get(t, q)
  {
    var c := h.current;
    PlaceRoots(h);
    var st := c + [STAGING_DIR];
    var s := BasicInstallSpec(t, st, fetch, unpack).fs;
    BasicInstallConfined(t, st, fetch, unpack);
    forall q | !(st <= q)
      ensures Get(s, q) == Get(t, q)
    {
      if Get(s, q) != Get(t, q) {
        assert q < st;
        assert q <= c by {
          assert q == st[..|q|];
        }
        if q != c && q != [] {
          AncestorIsDirOfDir(t, c, q);
        }
        assert false;
      }
    }
  }

  /** A subtree apart from `.staging` survives the install. */
  lemma SubtreeSurvivesInstall(t: FS, s: FS, h: FilePathHelper, x: Path)
    requires forall q :: !(h.AddStagingDirPath([]) <= q) ==> Get(s, q) == Get(t, q)
    requires Apart(x, [STAGING_DIR])
    ensures SameTree(s, h.current + x, t, h.current + x)
  {
    var c := h.current;
    PlaceRoots(h);
    LiftApart(c, x, [STAGING_DIR]);
    forall r
      ensures Get(s, c + x + r) == Get(t, c + x + r)
    {
      if c + [STAGING_DIR] <= c + x + r {
        PrefixesComparable(c + x, c + [STAGING_DIR], c + x + r);
        assert false;
      }
    }
  }

  /** The backed-up state survives the install. */
  lemma InstallKeepsBackup(t: FS, fs: FS, h: FilePathHelper, pf: Platform, fetch: Fetch, unpack: Unpack)
    requires BackedUp(t, fs, h, pf)
    ensures BackedUp(BasicInstallSpec(t, h.AddStagingDirPath([]), fetch, unpack).fs, fs, h, pf)
  {
    var c := h.current;
    var b := pf.binaryFile;
    InstallStaysInStaging(t, h, fetch, unpack);
    var s := BasicInstallSpec(t, h.AddStagingDirPath([]), fetch, unpack).fs;
    PlaceRoots(h);
    PlaceNames(h, b, "");
    PlaceNames(h, CONTENT_DIR, "");
    PlaceNames(h, ENV_FILE, "");
    assert c + [] == c;
    SubtreeSurvivesInstall(t, s, h, [BACKUP_DIR]);
    assert Get(s, c + [BACKUP_DIR] + []) == Get(t, c + [BACKUP_DIR] + []);
    SubtreeSurvivesInstall(t, s, h, [b]);
    SubtreeSurvivesInstall(t, s, h, [CONTENT_DIR]);
    SubtreeSurvivesInstall(t, s, h, [ENV_FILE]);
    SubtreeSurvivesInstall(t, s, h, [BACKUP_DIR, b]);
    SubtreeSurvivesInstall(t, s, h, [BACKUP_DIR, CONTENT_DIR]);
    SubtreeSurvivesInstall(t, s, h, [BACKUP_DIR, ENV_FILE]);
    assert !(c + [STAGING_DIR] <= c);
  }

  // ---------------------------------------------------------------------
  // Applying the update.

  /** The apply steps relative to the installation directory. */
  function ApplyTails(pf: Platform): seq<Step>
  {
    [ RenameStep([STAGING_DIR, pf.binaryFile], [pf.binaryFile]),
      RenameStep([BACKUP_DIR, ENV_FILE], [ENV_FILE]),
      MkdirStep([CONTENT_DIR]),
      RenameStep([STAGING_DIR, CONTENT_DIR, DOCS_DIR], [CONTENT_DIR, DOCS_DIR]),
      RenameStep([STAGING_DIR, CONTENT_DIR, GOCMS_ADMIN_DIR], [CONTENT_DIR, GOCMS_ADMIN_DIR]),
      RenameStep([STAGING_DIR, CONTENT_DIR, TEMPLATES_DIR], [CONTENT_DIR, TEMPLATES_DIR]),
      RenameStep([BACKUP_DIR, CONTENT_DIR, PLUGINS_DIR], [CONTENT_DIR, PLUGINS_DIR]),
      RenameStep([BACKUP_DIR, CONTENT_DIR, THEMES_DIR], [CONTENT_DIR, THEMES_DIR]),
      RemoveStep([CONTENT_DIR, THEMES_DIR, THEMES_DEFAULT_DIR]),
      RenameStep([STAGING_DIR, CONTENT_DIR, THEMES_DIR, THEMES_DEFAULT_DIR], [CONTENT_DIR, THEMES_DIR, THEMES_DEFAULT_DIR]) ]
  }

  lemma ApplyLifted(h: FilePathHelper, pf: Platform)
    ensures ApplySteps(h, pf) == LiftAll(h.current, ApplyTails(pf))
  {
    PlaceNames(h, pf.binaryFile, "");
    PlaceNames(h, ENV_FILE, "");
    PlaceNames(h, CONTENT_DIR, DOCS_DIR);
    PlaceNames(h, CONTENT_DIR, GOCMS_ADMIN_DIR);
    PlaceNames(h, CONTENT_DIR, TEMPLATES_DIR);
    PlaceNames(h, CONTENT_DIR, PLUGINS_DIR);
    PlaceNames(h, CONTENT_DIR, THEMES_DIR);
    assert [STAGING_DIR] + DefaultTheme == [STAGING_DIR, CONTENT_DIR, THEMES_DIR, THEMES_DEFAULT_DIR];
  }

  /**
   * The moves at steps 0, 1 and 3 to 6 keep clear of the others: no step
   * before touches their source or target, and no step after their target.
   */
  lemma ApplyTailsSeparate(pf: Platform, k: nat)
    requires ValidPlatform(pf) && k in {0, 1, 3, 4, 5, 6}
    ensures ApplyTails(pf)[k].RenameStep? && Apart(ApplyTails(pf)[k].src, ApplyTails(pf)[k].dst)
    ensures forall j :: 0 <= j < k ==> SepBelow(ApplyTails(pf)[j], ApplyTails(pf)[k].src) && SepBelow(ApplyTails(pf)[j], ApplyTails(pf)[k].dst)
    ensures forall j :: k < j < 10 ==> SepBelow(ApplyTails(pf)[j], ApplyTails(pf)[k].dst)
  {
    var tails := ApplyTails(pf);
    forall j | 0 <= j < 10
      ensures j < k ==> SepBelow(tails[j], tails[k].src) && SepBelow(tails[j], tails[k].dst)
      ensures k < j ==> SepBelow(tails[j], tails[k].dst)
    {
      assert j in {0, 1, 2, 3, 4, 5, 6, 7, 8, 9};
    }
  }

  lemma RunStepAfter(fs: FS, steps: seq<Step>, k: nat)
    requires k < |steps|
    ensures Run(fs, steps[..k + 1]) == RunStep(Run(fs, steps[..k]), steps[k])
  {
    assert steps[..k + 1] == steps[..k] + [steps[k]];
    RunAppend(fs, steps[..k], [steps[k]]);
  }

  lemma SameTreeBelow(a: FS, p: Path, b: FS, q: Path, x: Path)
    requires SameTree(a, p, b, q)
    ensures SameTree(a, p + x, b, q + x)
  {
    forall r
      ensures Get(a, p + x + r) == Get(b, q + x + r)
    {
      assert p + x + r == p + (x + r);
      assert q + x + r == q + (x + r);
    }
  }

  /** The installation directory stays a directory throughout the apply steps. */
  lemma ApplyKeepsInstallDir(s: FS, h: FilePathHelper, pf: Platform, k: nat)
    requires WellFormed(s) && IsDirAt(s, h.current) && k <= 10
    ensures IsDirAt(Run(s, LiftAll(h.current, ApplyTails(pf))[..k]), h.current)
  {
    var tails := ApplyTails(pf);
    forall j | 0 <= j < k
      ensures SepOf(tails[j], [])
    {
      assert j in {0, 1, 2, 3, 4, 5, 6, 7, 8, 9};
    }
    KeepsLifted(s, h.current, tails, 0, k, []);
    assert h.current + [] == h.current;
  }

  /** Steps 0 and 1 leave `content` absent. */
  lemma ApplyLeavesContentFree(s: FS, c: Path, pf: Platform)
    requires WellFormed(s) && ValidPlatform(pf) && Get(s, c + [CONTENT_DIR]) == None
    ensures Get(Run(s, LiftAll(c, ApplyTails(pf))[..2]), c + [CONTENT_DIR]) == None
  {
    var tails := ApplyTails(pf);
    forall j | 0 <= j < 2
      ensures SepOf(tails[j], [CONTENT_DIR])
    {
      assert j in {0, 1};
    }
    KeepsLifted(s, c, tails, 0, 2, [CONTENT_DIR]);
    assert LiftAll(c, tails)[..0] == [];
  }

  /** Step 2 makes `content` a directory. */
  lemma ApplyMakesContentDir(s: FS, c: Path, pf: Platform)
    requires WellFormed(s) && ValidPlatform(pf) && IsDirAt(s, c) && Get(s, c + [CONTENT_DIR]) == None
    ensures IsDirAt(Run(s, LiftAll(c, ApplyTails(pf))[..3]), c + [CONTENT_DIR])
  {
    var l := LiftAll(c, ApplyTails(pf));
    var cd := c + [CONTENT_DIR];
    ApplyLeavesContentFree(s, c, pf);
    ApplyKeepsInstallDir(s, FilePathHelper(c), pf, 2);
    var before := Run(s, l[..2]);
    assert Parent(cd) == c;
    RunStepAfter(s, l, 2);
    assert l[2] == MkdirStep(cd);
    assert Mkdir(before, cd) == Ok(before[cd := Dir]);
  }

  /** From step 3 to step 7, `content` is a directory. */
  lemma ApplyKeepsContentDir(s: FS, c: Path, pf: Platform, k: nat)
    requires WellFormed(s) && ValidPlatform(pf) && IsDirAt(s, c) && Get(s, c + [CONTENT_DIR]) == None && 3 <= k <= 8
    ensures IsDirAt(Run(s, LiftAll(c, ApplyTails(pf))[..k]), c + [CONTENT_DIR])
  {
    var tails := ApplyTails(pf);
    ApplyMakesContentDir(s, c, pf);
    forall j | 3 <= j < k
      ensures SepOf(tails[j], [CONTENT_DIR])
    {
      assert j in {3, 4, 5, 6, 7};
    }
    KeepsLifted(s, c, tails, 3, k, [CONTENT_DIR]);
  }

  /** Each of the moves at steps 0, 1 and 3 to 6 carries its source's subtree to its target. */
  lemma ApplyMove(s: FS, c: Path, pf: Platform, k: nat)
    requires WellFormed(s) && ValidPlatform(pf) && k in {0, 1, 3, 4, 5, 6}
    requires Gone(s, c + ApplyTails(pf)[k].dst)
    requires ParentIsDir(Run(s, LiftAll(c, ApplyTails(pf))[..k]), c + ApplyTails(pf)[k].dst)
    ensures SameTree(Run(s, LiftAll(c, ApplyTails(pf))), c + ApplyTails(pf)[k].dst, s, c + ApplyTails(pf)[k].src)
  {
    var tails := ApplyTails(pf);
    ApplyTailsSeparate(pf, k);
    MovedAtLifted(s, c, tails, k, tails[k].src, tails[k].dst);
  }

  /** The new binary comes from `.staging`. */
  lemma ApplyNewBinary(s: FS, fs0: FS, h: FilePathHelper, pf: Platform)
    requires BackedUp(s, fs0, h, pf)
    ensures SameTree(Run(s, ApplySteps(h, pf)), h.AddWorkingDirPath(Binary(pf)), s, h.AddStagingDirPath(Binary(pf)))
  {
    var c := h.current;
    ApplyLifted(h, pf);
    PlaceNames(h, pf.binaryFile, "");
    assert LiftAll(c, ApplyTails(pf))[..0] == [];
    assert Parent(c + [pf.binaryFile]) == c;
    ApplyMove(s, c, pf, 0);
  }

  /** The user's `.env` is back, as it was before the update. */
  lemma ApplyRestoresEnv(s: FS, fs0: FS, h: FilePathHelper, pf: Platform)
    requires BackedUp(s, fs0, h, pf)
    ensures SameTree(Run(s, ApplySteps(h, pf)), h.AddWorkingDirPath(Env), fs0, h.AddWorkingDirPath(Env))
  {
    var c := h.current;
    var tails := ApplyTails(pf);
    ApplyLifted(h, pf);
    PlaceNames(h, ENV_FILE, "");
    assert tails[1] == RenameStep([BACKUP_DIR, ENV_FILE], [ENV_FILE]);
    assert Gone(s, c + [ENV_FILE]);
    ApplyKeepsInstallDir(s, h, pf, 1);
    assert Parent(c + [ENV_FILE]) == c;
    assert ParentIsDir(Run(s, LiftAll(c, tails)[..1]), c + tails[1].dst);
    ApplyMove(s, c, pf, 1);
    var final := Run(s, LiftAll(c, tails));
    SameTreeTrans(final, c + [ENV_FILE], s, c + [BACKUP_DIR, ENV_FILE], fs0, c + [ENV_FILE]);
  }

  /** The moves at steps 3 to 6 into the fresh `content` directory. */
  lemma ApplyContentMove(s: FS, c: Path, pf: Platform, k: nat)
    requires WellFormed(s) && ValidPlatform(pf) && IsDirAt(s, c) && Gone(s, c + [CONTENT_DIR]) && 3 <= k <= 6
    ensures SameTree(Run(s, LiftAll(c, ApplyTails(pf))), c + ApplyTails(pf)[k].dst, s, c + ApplyTails(pf)[k].src)
  {
    var cd := c + [CONTENT_DIR];
    var dst := c + ApplyTails(pf)[k].dst;
    assert ApplyTails(pf)[k].dst == [CONTENT_DIR, ApplyTails(pf)[k].dst[1]];
    assert Get(s, cd + []) == None;
    assert cd + [] == cd;
    assert cd <= dst;
    GoneBelow(s, cd, dst);
    assert Parent(dst) == cd;
    ApplyKeepsContentDir(s, c, pf, k);
    ApplyMove(s, c, pf, k);
  }

  /** `content/docs`, `content/gocms` and `content/templates` come from `.staging`. */
  lemma ApplyNewContent(s: FS, fs0: FS, h: FilePathHelper, pf: Platform)
    requires BackedUp(s, fs0, h, pf)
    ensures var final := Run(s, ApplySteps(h, pf));
      && SameTree(final, h.AddWorkingDirPath(Docs), s, h.AddStagingDirPath(Docs))
      && SameTree(final, h.AddWorkingDirPath(Admin), s, h.AddStagingDirPath(Admin))
      && SameTree(final, h.AddWorkingDirPath(Templates), s, h.AddStagingDirPath(Templates))
  {
    var c := h.current;
    ApplyLifted(h, pf);
    PlaceNames(h, CONTENT_DIR, DOCS_DIR);
    PlaceNames(h, CONTENT_DIR, GOCMS_ADMIN_DIR);
    PlaceNames(h, CONTENT_DIR, TEMPLATES_DIR);
    ApplyContentMove(s, c, pf, 3);
    ApplyContentMove(s, c, pf, 4);
    ApplyContentMove(s, c, pf, 5);
  }

  /** The user's plugins are back, as they were before the update. */
  lemma ApplyKeepsPlugins(s: FS, fs0: FS, h: FilePathHelper, pf: Platform)
    requires BackedUp(s, fs0, h, pf)
    ensures SameTree(Run(s, ApplySteps(h, pf)), h.AddWorkingDirPath(Plugins), fs0, h.AddWorkingDirPath(Plugins))
  {
    var c := h.current;
    ApplyLifted(h, pf);
    PlaceNames(h, CONTENT_DIR, PLUGINS_DIR);
    ApplyContentMove(s, c, pf, 6);
    PlaceNames(h, CONTENT_DIR, "");
    SameTreeBelow(s, c + [BACKUP_DIR, CONTENT_DIR], fs0, c + [CONTENT_DIR], [PLUGINS_DIR]);
    assert c + [BACKUP_DIR, CONTENT_DIR] + [PLUGINS_DIR] == c + [BACKUP_DIR, CONTENT_DIR, PLUGINS_DIR];
    assert c + [CONTENT_DIR] + [PLUGINS_DIR] == c + [CONTENT_DIR, PLUGINS_DIR];
  }

  lemma DifferAt(p: Path, q: Path, i: nat)
    requires i < |p| && i < |q| && p[i] != q[i]
    ensures Disjoint(p, q)
  {
    assert p[..i + 1][i] != q[..i + 1][i];
  }

  /** Steps 0 to 6 keep away from the themes directory in `.bk` and in the installation. */
  lemma ThemesTailsSeparate(pf: Platform)
    requires ValidPlatform(pf)
    ensures forall j :: 0 <= j < 7 ==>
      SepBelow(ApplyTails(pf)[j], [BACKUP_DIR, CONTENT_DIR, THEMES_DIR]) && SepBelow(ApplyTails(pf)[j], [CONTENT_DIR, THEMES_DIR])
  {
    var tails := ApplyTails(pf);
    forall j | 0 <= j < 7
      ensures SepBelow(tails[j], [BACKUP_DIR, CONTENT_DIR, THEMES_DIR]) && SepBelow(tails[j], [CONTENT_DIR, THEMES_DIR])
    {
      assert j in {0, 1, 2, 3, 4, 5, 6};
    }
  }

  /** Step 7 moves the backed-up themes back; steps 8 and 9 follow. */
  lemma ApplyThemesMoved(s: FS, c: Path, pf: Platform)
    requires WellFormed(s) && ValidPlatform(pf) && IsDirAt(s, c) && Gone(s, c + [CONTENT_DIR])
    ensures SameTree(Run(s, LiftAll(c, ApplyTails(pf))[..8]), c + [CONTENT_DIR, THEMES_DIR],
                     s, c + [BACKUP_DIR, CONTENT_DIR, THEMES_DIR])
  {
    var tails := ApplyTails(pf);
    var l := LiftAll(c, tails);
    var first := tails[..8];
    assert LiftAll(c, first) == l[..8];
    assert LiftAll(c, first)[..7] == l[..7];
    var cd := c + [CONTENT_DIR];
    var dst := c + [CONTENT_DIR, THEMES_DIR];
    assert Get(s, cd + []) == None;
    assert cd + [] == cd;
    assert cd <= dst;
    GoneBelow(s, cd, dst);
    assert Parent(dst) == cd;
    ApplyKeepsContentDir(s, c, pf, 7);
    ThemesTailsSeparate(pf);
    MovedAtLifted(s, c, first, 7, [BACKUP_DIR, CONTENT_DIR, THEMES_DIR], [CONTENT_DIR, THEMES_DIR]);
  }

  /** After step 7 the themes directory is the user's, as it was before the update. */
  lemma ThemesBeforeDefault(s: FS, fs0: FS, h: FilePathHelper, pf: Platform)
    requires BackedUp(s, fs0, h, pf)
    ensures SameTree(Run(s, LiftAll(h.current, ApplyTails(pf))[..8]), h.AddWorkingDirPath(Themes), fs0, h.AddWorkingDirPath(Themes))
  {
    var c := h.current;
    ApplyThemesMoved(s, c, pf);
    PlaceNames(h, CONTENT_DIR, "");
    SameTreeBelow(s, c + [BACKUP_DIR, CONTENT_DIR], fs0, c + [CONTENT_DIR], [THEMES_DIR]);
    assert c + [BACKUP_DIR, CONTENT_DIR] + [THEMES_DIR] == c + [BACKUP_DIR, CONTENT_DIR, THEMES_DIR];
    assert c + [CONTENT_DIR] + [THEMES_DIR] == c + [CONTENT_DIR, THEMES_DIR];
  }

  /** The apply steps are the first eight, then the removal and the rename of the default theme. */
  lemma ApplyLastTwo(s: FS, c: Path, pf: Platform)
    ensures var l := LiftAll(c, ApplyTails(pf));
      Run(s, l) == RunStep(RunStep(Run(s, l[..8]), l[8]), l[9])
  {
    var l := LiftAll(c, ApplyTails(pf));
    assert l == l[..8] + [l[8], l[9]];
    RunAppend(s, l[..8], [l[8], l[9]]);
    var a8 := Run(s, l[..8]);
    assert [l[8], l[9]][1..] == [l[9]];
    assert [l[9]][1..] == [];
    assert Run(a8, [l[8], l[9]]) == Run(RunStep(a8, l[8]), [l[9]]);
    assert Run(RunStep(a8, l[8]), [l[9]]) == Run(RunStep(RunStep(a8, l[8]), l[9]), []);
  }

  /** Removing and renaming the default theme leaves the other themes alone. */
  lemma DefaultStepsKeepOthers(a: FS, c: Path, pf: Platform, r: Path)
    requires WellFormed(a) && (r == [] || r[0] != THEMES_DEFAULT_DIR)
    ensures var l := LiftAll(c, ApplyTails(pf));
      Get(RunStep(RunStep(a, l[8]), l[9]), c + Themes + r) == Get(a, c + Themes + r)
  {
    var l := LiftAll(c, ApplyTails(pf));
    var def := c + [CONTENT_DIR, THEMES_DIR, THEMES_DEFAULT_DIR];
    var src := c + [STAGING_DIR, CONTENT_DIR, THEMES_DIR, THEMES_DEFAULT_DIR];
    var q := c + Themes + r;
    assert l[8] == RemoveStep(def) && l[9] == RenameStep(src, def);
    assert q[|c|] == CONTENT_DIR;
    DifferAt(src, q, |c|);
    if r != [] {
      assert q[|c| + 2] == r[0];
      DifferAt(def, q, |c| + 2);
    }
    RunStepKeeps(a, l[8], q);
    RunStepWellFormed(a, l[8]);
    RunStepKeeps(RunStep(a, l[8]), l[9], q);
  }

  /** Every theme except the default one is the user's, as it was before the update. */
  lemma ApplyKeepsThemes(s: FS, fs0: FS, h: FilePathHelper, pf: Platform)
    requires BackedUp(s, fs0, h, pf)
    ensures forall r :: r == [] || r[0] != THEMES_DEFAULT_DIR ==>
      Get(Run(s, ApplySteps(h, pf)), h.AddWorkingDirPath(Themes) + r) == Get(fs0, h.AddWorkingDirPath(Themes) + r)
  {
    var c := h.current;
    var l := LiftAll(c, ApplyTails(pf));
    ApplyLifted(h, pf);
    ThemesBeforeDefault(s, fs0, h, pf);
    ApplyLastTwo(s, c, pf);
    var a8 := Run(s, l[..8]);
    RunWellFormed(s, l[..8]);
    forall r | r == [] || r[0] != THEMES_DEFAULT_DIR
      ensures Get(Run(s, l), c + Themes + r) == Get(fs0, c + Themes + r)
    {
      DefaultStepsKeepOthers(a8, c, pf, r);
    }
  }

  /** A user's default theme that is a non-empty directory survives the update. */
  lemma ApplyKeepsNonEmptyDefault(s: FS, fs0: FS, h: FilePathHelper, pf: Platform)
    requires BackedUp(s, fs0, h, pf) && WellFormed(fs0) && HasDescendant(fs0, h.AddWorkingDirPath(DefaultTheme))
    ensures SameTree(Run(s, ApplySteps(h, pf)), h.AddWorkingDirPath(DefaultTheme), fs0, h.AddWorkingDirPath(DefaultTheme))
  {
    var c := h.current;
    var l := LiftAll(c, ApplyTails(pf));
    ApplyLifted(h, pf);
    ThemesBeforeDefault(s, fs0, h, pf);
    ApplyLastTwo(s, c, pf);
    var a8 := Run(s, l[..8]);
    var def := c + DefaultTheme;
    assert c + Themes + [THEMES_DEFAULT_DIR] == def;
    SameTreeBelow(a8, c + Themes, fs0, c + Themes, [THEMES_DEFAULT_DIR]);
    var q :| q in fs0 && def < q;
    assert q == def + q[|def|..];
    assert q in a8;
    AncestorIsDir(fs0, q, def);
    assert def + [] == def;
    assert IsDirAt(a8, def);
    assert l[8] == RemoveStep(def);
    assert Remove(a8, def).Err?;
  }

  /** Removing a path with nothing below it leaves nothing at or below it and changes nothing else. */
  lemma RemoveLeaf(a: FS, p: Path)
    requires WellFormed(a) && p != [] && forall r :: r != [] ==> Get(a, p + r) == None
    ensures Gone(Apply(a, Remove(a, p)), p)
    ensures forall q :: q != p ==> Get(Apply(a, Remove(a, p)), q) == Get(a, q)
  {
    forall q | p < q
      ensures q !in a
    {
      assert q == p + q[|p|..];
    }
    forall r
      ensures Get(Apply(a, Remove(a, p)), p + r) == None
    {
      if r == [] {
        assert p + r == p;
      }
    }
  }

  /** Steps 0 to 8 leave the new default theme in `.staging` alone. */
  lemma StagedDefaultKept(s: FS, c: Path, pf: Platform)
    requires WellFormed(s) && ValidPlatform(pf)
    ensures SameTree(Run(s, LiftAll(c, ApplyTails(pf))[..9]), c + [STAGING_DIR, CONTENT_DIR, THEMES_DIR, THEMES_DEFAULT_DIR],
                     s, c + [STAGING_DIR, CONTENT_DIR, THEMES_DIR, THEMES_DEFAULT_DIR])
  {
    var tails := ApplyTails(pf);
    var first := tails[..9];
    assert LiftAll(c, first) == LiftAll(c, tails)[..9];
    forall j | 0 <= j < 9
      ensures SepBelow(first[j], [STAGING_DIR, CONTENT_DIR, THEMES_DIR, THEMES_DEFAULT_DIR])
    {
      assert j in {0, 1, 2, 3, 4, 5, 6, 7, 8};
    }
    KeepsTreeLifted(s, c, first, [STAGING_DIR, CONTENT_DIR, THEMES_DIR, THEMES_DEFAULT_DIR]);
  }

  /**
   * Where the user had a themes directory whose default theme is missing,
   * a file or an empty directory, the default theme is the new release's.
   */
  lemma ApplyInstallsDefault(s: FS, fs0: FS, h: FilePathHelper, pf: Platform)
    requires BackedUp(s, fs0, h, pf) && WellFormed(fs0)
    requires IsDirAt(fs0, h.AddWorkingDirPath(Themes)) && !HasDescendant(fs0, h.AddWorkingDirPath(DefaultTheme))
    ensures SameTree(Run(s, ApplySteps(h, pf)), h.AddWorkingDirPath(DefaultTheme), s, h.AddStagingDirPath(DefaultTheme))
  {
    var c := h.current;
    var l := LiftAll(c, ApplyTails(pf));
    ApplyLifted(h, pf);
    ThemesBeforeDefault(s, fs0, h, pf);
    ApplyLastTwo(s, c, pf);
    var a8 := Run(s, l[..8]);
    RunWellFormed(s, l[..8]);
    var def := c + DefaultTheme;
    var src := c + [STAGING_DIR, CONTENT_DIR, THEMES_DIR, THEMES_DEFAULT_DIR];
    assert [STAGING_DIR] + DefaultTheme == [STAGING_DIR, CONTENT_DIR, THEMES_DIR, THEMES_DEFAULT_DIR];
    assert c + Themes + [THEMES_DEFAULT_DIR] == def;
    SameTreeBelow(a8, c + Themes, fs0, c + Themes, [THEMES_DEFAULT_DIR]);
    forall r | r != []
      ensures Get(a8, def + r) == None
    {
      assert def < def + r;
    }
    assert l[8] == RemoveStep(def) && l[9] == RenameStep(src, def);
    RemoveLeaf(a8, def);
    var a9 := RunStep(a8, l[8]);
    RunStepWellFormed(a8, l[8]);
    assert c + Themes + [] == c + Themes;
    assert IsDirAt(a9, c + Themes);
    assert Parent(def) == c + Themes;
    assert def + [] == def;
    DifferAt(src, def, |c|);
    RenameIntoFree(a9, src, def);
    RunStepAfter(s, l, 8);
    StagedDefaultKept(s, c, pf);
  }

  /** `.bk` stays, with the old binary in it, and `.staging` is left as the install made it. */
  lemma ApplyKeepsBackup(s: FS, fs0: FS, h: FilePathHelper, pf: Platform)
    requires BackedUp(s, fs0, h, pf)
    ensures var final := Run(s, ApplySteps(h, pf));
      && IsDirAt(final, h.AddBackupDirPath([]))
      && SameTree(final, h.AddBackupDirPath(Binary(pf)), fs0, h.AddWorkingDirPath(Binary(pf)))
      && Get(final, h.AddStagingDirPath([])) == Get(s, h.AddStagingDirPath([]))
  {
    var c := h.current;
    var tails := ApplyTails(pf);
    var l := LiftAll(c, tails);
    ApplyLifted(h, pf);
    PlaceRoots(h);
    PlaceNames(h, pf.binaryFile, "");
    forall j | 0 <= j < 10
      ensures SepOf(tails[j], [BACKUP_DIR]) && SepOf(tails[j], [STAGING_DIR])
      ensures SepBelow(tails[j], [BACKUP_DIR, pf.binaryFile])
    {
      assert j in {0, 1, 2, 3, 4, 5, 6, 7, 8, 9};
    }
    assert l[..10] == l && l[..0] == [];
    KeepsLifted(s, c, tails, 0, 10, [BACKUP_DIR]);
    KeepsLifted(s, c, tails, 0, 10, [STAGING_DIR]);
    KeepsTreeLifted(s, c, tails, [BACKUP_DIR, pf.binaryFile]);
  }

  lemma PrefixOfJoin(c: Path, x: Path, q: Path)
    ensures c + x <= q ==> c <= q
  {
    if c + x <= q {
      assert q[..|c|] == (c + x)[..|c|];
    }
  }

  /** Lifted steps leave everything outside their directory alone. */
  lemma LiftedOutside(s: FS, c: Path, steps: seq<Step>, q: Path)
    requires WellFormed(s) && !(c <= q)
    ensures Get(Run(s, LiftAll(c, steps)), q) == Get(s, q)
  {
    var l := LiftAll(c, steps);
    forall j | 0 <= j < |l|
      ensures ClearOf(l[j], q)
    {
      match steps[j]
      case MkdirStep(p) =>
        PrefixOfJoin(c, p, q);
      case RemoveStep(p) =>
        PrefixOfJoin(c, p, q);
      case RenameStep(a, b) =>
        PrefixOfJoin(c, a, q);
        PrefixOfJoin(c, b, q);
    }
    RunKeeps(s, l, q);
  }

  /** The apply steps touch nothing but the binary, `.env`, `content`, `.bk` and `.staging`. */
  lemma ApplyFrame(s: FS, h: FilePathHelper, pf: Platform, q: Path)
    requires WellFormed(s) && ValidPlatform(pf)
    requires UntouchedByBackup(h, pf, q) && !(h.AddStagingDirPath([]) <= q)
    ensures Get(Run(s, ApplySteps(h, pf)), q) == Get(s, q)
  {
    var c := h.current;
    var tails := ApplyTails(pf);
    ApplyLifted(h, pf);
    PlaceRoots(h);
    if !(c <= q) {
      LiftedOutside(s, c, tails, q);
    } else {
      var t := q[|c|..];
      assert q == c + t;
      if t != [] {
        assert c + [t[0]] <= q;
      }
      forall j | 0 <= j < 10
        ensures SepOf(tails[j], t)
      {
        assert j in {0, 1, 2, 3, 4, 5, 6, 7, 8, 9};
      }
      assert LiftAll(c, tails)[..10] == LiftAll(c, tails) && LiftAll(c, tails)[..0] == [];
      KeepsLifted(s, c, tails, 0, 10, t);
    }
  }

  // ---------------------------------------------------------------------
  // The update as a whole.

  /**
   * On an installation, the update runs to the apply steps: `.bk` is made,
   * the backup done, the install into `.staging` reports no error (so the
   * rollback is never taken), and the apply steps run on the staged tree.
   */
  lemma UpdateApplies(fs: FS, h: FilePathHelper, pf: Platform, fetch: Fetch, unpack: Unpack)
    requires Installation(fs, h, pf)
    ensures Staged(fs, h, pf, fetch, unpack).err == None
    ensures UpdateSpec(fs, pf, [h.current], fetch, unpack) == Run(Staged(fs, h, pf, fetch, unpack).fs, ApplySteps(h, pf))
    ensures BackedUp(Staged(fs, h, pf, fetch, unpack).fs, fs, h, pf)
    ensures forall q :: UntouchedByBackup(h, pf, q) && !(h.AddStagingDirPath([]) <= q) ==>
      Get(Staged(fs, h, pf, fetch, unpack).fs, q) == Get(fs, q)
  {
    BackupMoves(fs, h, pf);
    var t := Run(Mkdir(fs, h.AddBackupDirPath([])).value, BackupSteps(h, pf));
    InstallStaysInStaging(t, h, fetch, unpack);
    InstallKeepsBackup(t, fs, h, pf, fetch, unpack);
  }

  /** The new binary and `content/docs`, `content/gocms` and `content/templates` are the staged release's. */
  lemma UpdateInstallsRelease(fs: FS, h: FilePathHelper, pf: Platform, fetch: Fetch, unpack: Unpack)
    requires Installation(fs, h, pf)
    ensures var final := UpdateSpec(fs, pf, [h.current], fetch, unpack);
      var staged := Staged(fs, h, pf, fetch, unpack).fs;
      && SameTree(final, h.AddWorkingDirPath(Binary(pf)), staged, h.AddStagingDirPath(Binary(pf)))
      && SameTree(final, h.AddWorkingDirPath(Docs), staged, h.AddStagingDirPath(Docs))
      && SameTree(final, h.AddWorkingDirPath(Admin), staged, h.AddStagingDirPath(Admin))
      && SameTree(final, h.AddWorkingDirPath(Templates), staged, h.AddStagingDirPath(Templates))
  {
    UpdateApplies(fs, h, pf, fetch, unpack);
    var staged := Staged(fs, h, pf, fetch, unpack).fs;
    ApplyNewBinary(staged, fs, h, pf);
    ApplyNewContent(staged, fs, h, pf);
  }

  /** The user's `.env`, plugins and every theme but the default one are as they were. */
  lemma UpdateKeepsUserData(fs: FS, h: FilePathHelper, pf: Platform, fetch: Fetch, unpack: Unpack)
    requires Installation(fs, h, pf)
    ensures var final := UpdateSpec(fs, pf, [h.current], fetch, unpack);
      && SameTree(final, h.AddWorkingDirPath(Env), fs, h.AddWorkingDirPath(Env))
      && SameTree(final, h.AddWorkingDirPath(Plugins), fs, h.AddWorkingDirPath(Plugins))
      && forall r :: r == [] || r[0] != THEMES_DEFAULT_DIR ==>
           Get(final, h.AddWorkingDirPath(Themes) + r) == Get(fs, h.AddWorkingDirPath(Themes) + r)
  {
    UpdateApplies(fs, h, pf, fetch, unpack);
    var staged := Staged(fs, h, pf, fetch, unpack).fs;
    ApplyRestoresEnv(staged, fs, h, pf);
    ApplyKeepsPlugins(staged, fs, h, pf);
    ApplyKeepsThemes(staged, fs, h, pf);
  }

  /**
   * The default theme: a non-empty one of the user's survives; otherwise,
   * under an existing themes directory, it is the staged release's.
   */
  lemma UpdateDefaultTheme(fs: FS, h: FilePathHelper, pf: Platform, fetch: Fetch, unpack: Unpack)
    requires Installation(fs, h, pf)
    ensures var final := UpdateSpec(fs, pf, [h.current], fetch, unpack);
      var def := h.AddWorkingDirPath(DefaultTheme);
      && (HasDescendant(fs, def) ==> SameTree(final, def, fs, def))
      && (IsDirAt(fs, h.AddWorkingDirPath(Themes)) && !HasDescendant(fs, def) ==>
            SameTree(final, def, Staged(fs, h, pf, fetch, unpack).fs, h.AddStagingDirPath(DefaultTheme)))
  {
    UpdateApplies(fs, h, pf, fetch, unpack);
    var staged := Staged(fs, h, pf, fetch, unpack).fs;
    var def := h.AddWorkingDirPath(DefaultTheme);
    if HasDescendant(fs, def) {
      ApplyKeepsNonEmptyDefault(staged, fs, h, pf);
    }
    if IsDirAt(fs, h.AddWorkingDirPath(Themes)) && !HasDescendant(fs, def) {
      ApplyInstallsDefault(staged, fs, h, pf);
    }
  }

  /**
   * `.bk` is never removed and keeps the old binary, and `.staging` is left
   * as the install made it; so when the release has no binary, the
   * installation ends without one.
   */
  lemma UpdateLeavesBackup(fs: FS, h: FilePathHelper, pf: Platform, fetch: Fetch, unpack: Unpack)
    requires Installation(fs, h, pf)
    ensures var final := UpdateSpec(fs, pf, [h.current], fetch, unpack);
      var staged := Staged(fs, h, pf, fetch, unpack).fs;
      && IsDirAt(final, h.AddBackupDirPath([]))
      && SameTree(final, h.AddBackupDirPath(Binary(pf)), fs, h.AddWorkingDirPath(Binary(pf)))
      && Get(final, h.AddStagingDirPath([])) == Get(staged, h.AddStagingDirPath([]))
      && (Get(staged, h.AddStagingDirPath(Binary(pf))) == None ==> Get(final, h.AddWorkingDirPath(Binary(pf))) == None)
  {
    UpdateApplies(fs, h, pf, fetch, unpack);
    var staged := Staged(fs, h, pf, fetch, unpack).fs;
    ApplyKeepsBackup(staged, fs, h, pf);
    ApplyNewBinary(staged, fs, h, pf);
    var final := UpdateSpec(fs, pf, [h.current], fetch, unpack);
    assert Get(final, h.AddWorkingDirPath(Binary(pf)) + []) == Get(staged, h.AddStagingDirPath(Binary(pf)) + []);
    assert h.AddWorkingDirPath(Binary(pf)) + [] == h.AddWorkingDirPath(Binary(pf));
    assert h.AddStagingDirPath(Binary(pf)) + [] == h.AddStagingDirPath(Binary(pf));
  }

  /** Nothing outside the binary, `.env`, `content`, `.bk` and `.staging` changes. */
  lemma UpdateFrame(fs: FS, h: FilePathHelper, pf: Platform, fetch: Fetch, unpack: Unpack)
    requires Installation(fs, h, pf)
    ensures forall q :: UntouchedByBackup(h, pf, q) && !(h.AddStagingDirPath([]) <= q) ==>
      Get(UpdateSpec(fs, pf, [h.current], fetch, unpack), q) == Get(fs, q)
  {
    UpdateApplies(fs, h, pf, fetch, unpack);
    var staged := Staged(fs, h, pf, fetch, unpack).fs;
    forall q | UntouchedByBackup(h, pf, q) && !(h.AddStagingDirPath([]) <= q)
      ensures Get(UpdateSpec(fs, pf, [h.current], fetch, unpack), q) == Get(fs, q)
    {
      ApplyFrame(staged, h, pf, q);
    }
  }

  // ---------------------------------------------------------------------
  // The rollback.

  function RollbackTails(pf: Platform): seq<Step>
  {
    [ RenameStep([BACKUP_DIR, pf.binaryFile], [pf.binaryFile]),
      RenameStep([BACKUP_DIR, CONTENT_DIR], [CONTENT_DIR]),
      RenameStep([BACKUP_DIR, ENV_FILE], [ENV_FILE]) ]
  }

  lemma RollbackLifted(h: FilePathHelper, pf: Platform)
    ensures RollbackSteps(h, pf) == LiftAll(h.current, RollbackTails(pf))
  {
    PlaceNames(h, pf.binaryFile, "");
    PlaceNames(h, CONTENT_DIR, "");
    PlaceNames(h, ENV_FILE, "");
  }

  lemma RollbackTailsSeparate(pf: Platform)
    requires ValidPlatform(pf)
    ensures forall j :: 0 <= j < 3 ==> RollbackTails(pf)[j].RenameStep? && Apart(RollbackTails(pf)[j].src, RollbackTails(pf)[j].dst)
    ensures forall j :: 0 <= j < 3 ==> SepOf(RollbackTails(pf)[j], [])
    ensures forall i, j :: 0 <= i < 3 && 0 <= j < 3 && i != j ==>
      SepBelow(RollbackTails(pf)[i], RollbackTails(pf)[j].src) && SepBelow(RollbackTails(pf)[i], RollbackTails(pf)[j].dst)
  {
    var b := pf.binaryFile;
    var names := [[b], [CONTENT_DIR], [ENV_FILE], [BACKUP_DIR, b], [BACKUP_DIR, CONTENT_DIR], [BACKUP_DIR, ENV_FILE]];
    forall x, y | 0 <= x < 6 && 0 <= y < 6 && x != y && x % 3 != y % 3
      ensures Apart(names[x], names[y])
    {
    }
    var tails := RollbackTails(pf);
    forall i, j | 0 <= i < 3 && 0 <= j < 3 && i != j
      ensures SepBelow(tails[i], tails[j].src) && SepBelow(tails[i], tails[j].dst)
    {
      assert tails[i] == RenameStep(names[i + 3], names[i]);
      assert tails[j] == RenameStep(names[j + 3], names[j]);
    }
  }

  /**
   * The rollback undoes the backup: from a backed-up tree it puts the
   * binary, `content` and `.env` back as they were in the installation.
   */
  lemma RollbackRestores(t: FS, fs0: FS, h: FilePathHelper, pf: Platform)
    requires BackedUp(t, fs0, h, pf)
    ensures var r := Run(t, RollbackSteps(h, pf));
      && SameTree(r, h.AddWorkingDirPath(Binary(pf)), fs0, h.AddWorkingDirPath(Binary(pf)))
      && SameTree(r, h.AddWorkingDirPath(Content), fs0, h.AddWorkingDirPath(Content))
      && SameTree(r, h.AddWorkingDirPath(Env), fs0, h.AddWorkingDirPath(Env))
  {
    var c := h.current;
    var b := pf.binaryFile;
    var tails := RollbackTails(pf);
    var l := LiftAll(c, tails);
    RollbackLifted(h, pf);
    RollbackTailsSeparate(pf);
    PlaceNames(h, b, "");
    PlaceNames(h, CONTENT_DIR, "");
    PlaceNames(h, ENV_FILE, "");
    assert c + [] == c && l[..0] == [];
    assert Parent(c + [b]) == c && Parent(c + [CONTENT_DIR]) == c && Parent(c + [ENV_FILE]) == c;
    MovedAtLifted(t, c, tails, 0, [BACKUP_DIR, b], [b]);
    KeepsLifted(t, c, tails, 0, 1, []);
    MovedAtLifted(t, c, tails, 1, [BACKUP_DIR, CONTENT_DIR], [CONTENT_DIR]);
    KeepsLifted(t, c, tails, 0, 2, []);
    MovedAtLifted(t, c, tails, 2, [BACKUP_DIR, ENV_FILE], [ENV_FILE]);
  }
}
