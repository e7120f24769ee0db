# gcm — a verified model of the GoCMS command-line tool's file-system core

`gcm` installs, updates and develops GoCMS sites. Underneath its commands lies
a small set of file-system transformations: a recursive copy with hard-copy,
ignore patterns and destination-root substitution; rename-based moves between
an installation directory, its `.bk` backup and its `.staging` area; the
update procedure built from those moves; a change watcher that mirrors a
source tree into a destination tree; and the plugin and theme developer
commands that build, copy and rebuild a plugin or theme on every change.

This project models that core in Dafny and proves what it does.

* The file system is a map from paths to nodes. A path is a sequence of
  names, so `filepath.Join` is concatenation. A node is a directory or a file
  with its bytes and permission bits (`Fs`).
* Every `os` call the tool makes (`Stat`, `Mkdir`, `MkdirAll`, `Remove`,
  `RemoveAll`, `Rename`, `Create`, the content copy, `Chmod`) is a pure
  function over that map. The same calls are also methods of the class
  `Os.FileSystem`, which holds the map in a field and is proved against those
  functions.
* Each Go routine of the core is an imperative method over `Os.FileSystem`
  (or over a class holding the routine's own fields). Each method is proved
  equal to a specification function. The properties of the routine are then
  proved as lemmas about that function.

Regular expressions (`Patterns.Regexp`), `url.ParseRequestURI`, the wall
clock, `go build`, the download, the unzip, the JSON manifest decoder and the
database calls become parameters of the operations that use them.

Module by module:

| module | file | models |
|---|---|---|
| `Fs`, `Os` | fs.dfy, os.dfy | the `os` calls over the path map |
| `PathText` | path_text.dfy | `filepath.Clean` of a string into names, and rendering back |
| `WalkOrder` | walk_order.dfy | the lexical pre-order in which `filepath.Walk` visits a tree |
| `Copy` | copy.dfy | `utility/copy.go` |
| `Paths` | paths.dfy | `utility/paths.go` |
| `ForceRename` | force_rename.dfy | `utility/forceRename.go` |
| `Install` | install.dfy | `commands/install/install.go` |
| `Update` | update.dfy | `commands/update/update.go` |
| `Watcher` | watcher.dfy | `utility/fileWatcher.go` |
| `Plugin` | plugin.dfy | `commands/developer/plugin/plugin.go` |
| `Theme` | theme.dfy | `commands/developer/theme/theme.go` |
| `PluginManifestCmd` | plugin_manifest.dfy | `commands/developer/plugin/manifest/plugin_manifest.go` |
| `Config`, `Models`, `Cli` | config.dfy, models.dfy, cli.dfy | the constants, the manifest record, positional arguments |

Where the code and its documentation differ, the model follows the code,
except for the three defects listed under "## Findings". Each of those is
modelled as written and then corrected, and the commands use the corrected
definition (see "## Left out"). The other differences:

* Copy's ignore patterns skip only the matching entry. A matching directory's
  contents are still walked, because the walk function returns nil rather
  than `SkipDir`.
* The update never deletes `.bk` or `.staging`. Its rollback branch is
  unreachable, because `BasicInstall` returns nil on every path.
* The plugin change handler stops the running instance before it builds. So
  after a failed build no instance runs, and the skip flag records that.
* The `--delete` flag of the plugin command is never read, so the plugin
  context's `hardCopy` stays false. The plugin's copies use hard copy anyway.
* Debouncing and ignore filtering of events happen in the plugin handler,
  never in the generic watcher.

## Model

| member | source | states |
|---|---|---|
| Os.FileSystem.Stat | utility/copy.go:29-32 | `os.Stat` reports the node, or NotExist / NotDir for a missing path |
| Os.FileSystem.Mkdir | commands/update/update.go:36-40 | `os.Mkdir` creates one directory under an existing directory, or fails and changes nothing |
| Os.FileSystem.MkdirAll | utility/copy.go:50-54 | `os.MkdirAll` creates the missing directories on a path, or fails when a file is in the way |
| Os.FileSystem.Remove | commands/update/update.go:87 | `os.Remove` deletes a file or an empty directory only |
| Os.FileSystem.RemoveAll | utility/copy.go:85-87 | `os.RemoveAll` deletes a whole subtree; a missing path is no error |
| Os.FileSystem.Rename | utility/paths.go:31-33 | `os.Rename` moves a subtree onto a free place or over a file, and reports why it cannot otherwise |
| Os.FileSystem.Create | commands/developer/plugin/plugin.go:294-298 | creating or truncating a file under an existing directory (the build's output) |
| Os.FileSystem.CopyContents | utility/copy.go:169-190 | the destination file gets the source's bytes; a file copied onto itself ends up empty |
| Os.FileSystem.Chmod | utility/copy.go:154-157 | `os.Chmod` sets a node's permission bits and nothing else |
| Fs.RenameMoves | utility/paths.go:31-37 | a successful rename of distinct paths moves the subtree: both paths non-empty, disjoint, the source present |
| Fs.RenameFrame | utility/paths.go:31-44 | a rename changes nothing outside the moved subtree and its new place |
| Fs.RenameIntoFree | utility/paths.go:31-33 | renaming onto a free place succeeds exactly when the source exists, and moves it |
| Fs.RenameThereAndBack | utility/paths.go:31-37 | renaming a path away and back, both succeeding, restores the tree |
| Fs.RemoveAllGet | utility/forceRename.go:10-14 | after `RemoveAll(p)` nothing is at or below `p`, and everything else is unchanged |
| Fs.MkdirAllEffect | utility/copy.go:89-93 | `MkdirAll` leaves a directory at the path, keeps every existing node, and adds only directories on the path |
| Fs.MkdirAllSucceeds | utility/copy.go:89-93 | `MkdirAll` succeeds exactly when no file lies on or above the path |
| Fs.StatMissing | utility/copy.go:141-144 | a path below a file is absent and its stat error is NotDir |
| PathText.Clean | commands/developer/plugin/plugin.go:356-357 | `filepath.Clean` yields only proper names: no empty name, no ".", no separator |
| PathText.CleanRender | utility/paths.go:19-29 | cleaning a rendered sequence of names gives the names back |
| WalkOrder.Listing | utility/copy.go:95 | the walk visits each node of the subtree exactly once, the root first, in strictly increasing lexical order |
| WalkOrder.AncestorFirst | utility/fileWatcher.go:111 | a directory is visited before everything below it |
| WalkOrder.PathLessTotal | utility/copy.go:95 | the walk order is total on paths |
| WalkOrder.PathLessTransitive | utility/copy.go:95 | the walk order is transitive |
| WalkOrder.SortedList | utility/copy.go:95 | every finite set of paths has a strictly increasing listing of exactly its members |
| Copy.ReplaceOnce | utility/copy.go:104 | `strings.Replace(s, old, new, 1)`: a leading `old` is swapped for `new`; a string without `old` is unchanged |
| Copy.AsWrittenSwapsPrefix | utility/copy.go:104 | for a non-empty source root, replacing its first occurrence is a prefix swap |
| Copy.DotSourceMangledName | utility/copy.go:104 | with source "." the replacement hits the first '.' of a name: `a.txt` goes to `aouttxt` |
| Copy.DotSourceCopiesOntoItself | utility/copy.go:104 | with source "." a name without '.' is copied onto itself |
| Copy.Destination | utility/copy.go:104 | the corrected destination of a walked entry: the destination root plus the entry's path below the source root |
| Copy.DestinationInjective | utility/copy.go:104 | distinct entries below the source go to distinct destinations |
| Copy.CheckIgnore | utility/copy.go:109-122 | the entry is skipped exactly when some pattern fails to compile or matches it |
| Copy.CopyFile | utility/copy.go:139-163 | stat, copy contents, then chmod to the source's permission bits, stopping at the first error |
| Copy.CopyDirWalk | utility/copy.go:103-137 | one walk step: skip if ignored, MkdirAll for a directory, copyFile for a file |
| Copy.WalkKeepsSource | utility/copy.go:95 | between roots that do not overlap, no prefix of the walk changes the source tree, so reading each directory when the walk reaches it sees the listed tree |
| Copy.Walk | utility/copy.go:95-98 | the walk applies the step to each entry in turn and stops at the first error |
| Copy.CopyDir | utility/copy.go:69-101 | RemoveAll of the destination (error ignored) when hard copying, MkdirAll, then the walk |
| Copy.Copy | utility/copy.go:19-67 | stat the source; a directory goes to copyDir, a file to MkdirAll of the parent and copyFile |
| Copy.CopyMissingSource | utility/copy.go:29-32 | a missing source returns the stat error and changes nothing |
| Copy.HardCopyIrrelevantForFiles | utility/copy.go:49-60 | for a file source the hard-copy flag makes no difference |
| Copy.CopyFileSource | utility/copy.go:49-60 | a file source is copied with its bytes and permissions, and the destination's parent exists afterwards |
| Copy.CopyOntoItselfTruncates | utility/copy.go:169-190 | copying a file onto itself leaves it empty |
| Copy.CopyDirCopies | utility/copy.go:95-135 | after a successful directory copy every non-ignored file's destination holds its bytes and permissions, and every non-ignored directory's destination is a directory |
| Copy.HardCopyHoldsOnlyCopies | utility/copy.go:85-93 | after a hard copy everything below the destination lies on the path to the copy of a non-ignored source entry |
| Copy.SoftCopyKeeps | utility/copy.go:89-95 | without hard copy no node disappears, and each node is either unchanged or the copy of a source entry |
| Copy.WalkStopsAtFirstError | utility/copy.go:95-98 | a failing walk is the clean walk of a prefix followed by the failing step; earlier copies remain |
| Copy.WalkAllIgnored | utility/copy.go:109-122 | a walk over ignored entries only changes nothing |
| Copy.WalkChanges | utility/copy.go:103-137 | every change a walk makes is explained by one of its entries |
| Copy.UncompilablePatternCopiesNothing | utility/copy.go:111-115 | with an uncompilable pattern every entry is skipped, so only the destination directory is made |
| Copy.CopyConfined | utility/copy.go:19-101 | a copy changes nothing but the destination subtree and the directories leading to it |
| Paths.FilePathHelper.WorkingToBackup | utility/paths.go:31-33 | renames `<dir>/f` to `<dir>/.bk/f` and returns the rename's error |
| Paths.FilePathHelper.BackupToWorking | utility/paths.go:35-37 | renames `<dir>/.bk/f` back to `<dir>/f` and returns the rename's error |
| Paths.FilePathHelper.StagingToWorking | utility/paths.go:38-45 | renames `<dir>/.staging/f` to `<dir>/f` and returns the rename's error unchanged |
| Paths.PlacesDistinct | utility/paths.go:19-29 | the working, backup and staging paths of a name are pairwise distinct |
| Paths.PlacesDisjoint | utility/paths.go:19-29 | for a name not starting with `.bk` or `.staging`, none of the three places lies inside another |
| Paths.WorkingToBackupMoves | utility/paths.go:31-33 | after a successful backup the backup place holds the former working subtree, the working place is gone, and nothing else changed |
| Paths.BackupRoundTrip | utility/paths.go:31-37 | WorkingToBackup then BackupToWorking, both succeeding, restore the original tree |
| ForceRename.ForceRename | utility/forceRename.go:8-22 | RemoveAll of the destination, then Rename, in place |
| ForceRename.ReportsOnlyRemovalErrors | utility/forceRename.go:10-21 | the result is the removal's error; when it fails nothing changed |
| ForceRename.SwallowsRenameFailure | utility/forceRename.go:16-21 | a failed rename still returns nil, with the destination removed |
| ForceRename.ForceRenameMoves | utility/forceRename.go:10-19 | on success the destination holds the source's former subtree, the source is gone, nothing else changed |
| Install.ArchiveLocation | commands/install/install.go:40-42 | the archive sits directly inside the install directory under the archive name |
| Install.ArchiveLocationRendered | commands/install/install.go:40-42 | rendered, the location is `Clean(installPath) + "/" + archive` |
| Install.DownloadUrlShape | commands/install/install.go:43 | the URL starts with the release base, ends with `/<archive>`, and differs between platforms exactly when their OS path differs |
| Install.Download | utility/downloadFile.go:9-40 | the download writes the fetched bytes as the archive, creating its directory; a failed fetch changes nothing |
| Install.Unzip | commands/install/install.go:54 | the unzip extracts the archive's entries into the install directory, or fails |
| Install.Extract | commands/install/install.go:54 | extracting entries one by one, stopping at the first error |
| Install.BasicInstallSpec | commands/install/install.go:37-65 | BasicInstall returns nil on every path |
| Install.BasicInstall | commands/install/install.go:37-65 | download; on failure remove the archive; otherwise unzip, then remove the archive |
| Install.CmdInstall | commands/install/install.go:20-35 | without an argument nothing changes; otherwise BasicInstall into the first argument; never an error |
| Install.BasicInstallConfined | commands/install/install.go:37-65 | the install changes nothing outside the install directory |
| Install.ArchiveNotLeft | commands/install/install.go:48-62 | no archive file is left behind on any path |
| Install.NoUnzipAfterFailedDownload | commands/install/install.go:45-50 | after a failed download the unzip is never run and only the archive's removal happens |
| Update.Backup | commands/update/update.go:45-49 | the three backup renames, each error ignored |
| Update.Rollback | commands/update/update.go:58-62 | the three renames back, each error ignored |
| Update.ApplyUpdate | commands/update/update.go:70-88 | the apply steps in order, each error ignored |
| Update.ApplyFirstSteps | commands/update/update.go:71-78 | the new binary from `.staging`, the user's `.env` from `.bk`, a fresh `content`, then docs and admin from `.staging`: the first five apply steps in order |
| Update.ApplyLastSteps | commands/update/update.go:79-88 | templates from `.staging`, plugins and themes from `.bk`, the default theme removed and replaced from `.staging`: the last five apply steps in order |
| Update.FinishUpdate | commands/update/update.go:54-88 | rollback on an install error, apply otherwise |
| Update.CmdUpdate | commands/update/update.go:20-94 | the whole command is the specified sequence and never returns an error |
| Update.UpdateNeedsInstallation | commands/update/update.go:22-40 | without an argument, without a binary, or with `.bk` already present, nothing changes |
| Update.BackupDirCreated | commands/update/update.go:36-40 | in an installation `.bk` is created empty and nothing else changes |
| Update.BackupMoves | commands/update/update.go:45-49 | the backup moves exactly the binary, `content` and `.env` into `.bk` |
| Update.InstallStaysInStaging | commands/update/update.go:53 | the install into `.staging` changes nothing outside `.staging` |
| Update.InstallKeepsBackup | commands/update/update.go:53 | the backed-up state survives the install |
| Update.UpdateApplies | commands/update/update.go:53-65 | the install reports no error, so the rollback is never taken and the apply steps run on the staged tree |
| Update.RollbackRestores | commands/update/update.go:54-65 | the rollback puts the binary, `content` and `.env` back as they were |
| Update.UpdateInstallsRelease | commands/update/update.go:70-80 | the binary, `content/docs`, `content/gocms` and `content/templates` are the staged release's |
| Update.UpdateKeepsUserData | commands/update/update.go:72-84 | `.env`, the plugins and every theme but the default one are the user's, unchanged |
| Update.ApplyKeepsNonEmptyDefault | commands/update/update.go:87-88 | a non-empty default theme of the user's survives the apply |
| Update.UpdateDefaultTheme | commands/update/update.go:87-88 | a non-empty user default theme survives; otherwise, under a themes directory, it is the staged release's |
| Update.UpdateLeavesBackup | commands/update/update.go:45-93 | `.bk` is never removed and keeps the old binary; `.staging` is left as installed; a release without a binary leaves none |
| Update.UpdateFrame | commands/update/update.go:20-94 | nothing outside the binary, `.env`, `content`, `.bk` and `.staging` changes |
| Watcher.ExtOf | utility/fileWatcher.go:90 | `filepath.Ext` of a name: the suffix from its last '.', or "" when there is none |
| Watcher.Classify | utility/fileWatcher.go:90-102 | no handler for `.DS_Store`; otherwise the first of Write, Remove, Create, Rename, Chmod whose bit is set, and none if no bit is set |
| Watcher.DSStoreFiltered | utility/fileWatcher.go:90 | any name ending in `.DS_Store` runs no handler |
| Watcher.DispatchAtMostOne | utility/fileWatcher.go:92-102 | at most one handler is chosen per event |
| Watcher.JoinRel | utility/fileWatcher.go:49-55 | joining the base with the relative path gives the event path back |
| Watcher.MirrorBelow | utility/fileWatcher.go:49-55 | an event below the source base mirrors to the destination base plus its relative path |
| Watcher.MirrorTree | utility/fileWatcher.go:66-72 | mirroring is injective and keeps the ancestor relation |
| Watcher.DeleteDestinationHandler | utility/fileWatcher.go:48-63 | the handler removes the whole mirrored subtree; its error is dropped |
| Watcher.CopySourceToDestinationHandler | utility/fileWatcher.go:65-77 | the handler hard-copies the event path onto its mirror; its error is dropped |
| Watcher.HandleEvent | utility/fileWatcher.go:86-103 | the event runs the handler Classify chooses |
| Watcher.RemoveEventDeletesMirror | utility/fileWatcher.go:27-39 | under carbon copy a remove or rename event empties the mirrored subtree and changes nothing else |
| Watcher.WriteEventCopiesFile | utility/fileWatcher.go:27-39 | under carbon copy a write or create event of a file puts its bytes and permissions at the mirror |
| Watcher.ChmodChangesNothing | utility/fileWatcher.go:38-46 | a chmod-only event changes nothing |
| Watcher.IgnoreCheck | utility/fileWatcher.go:114-130 | a path is kept exactly when every pattern compiles and none matches; a match or a bad pattern is reported |
| Watcher.CheckIgnorePaths | utility/fileWatcher.go:114-130 | the pattern loop computes the ignore verdict |
| Watcher.WalkFn | utility/fileWatcher.go:111-146 | the walk function: panic on a bad pattern, SkipDir for a matching directory, a watch for a kept directory |
| Watcher.Visit | utility/fileWatcher.go:111-146 | one call of the walk function |
| Watcher.WatchSpec | utility/fileWatcher.go:111-146 | only directories of the source subtree are watched |
| Watcher.RegisterWatches | utility/fileWatcher.go:111-146 | the walk registers exactly the specified directories, or panics |
| Watcher.WalkEntry | utility/fileWatcher.go:111-146 | one walk step keeps the walk invariant, or the whole walk panics |
| Watcher.PrunedSubtreeUnwatched | utility/fileWatcher.go:120-126 | nothing at or below an ignored directory is watched |
| Watcher.WalkWatchesBase | utility/fileWatcher.go:111-146 | with compilable patterns the walk succeeds, and watches the base exactly when the base is not ignored |
| Watcher.NoPatternsWatchAll | utility/fileWatcher.go:136-143 | without patterns every directory of the subtree is watched |
| Watcher.FirstStop | utility/fileWatcher.go:120-126 | a path the walk never reaches lies below a reached path that was ignored |
| Cli.Arg | commands/developer/plugin/plugin.go:345-346 | `Args().Get(k)`: the k-th argument, or "" past the end |
| Plugin.PluginPath | commands/developer/plugin/plugin.go:315 | the plugin path lies below `<dest>/content/plugins` |
| Plugin.AssetFiles | commands/developer/plugin/plugin.go:429-479 | at most one file per interface asset |
| Plugin.AssetFilesMembers | commands/developer/plugin/plugin.go:429-479 | a path is listed exactly when it is `<src>/content/<a>` for a non-empty asset `a` that is not a request URI |
| Plugin.AssetFilesAppend | commands/developer/plugin/plugin.go:429-463 | the assets are taken in order: the files of a concatenation are the concatenation of the files |
| Plugin.FilesToCopyInSource | commands/developer/plugin/plugin.go:403-416 | the manifest comes first, and every other file is a `--copy` value or lies below the source |
| Plugin.DestFile | commands/developer/plugin/plugin.go:267-276 | the corrected destination: a path below the source loses the source prefix; a bare name or a source "." keeps the path |
| Plugin.DestFileAgrees | commands/developer/plugin/plugin.go:270-271 | for clean paths below the source, the code's first-occurrence removal and the prefix strip agree |
| Plugin.DestFileMangled | commands/developer/plugin/plugin.go:270-271 | source `a` and file `data/x`: the code removes the first `a` and gives `dta/x` |
| Plugin.CopyFilesConfined | commands/developer/plugin/plugin.go:257-285 | copying the plugin files changes nothing but the plugin directory and the directories leading to it |
| Plugin.MissingFileStops | commands/developer/plugin/plugin.go:261-265 | a missing file stops the copy with its stat error, changing nothing |
| Plugin.BuildAllOrNothing | commands/developer/plugin/plugin.go:287-306 | a successful build leaves the new executable binary and changes nothing else but the missing directories it created above it; a failed one changes nothing |
| Plugin.OnChangeConsistent | commands/developer/plugin/plugin.go:184-255 | the handler keeps the instance running whenever run is set and the skip flag is clear |
| Plugin.DroppedChangesNothing | commands/developer/plugin/plugin.go:187-204 | root paths, ignored paths and paths seen less than 5 s earlier are dropped with no change to the map, flags or files |
| Plugin.Debounce | commands/developer/plugin/plugin.go:199-207 | an accepted change records now; the same path is dropped before 5 s have passed and accepted from then on |
| Plugin.FailedBuildSkips | commands/developer/plugin/plugin.go:211-238 | a failed build sets the skip flag, leaves no instance running and copies nothing |
| Plugin.BuiltRestarts | commands/developer/plugin/plugin.go:240-253 | a successful build clears the skip flag and, with run set, restarts the instance even when the copy failed |
| Plugin.WiringReachesHandler | commands/developer/plugin/plugin.go:170-174 | an event reaches the change handler exactly when it is not `.DS_Store` and has the Write, Remove or Create bit |
| Plugin.ChangeTimeouts.constructor | commands/developer/plugin/plugin.go:169 | the timeout map starts empty |
| Plugin.PluginContext.constructor | commands/developer/plugin/plugin.go:367-375 | the context starts with `main.go`, every flag off and empty lists |
| Plugin.PluginContext.LoadFileOrUrl | commands/developer/plugin/plugin.go:465-479 | a non-URI path is appended as `<src>/content/<path>`; a request URI is skipped |
| Plugin.PluginContext.LoadInterfaceForPlugin | commands/developer/plugin/plugin.go:429-463 | the six interface assets are appended in order public, publicVendor, publicStyle, admin, adminVendor, adminStyle |
| Plugin.PluginContext.LoadAsset | commands/developer/plugin/plugin.go:432-434 | a non-empty asset that is not a request URI is appended as `<src>/content/<a>`; any other is skipped |
| Plugin.PluginContext.ApplyFlags | commands/developer/plugin/plugin.go:377-424 | entry, dev mode, run, watch and verbose come from the flags; files and ignore list are built in their documented order |
| Plugin.PluginContext.CollectFiles | commands/developer/plugin/plugin.go:403-416 | the files to copy are the manifest, then the docs file when the manifest names one, then the `--copy` paths, then the interface assets |
| Plugin.PluginContext.GetBinaryBuildCommand | commands/developer/plugin/plugin.go:313-323 | sets the plugin path to `<dest>/content/plugins/<id>` |
| Plugin.PluginContext.RunBinaryBuildCommand | commands/developer/plugin/plugin.go:287-306 | the build, which creates the missing directories above its output, then chmod 0755 of the binary |
| Plugin.PluginContext.CopyPluginFiles | commands/developer/plugin/plugin.go:257-285 | the files are copied in list order with hard copy, stopping at the first missing file or copy error |
| Plugin.PluginContext.RunGoCMS | commands/developer/plugin/plugin.go:308-311 | afterwards an instance is running |
| Plugin.PluginContext.OnFileChangeHandler | commands/developer/plugin/plugin.go:184-255 | the handler's reaction and new (map, skip, running, files) state are those of the specified state machine |
| Plugin.PluginContext.RebuildHandler | commands/developer/plugin/plugin.go:209-253 | once a change is accepted: the instance is stopped in run mode unless the last build failed, a failed build sets the skip flag and copies nothing, a successful one copies the files, clears the flag and restarts the instance — the reaction and state that Rebuild specifies |
| Plugin.BuildContextFromFlags | commands/developer/plugin/plugin.go:342-427 | missing arguments fail first, then a manifest error; on success the context holds the cleaned directories, the manifest and the flag-derived fields |
| Plugin.CmdCopyPlugin | commands/developer/plugin/plugin.go:95-160 | on error nothing changes and nothing is watched; otherwise build then copy, an instance runs iff run is set, and a watch starts iff watch is set |
| Theme.ThemeDir | commands/developer/theme/theme.go:60 | the theme directory lies below `<dest>/content/themes` |
| Theme.Target | commands/developer/theme/theme.go:42-60 | there is a copy exactly when an argument and a name are given; it goes from the cleaned source to the theme directory |
| Theme.EmptyArgumentStillCopies | commands/developer/theme/theme.go:50-52 | an empty source or destination only prints: the copy still runs from or into the working directory |
| Theme.CarbonWatch | commands/developer/theme/theme.go:68-71 | the watch is a carbon copy with no ignore patterns |
| Theme.MissingArgumentsChangeNothing | commands/developer/theme/theme.go:42-58 | without arguments or without a name nothing changes and nothing is watched |
| Theme.ThemeConfined | commands/developer/theme/theme.go:62 | the command changes nothing outside the theme directory and the directories leading to it |
| Theme.WatchMirrorsIntoTheme | commands/developer/theme/theme.go:62-71 | a watch starts exactly when asked for and the copy succeeded, and mirrors every source path it is told of into the theme directory |
| Theme.ThemeWatchesSourceDirs | commands/developer/theme/theme.go:68-71 | the carbon-copy watch never panics; it registers no directory for an empty source argument, and otherwise exactly the directories at or below the cleaned source |
| Theme.CmdTheme | commands/developer/theme/theme.go:39-74 | the command's tree and watch are the specified ones, and the watch registers the directories the walk of the raw source argument reaches |
| PluginManifestCmd.GetEnvVar | commands/developer/plugin/manifest/plugin_manifest.go:167-170 | an unset variable reads as "" |
| PluginManifestCmd.Setting | commands/developer/plugin/manifest/plugin_manifest.go:83-128 | a non-empty flag overrides the environment |
| PluginManifestCmd.BuildContextFromFlags | commands/developer/plugin/manifest/plugin_manifest.go:81-143 | each error exactly when its value is the first empty one in the order database, user, password, server, manifest; otherwise the context of the five values |
| PluginManifestCmd.ConnectionUser | commands/developer/plugin/manifest/plugin_manifest.go:148 | the corrected data source name logs in as the configured user |
| PluginManifestCmd.ConnectionIgnoresUser | commands/developer/plugin/manifest/plugin_manifest.go:148 | as written, the login user is the database name and the user setting changes nothing |
| PluginManifestCmd.CmdUpdateManifest | commands/developer/plugin/manifest/plugin_manifest.go:57-78 | a context error, then an open error, then a ping error, each exactly when it occurs; the insert is tried only after both succeed |

## Left out

- Network: the HTTP download and the unzip are outcomes passed as
  parameters (`Install.Fetch`, `Install.Unpack`). `utility/unzip.go` is not
  part of this model.
- External commands: `go build` is an outcome parameter. A successful build
  is modelled as creating the missing directories above its output and then
  the binary file. `go generate` has no effect on the tree, and its errors
  are only printed.
- Plugin.PluginContext.RunBinaryBuildCommand: when the output path is an
  existing directory, `go build -o` writes the binary inside it under the
  package's name; the model reports an IsDir error and changes nothing.
- Processes: starting and stopping the GoCMS instance is a `running` flag.
  `utility/startGoCMS.go`, `utility/utility_os/*` and their pipes, process
  groups and `os.Exit` are not modelled.
- Concurrency: goroutines, channels, signals and the dev-mode 5 s sleep
  before watching are not modelled. The watcher's event loop is one event at
  a time through `Watcher.HandleEvent`.
- fsnotify itself: an event is a supplied path and op bitmask. The walk
  registers directories in a set rather than with a live watcher.
- Install.Extract: archive entries are paths below the directory they are
  extracted into, so an entry such as `../x` cannot write outside it; the
  unzip in `utility/unzip.go` is not part of this model, and the confinement
  of Install.BasicInstallConfined and Update.InstallStaysInStaging rests
  partly on this.
- Watcher.RegisterWatches: walks a snapshot listing of the tree taken before
  the walk starts. The walk never changes the tree, so nothing is lost.
- Copy.Walk, Copy.CopyDir: the walk lists the source tree once, after the
  destination is created. filepath.Walk reads each directory's names only
  when it reaches that directory. When the destination lies inside the
  source (`gcm theme site site`, whose theme directory
  `site/content/themes/<name>` lies inside the source `site`),
  Go also visits the copies it has already made and copies them again
  further down, descending until a path grows too long; the model does
  not. Copy.WalkKeepsSource shows the two
  agree whenever source and destination do not overlap.
- Watcher.Join: a relative path with more `..` than the directory has names
  would climb above the working directory; filepath.Join keeps a leading
  `..` there, which a Path cannot spell. Event paths below the source base
  never need it.
- Copy.CopyDirWalk: uses the corrected Copy.Destination, not the textual
  replacement Copy.DestinationAsWritten. The two agree for every source
  other than `.` (Copy.AsWrittenSwapsPrefix). For the source `.` (and so an
  empty source, which is cleaned to `.`) the code as written mangles dotted
  names and copies nested entries onto themselves; the model copies the
  tree.
- Plugin.PluginContext.CopyPluginFiles: uses the corrected Plugin.DestFile,
  not Plugin.DestFileAsWritten. The two agree for every file inside the
  source directory (Plugin.DestFileAgrees); a `--copy` value outside it is
  mangled by the code as written.
- PluginManifestCmd.CmdUpdateManifest: opens the database with the corrected
  PluginManifestCmd.ConnectionString, which logs in as the configured user;
  the code as written (PluginManifestCmd.ConnectionStringAsWritten) logs in
  as the database name.
- Watcher.Rel: `filepath.Rel` fails only when one path is absolute and the
  other relative. Every path of the model is a relative sequence of names,
  so that error arm (print, then join the empty string) is not modelled.
- PathText.Clean: `..` names are kept as ordinary names rather than
  resolved, and paths are relative component sequences. Symlinks are not
  modelled.
- The Windows `.exe` suffix of the plugin binary is not modelled. The
  platform binary name of an update is a parameter (`Config.Platform`).
- Printing, verbose logging and timestamps printed in messages are not
  modelled.
- The JSON manifest decoder (`utility/parseManifest.go`) is the
  `parseManifest` parameter. `url.ParseRequestURI` is the `isRequestURI`
  parameter. Regular expressions are `Patterns.Regexp`, which gives
  compilation and matching for each pattern.
- Database calls: `sql.Open`, `Ping` and `InsertManifest` are the `open`,
  `ping` and `insert` parameters of `PluginManifestCmd.CmdUpdateManifest`.
- Time: the plugin handler's clock is an integer count of nanoseconds passed
  in. The debounce window is `CHANGE_TIMEOUT`, 5 s. An absent key counts as
  accepted, matching the zero time's huge distance from now.
- Theme.CarbonWatch: the watch's source base is the cleaned source path.
  The Go code passes the raw argument. For a non-empty argument the two
  differ only in spelling. For an empty one the walk fails at once and
  nothing is watched (Theme.ThemeWatchesSourceDirs), so the mirroring that
  Theme.WatchMirrorsIntoTheme states is never reached.
- Plugin.PluginContext.OnFileChangeHandler: the goroutine that the old
  instance's done channel stops is modelled by clearing `running`.
- CLI wiring (`main.go`, `commands/developer/developer.go`) and the version
  command (`commands/versions/version.go`) are not part of this model.

## Findings

| source | as written | input that shows it | evidently intended | confidence | as-written member | corrected member |
|---|---|---|---|---|---|---|
| utility/copy.go:104 | the destination is `strings.Replace(src, source, dest, 1)`: the first occurrence of the source text anywhere in the path | source `.`, dest `out`: entry `a.txt` goes to `aouttxt`, and entry `docs/x` is copied onto itself | replace the leading source root by the destination root | high (not executed) | Copy.DotSourceMangledName | Copy.Destination |
| commands/developer/plugin/plugin.go:270-271 | the plugin destination removes the first occurrence of `srcDir` anywhere in the file path | srcDir `a`, file `data/x`: destination `dta/x` | strip the leading `srcDir` | high (not executed) | Plugin.DestFileMangled | Plugin.DestFile |
| commands/developer/plugin/manifest/plugin_manifest.go:148 | the data source name is `dbName:dbPassword@dbServer/dbName` | DB_USER `admin`, DB_NAME `site`: the driver logs in as user `site` | `dbUser:dbPassword@dbServer/dbName` | high (not executed) | PluginManifestCmd.ConnectionIgnoresUser | PluginManifestCmd.ConnectionUser |
