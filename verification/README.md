# MergeHelper in Dafny

MergeHelper sweeps the sub-directories of a game library (`GAMEROOT`). Some of these title folders hold a disc image split into several `.bin` tracks and one `.cue` sheet. For each such folder the script:

- moves the tracks and the cue sheet into a backup directory `orig`;
- runs the external `binmerge` tool to write a single `.bin`/`.cue` pair;
- then either keeps the backup or deletes it, according to `REMOVEMODE`.

If the merge fails, it deletes every top-level `.bin`/`.cue` and moves the originals back.

This project models that sweep and proves what it does to each folder.

| module | file | models |
|---|---|---|
| `Names` | `names.dfy` | ASCII `str.lower()`, the `.bin`/`.cue` suffix tests, the counting comprehensions, `os.path.splitext` on a bare name |
| `Classify` | `classify.dfy` | `BINCOUNT`/`CUECOUNT`, the order of the skip checks, the `GAMENAME` chosen by `NAMEBY` |
| `Folders` | `folders.dfy` | a title folder as values, and the specification functions of the backup, merge, retention, rollback and one pass of the loop body |
| `TitleProperties` | `title_properties.dfy` | what one pass guarantees about the folder |
| `Sweeps` | `sweep.dfy` | the whole sweep, with `GAMENAME` carried from title to title as an `Option`, and the abort it can cause |
| `MergeHelper` | `merge_helper.dfy` | the imperative sweep: a `TitleFolder` class whose entry maps the move, delete and restore loops update in place, and `ProcessDirectories` |
| `RemoveMode` | `remove_mode.dfy` | the `REMOVEMODE` prompt |
| `Runtime` | `runtime.dfy` | the `divmod` split of the runtime report |

A folder is modelled as follows:

- its top-level entries are a map from names to contents;
- the backup directory is a second, optional map;
- `os.listdir` may return the names in any order, so a listing is any duplicate-free sequence of the folder's names (`Folders.IsListingOf`); `MergeHelper.TitleFolder.Process` and `MergeHelper.ProcessDirectories` require each listing to be one of the folder it belongs to, and the move loops pick names from a set in any order;
- whether each `shutil.move` fails is given by a set of names;
- the `binmerge` run is an abstract outcome: an exit status and the files it writes into the folder.

A move also fails when its destination already exists. `shutil.move` into a directory refuses to overwrite.

The model follows the code where the code and its docstring disagree:

- **Titles with no cue sheet.** The docstring says such titles are skipped. In the code, a title without a cue sheet does not assign `GAMENAME`; it uses whatever name the previous title left.
  - If no title before it had exactly one cue sheet, the name is unbound. The log call at line 284, 287 or 290 then raises `NameError` and ends the whole run.
  - The model therefore has a `Crash` outcome. `Sweeps.UnnamedNoCueTitleAbortsSweep` and `Sweeps.AbortNeedsUnnamedNoCueTitle` characterise exactly when it happens.
- **Failed backup moves.** The merge is run even when some backup moves failed.
  - A track that could not be moved stays at the top level.
  - If the merge then fails, the clean-up loop deletes that track (`TitleProperties.FailedBackupMoveIsLost`).
- **Titles with no cue sheet but a carried name.** Such a title is not skipped either. With more than one `.bin` and no backup in use, its tracks are moved into `orig`.
  - The cue-sheet lookup at line 184 then fails, so the title always ends as a failed merge and is rolled back (`TitleProperties.NoCueTitleIsNeverMerged`).
  - When every move succeeds the folder comes back as it was (`TitleProperties.NoCueTitleIsRolledBack`); a track whose backup move failed is lost, as above.

## Model

| member | source | states |
|---|---|---|
| Names.SuffixTestsIgnoreCase | mergehelper.py:268-269 | a name counts as a `.bin` (`.cue`) exactly when its last four characters are a dot and the three letters, each in either case |
| Names.Lower | mergehelper.py:268-269 | `str.lower()` on ASCII: the same length, each character mapped on its own; the case-insensitive suffix tests built on it are characterised by `Names.SuffixTestsIgnoreCase` |
| Names.IsBin | mergehelper.py:268 | the `.bin` test of the counting comprehension; characterised by `Names.SuffixTestsIgnoreCase` |
| Names.IsCue | mergehelper.py:269 | the `.cue` test of the counting comprehension and of the lookup at line 184; characterised by `Names.SuffixTestsIgnoreCase` |
| Names.IsTrack | mergehelper.py:298 | the `('.cue', '.bin')` test of the backup and clean-up loops: a name passing either suffix test of `Names.SuffixTestsIgnoreCase` |
| Names.BinAndCueAreDisjoint | mergehelper.py:268-269 | no name is counted both as a track and as a cue sheet |
| Names.Select | mergehelper.py:268-269 | the comprehension keeps exactly the listing's names with the suffix, and no more of them than the listing has |
| Names.SelectCountsSubset | mergehelper.py:267-269 | over a listing without repeated names, the length of the comprehension is the size of the set of names with that suffix |
| Names.SplitExtMeaning | mergehelper.py:273 | `splitext`'s root and extension concatenate to the name; a non-empty extension is one dot and no other dot, with a root that is not all dots; there is no extension exactly when no dot follows a character other than a dot |
| Names.SplitExt | mergehelper.py:273 | `os.path.splitext` on a bare name; characterised by `Names.SplitExtMeaning` |
| Names.CueStem | mergehelper.py:273 | for a cue-sheet name, the stem is the name less its last four characters when a non-dot precedes them, and the whole name when only dots do |
| Classify.CountsAreSetSizes | mergehelper.py:267-269 | `BINCOUNT` and `CUECOUNT` are the numbers of distinct `.bin` and `.cue` names in the listing |
| Classify.RoutePrecedence | mergehelper.py:276-289 | more than one cue sheet skips whatever the track count; otherwise no track skips, one track skips, and only several tracks go on to the backup step; each an if-and-only-if on the name-set sizes |
| Classify.RouteOf | mergehelper.py:276-289 | the order of the skip checks; characterised by `Classify.RoutePrecedence` |
| Classify.NameAfter | mergehelper.py:270-275 | `GAMENAME` is reassigned exactly when there is one cue sheet, and otherwise is what the previous title left |
| Classify.NameFromSingleCue | mergehelper.py:270-275 | with exactly one cue sheet, `NAMEBY == "cue"` names the title after the sheet's `splitext` stem (the sheet name less `.cue` when a non-dot precedes it), and any other `NAMEBY` names it after the folder |
| Classify.OutputName | mergehelper.py:272-275 | the `NAMEBY` choice between the cue sheet's stem and the folder name; characterised by `Classify.NameFromSingleCue` |
| RemoveMode.Resolve | mergehelper.py:345-366 | a mode other than "2" passes through unprompted; for "2", the lower-cased answer "y" gives "1", "n" gives "2", and anything else (including "q") ends the program with status 1 |
| RemoveMode.ResolvedDeletion | mergehelper.py:345-366 | when the program proceeds, the backup is deleted after a successful merge exactly when the mode was "1", or was "2" and the answer was "y" or "Y" |
| Runtime.Split | mergehelper.py:371-373 | hours, minutes and seconds add back up to the runtime, with minutes and seconds in 0..59 and hours non-negative for a non-negative runtime |
| Runtime.SplitIsUnique | mergehelper.py:372-373 | any reading with minutes and seconds in 0..59 that adds up to the runtime is the one `divmod` gives |
| Folders.BackupDirIsNotATrack | mergehelper.py:292 | the backup directory's name `orig` is neither a `.bin` nor a `.cue` name, so the clean-up loop never deletes it and it never counts |
| Folders.BackupSplitsFolder | mergehelper.py:296-314 | after the backup step, the backup holds exactly the tracks whose move succeeded; the top level keeps every other entry; the two are disjoint and together make up the folder as it was, with the same contents |
| Folders.BackedUp | mergehelper.py:296-314 | the backup step as a function; its result always has a backup directory, and its contents are characterised by `Folders.BackupSplitsFolder` |
| Folders.NonTracks | mergehelper.py:221-224 | the clean-up loop keeps exactly the entries that are not `.bin`/`.cue`, with their contents |
| Folders.RollbackKeepsOriginals | mergehelper.py:217-237 | after the rollback: every track at the top level is an original from the backup with its contents; non-track entries are kept; every original is either back at the top level or still in the backup; the backup directory is removed exactly when every original could be restored |
| Folders.RolledBack | mergehelper.py:217-237 | the rollback as a function; characterised by `Folders.RollbackKeepsOriginals` |
| Folders.Restorable | mergehelper.py:226-231 | the names the restore loop moves back: a move at line 229 succeeds unless it fails or its destination exists; used by `Folders.RollbackKeepsOriginals` to say when the backup directory is removed |
| Folders.AfterMerge | mergehelper.py:182-237 | the merge succeeds exactly when the backup holds a cue sheet and the tool exits with status 0; on success the tool's files are added and the backup is removed exactly when the resolved mode deletes it (`RemoveMode.DeletesBackup`: mode "1"); on failure the outcome reports whether the backup directory is gone |
| Folders.Attempt | mergehelper.py:296-316 | a title that reaches the backup step always ends merged or rolled back |
| Folders.TitleStep | mergehelper.py:266-316 | the pass aborts exactly when the listing has no cue sheet and no name is bound; a title that is not sent to the tool keeps its folder unchanged; the name it leaves is the one the naming step gives |
| Folders.StepReachesMerge | mergehelper.py:270-296 | a title reaches the backup and the tool exactly when it routes to a merge, has a name and no backup directory holding files, and its folder is then what the backup and merge produce |
| Folders.OnlyMergeableTitlesAreTouched | mergehelper.py:267-296 | over a real listing, a title's folder is changed only when it has at most one cue sheet, more than one track, a name, and no non-empty backup; otherwise it is skipped and untouched |
| TitleProperties.BackupHoldsOnlyTracks | mergehelper.py:298-314 | whatever the merge does, the backup holds only `.bin`/`.cue` originals of the folder, with their contents |
| TitleProperties.NonTracksUntouched | mergehelper.py:298-314 | entries that are not `.bin`/`.cue` are never moved, overwritten or deleted, through backup, merge and rollback alike |
| TitleProperties.RetentionAfterSuccess | mergehelper.py:203-215 | after a successful merge, a mode that deletes the backup (`RemoveMode.DeletesBackup`: mode "1") leaves no backup, and any other mode leaves one holding exactly the originals that were moved, with their contents; the top level is what was not moved plus the tool's output |
| TitleProperties.RetentionFollowsPrompt | mergehelper.py:208-213 | with the mode the prompt at lines 345-366 resolves, a successful merge leaves no backup directory exactly when the mode was configured to "1", or was "2" and the answer was "y" or "Y" |
| TitleProperties.FailedMergeLeavesOnlyOriginals | mergehelper.py:217-231 | after a failed merge, every `.bin`/`.cue` at the top level is an original with its original contents: nothing the tool wrote survives |
| TitleProperties.RollbackRestoresFolder | mergehelper.py:217-237 | when every backup and restore move succeeds, a failed merge leaves the top-level entries exactly as they were before the backup, and no backup directory |
| TitleProperties.RestoreEverything | mergehelper.py:226-237 | with no failing restore move, the rollback puts every original back beside the kept entries and removes the backup directory |
| TitleProperties.BackupWithoutFailures | mergehelper.py:308-314 | with no failing backup move, the backup takes every track and leaves exactly the other entries |
| TitleProperties.NonTracksIgnoreTracks | mergehelper.py:221-224 | the tool's `.bin`/`.cue` output does not change what the clean-up loop keeps |
| TitleProperties.FailedBackupMoveIsLost | mergehelper.py:308-316 | a track whose move into the backup failed is, after a failed merge, neither at the top level nor in the backup |
| TitleProperties.ListingCounts | mergehelper.py:267-269 | the names counted from a listing are the folder's own `.bin`/`.cue` entries; the backup directory is never counted |
| TitleProperties.NoCueTitleIsNeverMerged | mergehelper.py:270-316 | over a real listing with no cue sheet, a pass never ends merged, and it goes through the backup and the tool exactly when a name was carried in, there is more than one track and no backup is in use |
| TitleProperties.NoCueTitleIsRolledBack | mergehelper.py:182-237 | such a pass, when every move succeeds and the tool writes only `.bin`/`.cue` files, ends as a failed merge with the backup directory removed and the top-level entries exactly as they were |
| TitleProperties.MergedTitleIsSkippedNextTime | mergehelper.py:283-288 | a title merged with every original backed up, whose tool wrote one `.bin` and one `.cue`, is skipped unchanged as a single track by the next run |
| TitleProperties.SingleTrackIsSkipped | mergehelper.py:286-288 | a listing with one track and one cue sheet is skipped with the folder unchanged |
| Sweeps.Sweep | mergehelper.py:262-316 | the sweep has one folder per title and, unless it aborts, one outcome per title |
| Sweeps.SweepLeavesUntouchedFolders | mergehelper.py:276-295 | every skipped title, and every title after an abort, keeps its folder as it was |
| Sweeps.NamedSweepCompletes | mergehelper.py:270-290 | once a name is bound, the rest of the sweep never aborts |
| Sweeps.UnnamedNoCueTitleAbortsSweep | mergehelper.py:276-290 | starting unnamed, a title with no cue sheet that comes after only titles with several cue sheets aborts the run there: the earlier titles are reported skipped and no folder has changed |
| Sweeps.AbortNeedsUnnamedNoCueTitle | mergehelper.py:270-290 | conversely, a run aborts only at a title with no cue sheet that comes after only titles with several cue sheets |
| MergeHelper.TitleFolder.MoveTracksToBackup | mergehelper.py:298-314 | the move loop, in any order, leaves the folder as the backup step's specification says |
| MergeHelper.TitleFolder.RemoveTracks | mergehelper.py:221-224 | the delete loop, in any order, leaves exactly the non-track entries and does not touch the backup |
| MergeHelper.TitleFolder.RestoreBackup | mergehelper.py:226-231 | the restore loop moves back exactly the originals whose move neither fails nor finds its destination taken, and leaves the others in the backup |
| MergeHelper.TitleFolder.RollBack | mergehelper.py:217-237 | delete loop, restore loop and `rmdir` together produce the rollback's specified state |
| MergeHelper.TitleFolder.MergeBinFiles | mergehelper.py:177-237 | the folder and outcome are those the merge specification gives |
| MergeHelper.TitleFolder.Process | mergehelper.py:264-316 | one pass of the loop body yields the specified result; the folder ends as that result says, and is unchanged on an abort |
| MergeHelper.ProcessDirectories | mergehelper.py:239-318 | the loop over the title folders yields the outcomes, the abort and every folder's final state of the specified sweep started with no name |

## Left out

- Logging: the console and file loggers and the colourising formatter (mergehelper.py:82-148) produce output only.
- `check_dependencies` (mergehelper.py:151-175) checks the Python version and downloads `binmerge` over the network.
- The `binmerge` process (mergehelper.py:191-202): its byte-level merging and its output streaming are not part of this model. Its effect is an abstract `ServiceRun`: an exit status and the files written into the folder. Output name, cue path and `-o` directory are not modelled.
- The real filesystem. Folders are in-memory maps. Listing order is any order. Move failures come from sets given with each title. `os.path.isdir` (line 265) is taken to hold for every entry `os.scandir` reported as a directory.
- Crash paths not reached by the modelled behaviour:
  - a directory named like a track, which `os.remove` would reject at line 224;
  - `os.makedirs` failing at line 296;
  - the second listing failing at lines 297-307;
  - `shutil.rmtree` failing at line 210, which would send a successful merge into the rollback.
- `orig` existing as a plain file: `os.listdir` of it raises at line 293. The model has no such case: a top-level entry named `orig` is an ordinary entry that is not a track, and the folder is treated as if no backup directory existed.
- Sub-directories inside `orig`: every backup entry is treated as a file that moves as a unit.
- `os.path.join(GAMEROOT, GAMEDIR)` at line 264 yields the folder's path only when `GAMEROOT` is absolute. `GAMEROOT` is assumed absolute.
- The second `os.listdir` of the naming step (line 271) is taken to return the same names as the first (line 267).
- Wall-clock time: `time.time`, the float subtraction and `int()` (lines 331, 370-371). Only the integer `divmod` split is modelled.
- `str.lower()` beyond ASCII: Unicode case mapping is not modelled.
- End of input at the prompt (line 353), and the banner (lines 333-343).
