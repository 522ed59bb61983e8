/**
 * The filesystem as the sweep sees it, and what each step of the per-title
 * protocol does to it, as functions on values: the backup of `process_directories`,
 * the retention and rollback of `merge_bin_files`, one title's pass through the
 * loop body, and the whole sweep with the output name carried between titles.
 */
module Folders {
  import opened Wrappers
  import opened Names
  import opened Classify
  import RemoveMode

  /** What a directory entry holds; the sweep never looks inside. */
  type Content = seq<bv8>

  /** The backup directory created inside a title folder. */
  const BACKUP_DIR := "orig"

  /**
   * A title folder: its top-level entries other than the backup directory, and
   * the entries of the backup directory when it exists.
   */
  datatype Folder = Folder(files: map<string, Content>, orig: Option<map<string, Content>>)

  /** The backup directory is never also an ordinary entry of the folder. */
  predicate Valid(f: Folder) {
    BACKUP_DIR !in f.files
  }

  /** The names `os.listdir(GAMEDIR)` returns. */
  function Listing(f: Folder): set<string> {
    f.files.Keys + (if f.orig.Some? then {BACKUP_DIR} else {})
  }

  /** `listing` is one order in which `os.listdir` may return the folder's names. */
  predicate IsListingOf(listing: seq<string>, f: Folder) {
    NoDuplicates(listing) && (set x | x in listing) == Listing(f)
  }

  function Tracks(m: map<string, Content>): set<string> {
    set n | n in m && IsTrack(n)
  }

  /** The backup directory's name is not itself a `.bin` or `.cue` name. */
  lemma BackupDirIsNotATrack()
    ensures !IsTrack(BACKUP_DIR)
  {
    assert Lower(BACKUP_DIR) == BACKUP_DIR;
    assert BACKUP_DIR[0..] != ".bin" && BACKUP_DIR[0..] != ".cue" by {
      assert BACKUP_DIR[0..][0] == 'o';
    }
  }

  /** The guard at the backup step: the backup directory exists and is not empty. */
  predicate BackupInUse(f: Folder) {
    f.orig.Some? && f.orig.value != map[]
  }

  /**
   * After `os.makedirs(orig_dir, exist_ok=True)` and the move loop: each top-level
   * `.bin`/`.cue` whose move does not fail (`fails` names those whose `shutil.move`
   * raises) is now in the backup directory with the same contents, and everything
   * else stays where it was.
   */
  function BackedUp(f: Folder, fails: set<string>): (g: Folder)
    requires !BackupInUse(f)
    ensures g.orig.Some?
  {
    var moved := Tracks(f.files) - fails;
    Folder(f.files - moved, Some(map n | n in moved :: f.files[n]))
  }

  /**
   * The backup step splits the folder: the backup holds exactly the tracks whose
   * move succeeded, the top level keeps everything else, and together they are
   * the folder as it was.
   */
  lemma BackupSplitsFolder(f: Folder, fails: set<string>)
    requires !BackupInUse(f)
    ensures var g := BackedUp(f, fails);
      && (forall n :: n in g.orig.value <==> n in f.files && IsTrack(n) && n !in fails)
      && (forall n :: n in g.files <==> n in f.files && (!IsTrack(n) || n in fails))
      && g.files.Keys !! g.orig.value.Keys && g.files + g.orig.value == f.files
  {
  }

  /** The top-level entries that survive the clean-up loop: everything but `.bin`/`.cue`. */
  function NonTracks(m: map<string, Content>): (r: map<string, Content>)
    ensures forall n :: n in r <==> n in m && !IsTrack(n)
    ensures forall n :: n in r ==> r[n] == m[n]
  {
    map n | n in m && !IsTrack(n) :: m[n]
  }

  /**
   * The names the restore loop moves back: a move fails when `restoreFails` says
   * so or when the destination already exists (a surviving top-level entry, or
   * the backup directory itself).
   */
  function Restorable(kept: map<string, Content>, backup: map<string, Content>, restoreFails: set<string>): set<string> {
    set n | n in backup && n !in restoreFails && n !in kept && n != BACKUP_DIR
  }

  /**
   * The failure branch of `merge_bin_files`: remove every top-level `.bin`/`.cue`,
   * move the backup's entries back, then remove the backup directory if it is
   * empty.
   */
  function RolledBack(f: Folder, restoreFails: set<string>): (g: Folder)
    requires f.orig.Some?
  {
    var kept := NonTracks(f.files);
    var back := Restorable(kept, f.orig.value, restoreFails);
    var left := f.orig.value - back;
    Folder(kept + map n | n in back :: f.orig.value[n], if left == map[] then None else Some(left))
  }

  /**
   * What the rollback guarantees: a track left at the top level is an original
   * from the backup; everything else at the top level is kept; every original
   * ends up either at the top level or still in the backup, with its contents;
   * the backup directory is removed exactly when every original was restored.
   */
  lemma RollbackKeepsOriginals(f: Folder, restoreFails: set<string>)
    requires f.orig.Some?
    ensures var g := RolledBack(f, restoreFails);
      && (forall n :: n in g.files && IsTrack(n) ==> n in f.orig.value && g.files[n] == f.orig.value[n])
      && (forall n :: n in f.files && !IsTrack(n) ==> n in g.files && g.files[n] == f.files[n])
      && (forall n :: n in f.orig.value ==>
            (n in g.files && g.files[n] == f.orig.value[n]) || (g.orig.Some? && n in g.orig.value && g.orig.value[n] == f.orig.value[n]))
      && (g.orig.None? <==> forall n :: n in f.orig.value ==> n in Restorable(NonTracks(f.files), f.orig.value, restoreFails))
      && (forall n :: n in g.files ==> (n in f.files && !IsTrack(n)) || n in f.orig.value)
      && (g.orig.Some? ==> g.orig.value.Keys <= f.orig.value.Keys)
  {
    var back := Restorable(NonTracks(f.files), f.orig.value, restoreFails);
    var left := f.orig.value - back;
    if left == map[] {
      forall n | n in f.orig.value ensures n in back {
        assert n !in left;
      }
    }
  }

  /** What the external merge tool did: its exit status and the files it wrote into the title folder. */
  datatype ServiceRun = ServiceRun(exitOk: bool, written: map<string, Content>)

  /** The merge tool writes only a merged `.bin` and `.cue`. */
  predicate WritesTracksOnly(run: ServiceRun) {
    forall n :: n in run.written ==> IsTrack(n)
  }

  datatype TitleOutcome =
    | MultipleCuesSkipped
    | NoBinSkipped
    | SingleBinSkipped
    | BackupInUseSkipped
    | Merged(backupDeleted: bool)
    | MergeFailed(backupRemoved: bool)

  /** `merge_bin_files` finds a cue sheet in the backup directory. */
  predicate HasCue(m: map<string, Content>) {
    exists n :: n in m && IsCue(n)
  }

  /**
   * `merge_bin_files`: with no cue sheet in the backup the lookup raises before
   * the tool runs; otherwise the tool writes its output, and a non-zero exit also
   * leads to the rollback. After a successful run the backup is deleted exactly
   * when the mode deletes it (`REMOVEMODE` "1").
   */
  function AfterMerge(f: Folder, run: ServiceRun, mode: string, restoreFails: set<string>): (r: (Folder, TitleOutcome))
    requires f.orig.Some?
    ensures r.1.Merged? || r.1.MergeFailed?
    ensures r.1.Merged? <==> HasCue(f.orig.value) && run.exitOk
    ensures r.1.Merged? ==> r.0.files == f.files + run.written
    ensures r.1.Merged? ==> (r.1.backupDeleted <==> RemoveMode.DeletesBackup(mode))
    ensures r.1.Merged? ==> r.0.orig == if RemoveMode.DeletesBackup(mode) then None else f.orig
    ensures r.1.MergeFailed? ==> r.1.backupRemoved == r.0.orig.None?
  {
    if !HasCue(f.orig.value) then
      var g := RolledBack(f, restoreFails);
      (g, MergeFailed(g.orig.None?))
    else
      var out := Folder(f.files + run.written, f.orig);
      if !run.exitOk then
        var g := RolledBack(out, restoreFails);
        (g, MergeFailed(g.orig.None?))
      else if RemoveMode.DeletesBackup(mode) then
        (Folder(out.files, None), Merged(true))
      else
        (out, Merged(false))
  }

  /** What the environment does for one title: failed moves and the merge tool's run. */
  datatype TitleEnv = TitleEnv(backupFails: set<string>, run: ServiceRun, restoreFails: set<string>)

  /** `NAMEBY` and the resolved `REMOVEMODE`. */
  datatype Config = Config(nameBy: string, removeMode: string)

  /** One pass of the loop body: a `NameError` (no name bound yet) aborts the script. */
  datatype TitleResult = Crash | Done(folder: Folder, outcome: TitleOutcome, name: Option<string>)

  /** Whether the title went through the backup and the merge tool. */
  predicate Attempted(o: TitleOutcome) {
    o.Merged? || o.MergeFailed?
  }

  /** The backup, the merge tool and the retention or rollback, for a title that reached the backup step. */
  function Attempt(f: Folder, env: TitleEnv, mode: string): (r: (Folder, TitleOutcome))
    requires !BackupInUse(f)
    ensures Attempted(r.1)
  {
    AfterMerge(BackedUp(f, env.backupFails), env.run, mode, env.restoreFails)
  }

  /**
   * One title folder `f`, named `title`, whose listing is `listing`, with the name
   * `carried` left by the previous title.
   */
  function TitleStep(title: string, f: Folder, listing: seq<string>, env: TitleEnv, cfg: Config, carried: Option<string>): (r: TitleResult)
    ensures r.Crash? <==> CueCount(listing) == 0 && carried.None?
    ensures r.Done? && !Attempted(r.outcome) ==> r.folder == f
    ensures r.Done? ==> r.name == NameAfter(listing, title, cfg.nameBy, carried)
  {
    var route := RouteOf(listing);
    if route == MultipleCues then Done(f, MultipleCuesSkipped, carried)
    else
      var name := NameAfter(listing, title, cfg.nameBy, carried);
      if name.None? then Crash
      else if route == NoBin then Done(f, NoBinSkipped, name)
      else if route == SingleBin then Done(f, SingleBinSkipped, name)
      else if BackupInUse(f) then Done(f, BackupInUseSkipped, name)
      else
        var r := Attempt(f, env, cfg.removeMode);
        Done(r.0, r.1, name)
  }

  /**
   * Routing precedence, end to end: a title reaches the backup and the merge tool
   * exactly when it has at most one cue sheet, more than one track, a name to use
   * and no backup directory holding files.
   */
  lemma OnlyMergeableTitlesAreTouched(title: string, f: Folder, listing: seq<string>, env: TitleEnv, cfg: Config, carried: Option<string>)
    requires IsListingOf(listing, f)
    ensures var r := TitleStep(title, f, listing, env, cfg, carried);
      r.Done? && Attempted(r.outcome) <==>
      |CueNames(listing)| <= 1 && |BinNames(listing)| > 1 && !BackupInUse(f) && (CueNames(listing) != {} || carried.Some?)
    ensures var r := TitleStep(title, f, listing, env, cfg, carried);
      r.Done? && Attempted(r.outcome) ==> (r.folder, r.outcome) == Attempt(f, env, cfg.removeMode)
  {
    StepReachesMerge(title, f, listing, env, cfg, carried);
    RoutePrecedence(listing);
    CountsAreSetSizes(listing);
  }

  /** A title reaches the backup step exactly when it routes there, has a name and no backup in use. */
  lemma StepReachesMerge(title: string, f: Folder, listing: seq<string>, env: TitleEnv, cfg: Config, carried: Option<string>)
    ensures var r := TitleStep(title, f, listing, env, cfg, carried);
      r.Done? && Attempted(r.outcome) <==>
      RouteOf(listing) == AttemptMerge && !BackupInUse(f) && NameAfter(listing, title, cfg.nameBy, carried).Some?
    ensures var r := TitleStep(title, f, listing, env, cfg, carried);
      r.Done? && Attempted(r.outcome) ==> (r.folder, r.outcome) == Attempt(f, env, cfg.removeMode)
  {
  }
}
