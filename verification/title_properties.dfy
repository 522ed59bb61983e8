/**
 * What one title's pass through the sweep guarantees about its folder: entries
 * other than `.bin`/`.cue` are never touched, retention follows the mode, a
 * failed merge leaves only original tracks behind and, when every move
 * succeeds, restores the folder exactly; a track whose backup move failed is
 * lost by the rollback; and a merged title is skipped by the next sweep.
 */
module TitleProperties {
  import opened Wrappers
  import opened Names
  import opened Classify
  import RemoveMode
  import opened Folders

  /** The backup directory left by the backup step holds only `.bin`/`.cue` names. */
  lemma {:induction false} BackupHoldsOnlyTracks(f: Folder, env: TitleEnv, mode: string)
    requires !BackupInUse(f)
    ensures var g := Attempt(f, env, mode).0;
      g.orig.Some? ==> forall n :: n in g.orig.value ==> IsTrack(n) && n in f.files && g.orig.value[n] == f.files[n]
  {
  }

  /** Entries that are not `.bin`/`.cue` (other files, other sub-directories) are never moved, overwritten or deleted. */
  lemma {:induction false} NonTracksUntouched(f: Folder, env: TitleEnv, mode: string)
    requires !BackupInUse(f) && WritesTracksOnly(env.run)
    ensures var g := Attempt(f, env, mode).0;
      forall n :: !IsTrack(n) ==> (n in g.files <==> n in f.files) && (n in f.files ==> g.files[n] == f.files[n])
  {
  }

  /**
   * After a successful merge the folder holds what was left plus what the tool
   * wrote; the backup is gone when the mode deletes it and otherwise holds exactly
   * the originals whose move succeeded, with their contents.
   */
  lemma {:induction false} RetentionAfterSuccess(f: Folder, env: TitleEnv, mode: string)
    requires !BackupInUse(f)
    ensures var r := Attempt(f, env, mode);
      r.1.Merged? ==>
        && (r.1.backupDeleted <==> RemoveMode.DeletesBackup(mode))
        && (RemoveMode.DeletesBackup(mode) ==> r.0.orig.None?)
        && (!RemoveMode.DeletesBackup(mode) ==> r.0.orig == Some(map n | n in f.files && IsTrack(n) && n !in env.backupFails :: f.files[n]))
        && r.0.files == f.files - (Tracks(f.files) - env.backupFails) + env.run.written
  {
    var b := BackedUp(f, env.backupFails);
    var r := Attempt(f, env, mode);
    if r.1.Merged? && !RemoveMode.DeletesBackup(mode) {
      var kept := map n | n in f.files && IsTrack(n) && n !in env.backupFails :: f.files[n];
      assert b.orig.value == kept;
    }
  }

  /**
   * What the `REMOVEMODE` prompt decides, carried through to the folder: after a
   * successful merge the backup directory is gone exactly when the mode was
   * configured to "1", or was "2" and the operator answered "y" or "Y".
   */
  lemma RetentionFollowsPrompt(f: Folder, env: TitleEnv, configured: string, answer: string)
    requires !BackupInUse(f) && RemoveMode.Resolve(configured, answer).Proceed?
    ensures var r := Attempt(f, env, RemoveMode.Resolve(configured, answer).mode);
      r.1.Merged? ==>
        (r.0.orig.None? <==> configured == RemoveMode.REMOVE_ON_SUCCESS || (configured == RemoveMode.PROMPT && answer in {"y", "Y"}))
  {
    RemoveMode.ResolvedDeletion(configured, answer);
    RetentionAfterSuccess(f, env, RemoveMode.Resolve(configured, answer).mode);
  }

  /**
   * After a failed merge (no cue sheet in the backup, or a non-zero exit) every
   * `.bin`/`.cue` left in the folder is an original with its original contents:
   * nothing the tool wrote survives.
   */
  lemma {:induction false} FailedMergeLeavesOnlyOriginals(f: Folder, env: TitleEnv, mode: string)
    requires !BackupInUse(f)
    ensures var r := Attempt(f, env, mode);
      r.1.MergeFailed? ==> forall n :: n in r.0.files && IsTrack(n) ==> n in f.files && r.0.files[n] == f.files[n]
  {
  }

  /**
   * When every backup and restore move succeeds, a failed merge leaves the folder's
   * top-level entries exactly as they were before the backup, and no backup
   * directory.
   */
  lemma {:induction false} RollbackRestoresFolder(f: Folder, env: TitleEnv, mode: string)
    requires !BackupInUse(f) && WritesTracksOnly(env.run)
    requires env.backupFails == {} && env.restoreFails == {}
    ensures var r := Attempt(f, env, mode);
      r.1.MergeFailed? ==> r.0.files == f.files && r.0.orig.None?
  {
    var b := BackedUp(f, {});
    var r := Attempt(f, env, mode);
    if r.1.MergeFailed? {
      BackupWithoutFailures(f);
      var before := if HasCue(b.orig.value) then Folder(b.files + env.run.written, b.orig) else b;
      assert r.0 == RolledBack(before, {});
      NonTracksIgnoreTracks(b.files, env.run.written);
      RestoreEverything(before);
    }
  }

  /** With no failing move, the backup takes every track and leaves the rest. */
  lemma BackupWithoutFailures(f: Folder)
    requires !BackupInUse(f)
    ensures var b := BackedUp(f, {});
      && NonTracks(b.files) == NonTracks(f.files)
      && (forall n :: n in b.orig.value ==> IsTrack(n))
      && NonTracks(f.files) + b.orig.value == f.files
  {
  }

  /** Adding `.bin`/`.cue` entries does not change what the clean-up loop keeps. */
  lemma NonTracksIgnoreTracks(m: map<string, Content>, w: map<string, Content>)
    requires forall n :: n in w ==> IsTrack(n)
    ensures NonTracks(m + w) == NonTracks(m)
  {
  }

  /** With no failing move, the rollback brings every backed-up track back and removes the backup directory. */
  lemma RestoreEverything(f: Folder)
    requires f.orig.Some? && forall n :: n in f.orig.value ==> IsTrack(n)
    ensures RolledBack(f, {}) == Folder(NonTracks(f.files) + f.orig.value, None)
  {
    BackupDirIsNotATrack();
    var backup := f.orig.value;
    assert Restorable(NonTracks(f.files), backup, {}) == backup.Keys;
    assert (map n | n in backup.Keys :: backup[n]) == backup;
    assert backup - backup.Keys == map[];
  }

  /**
   * A `.bin`/`.cue` whose move into the backup failed stays at the top level,
   * where the clean-up of a failed merge deletes it: it ends up nowhere.
   */
  lemma {:induction false} FailedBackupMoveIsLost(f: Folder, env: TitleEnv, mode: string, name: string)
    requires !BackupInUse(f)
    requires name in f.files && IsTrack(name) && name in env.backupFails
    ensures var r := Attempt(f, env, mode);
      r.1.MergeFailed? ==> name !in r.0.files && (r.0.orig.None? || name !in r.0.orig.value)
  {
  }

  /**
   * A title without cue sheet is never merged, even when a name carried from an
   * earlier title lets it past the name check: if it has more than one `.bin` its
   * tracks are moved into the backup, the cue-sheet lookup there fails, and the
   * folder is rolled back.
   */
  lemma NoCueTitleIsNeverMerged(title: string, f: Folder, listing: seq<string>, env: TitleEnv, cfg: Config, carried: Option<string>)
    requires IsListingOf(listing, f) && CueCount(listing) == 0
    ensures var r := TitleStep(title, f, listing, env, cfg, carried);
      r.Done? ==> !r.outcome.Merged?
    ensures var r := TitleStep(title, f, listing, env, cfg, carried);
      r.Done? && Attempted(r.outcome) <==> carried.Some? && |BinNames(listing)| > 1 && !BackupInUse(f)
  {
    var r := TitleStep(title, f, listing, env, cfg, carried);
    OnlyMergeableTitlesAreTouched(title, f, listing, env, cfg, carried);
    CountsAreSetSizes(listing);
    if r.Done? && Attempted(r.outcome) {
      // the backup holds only names from the folder, none of them a cue sheet
      ListingCounts(listing, f);
      BackupSplitsFolder(f, env.backupFails);
    }
  }

  /**
   * Such a title, when every move succeeds and the tool writes only `.bin`/`.cue`
   * files, ends with a failed merge whose rollback puts the folder back exactly
   * as it was and removes the backup directory.
   */
  lemma NoCueTitleIsRolledBack(title: string, f: Folder, listing: seq<string>, env: TitleEnv, cfg: Config, carried: Option<string>)
    requires IsListingOf(listing, f) && CueCount(listing) == 0
    requires env.backupFails == {} && env.restoreFails == {} && WritesTracksOnly(env.run)
    ensures var r := TitleStep(title, f, listing, env, cfg, carried);
      r.Done? && Attempted(r.outcome) ==> r.outcome == MergeFailed(true) && r.folder == Folder(f.files, None)
  {
    var r := TitleStep(title, f, listing, env, cfg, carried);
    if r.Done? && Attempted(r.outcome) {
      NoCueTitleIsNeverMerged(title, f, listing, env, cfg, carried);
      StepReachesMerge(title, f, listing, env, cfg, carried);
      RollbackRestoresFolder(f, env, cfg.removeMode);
    }
  }

  /** The names the classifier counts are the folder's own `.bin` and `.cue` entries; the backup directory never counts. */
  lemma ListingCounts(listing: seq<string>, f: Folder)
    requires IsListingOf(listing, f)
    ensures BinNames(listing) == set n | n in f.files && IsBin(n)
    ensures CueNames(listing) == set n | n in f.files && IsCue(n)
  {
    BackupDirIsNotATrack();
    forall n | n in listing ensures n in Listing(f) {
      assert n in set x | x in listing;
    }
    forall n | n in f.files ensures n in listing {
      assert n in Listing(f);
    }
  }

  /**
   * A title the sweep merged is skipped by the next sweep as a single track, and
   * left unchanged, when all its originals were backed up and the tool wrote one
   * `.bin` and one `.cue`.
   */
  lemma {:induction false} MergedTitleIsSkippedNextTime(
    title: string, f: Folder, listing: seq<string>, env: TitleEnv, cfg: Config, carried: Option<string>,
    nextListing: seq<string>, nextEnv: TitleEnv, nextCarried: Option<string>)
    requires Valid(f) && IsListingOf(listing, f) && WritesTracksOnly(env.run) && env.backupFails == {}
    requires |set n | n in env.run.written && IsBin(n)| == 1 && |set n | n in env.run.written && IsCue(n)| == 1
    requires var r := TitleStep(title, f, listing, env, cfg, carried); r.Done? && r.outcome.Merged?
    requires IsListingOf(nextListing, TitleStep(title, f, listing, env, cfg, carried).folder)
    ensures var g := TitleStep(title, f, listing, env, cfg, carried).folder;
      var next := TitleStep(title, g, nextListing, nextEnv, cfg, nextCarried);
      next.Done? && next.folder == g && next.outcome == SingleBinSkipped
  {
    var g := TitleStep(title, f, listing, env, cfg, carried).folder;
    MergedFolderFiles(title, f, listing, env, cfg, carried);
    MergedFolderRoutesAsSingleTrack(f, env.run.written, g, nextListing);
    SingleTrackIsSkipped(title, g, nextListing, nextEnv, cfg, nextCarried);
  }

  /** A listing with one `.bin` and one `.cue` is skipped as a single track, whatever the rest. */
  lemma SingleTrackIsSkipped(title: string, f: Folder, listing: seq<string>, env: TitleEnv, cfg: Config, carried: Option<string>)
    requires RouteOf(listing) == SingleBin && CueCount(listing) == 1
    ensures var r := TitleStep(title, f, listing, env, cfg, carried); r.Done? && r.folder == f && r.outcome == SingleBinSkipped
  {
  }

  /** A merge with no failed backup move leaves the non-tracks plus what the tool wrote. */
  lemma MergedFolderFiles(title: string, f: Folder, listing: seq<string>, env: TitleEnv, cfg: Config, carried: Option<string>)
    requires IsListingOf(listing, f) && env.backupFails == {}
    requires var r := TitleStep(title, f, listing, env, cfg, carried); r.Done? && r.outcome.Merged?
    ensures TitleStep(title, f, listing, env, cfg, carried).folder.files == f.files - Tracks(f.files) + env.run.written
  {
    var r := TitleStep(title, f, listing, env, cfg, carried);
    OnlyMergeableTitlesAreTouched(title, f, listing, env, cfg, carried);
    var a := Attempt(f, env, cfg.removeMode);
    assert r.folder == a.0 && a.1.Merged?;
    RetentionAfterSuccess(f, env, cfg.removeMode);
    assert Tracks(f.files) - env.backupFails == Tracks(f.files);
  }

  /** That folder's next listing holds exactly one `.bin` and one `.cue`. */
  lemma MergedFolderRoutesAsSingleTrack(f: Folder, written: map<string, Content>, g: Folder, nextListing: seq<string>)
    requires forall n :: n in written ==> IsTrack(n)
    requires |set n | n in written && IsBin(n)| == 1 && |set n | n in written && IsCue(n)| == 1
    requires g.files == f.files - Tracks(f.files) + written
    requires IsListingOf(nextListing, g)
    ensures RouteOf(nextListing) == SingleBin && CueCount(nextListing) == 1
  {
    ListingCounts(nextListing, g);
    assert BinNames(nextListing) == set n | n in written && IsBin(n);
    assert CueNames(nextListing) == set n | n in written && IsCue(n);
    RoutePrecedence(nextListing);
    CountsAreSetSizes(nextListing);
  }
}
