/**
 * The sweep as the script runs it: one `TitleFolder` object per sub-directory of
 * `GAMEROOT`, whose top-level entries and backup directory the loops of
 * `process_directories` and `merge_bin_files` change entry by entry. Each method
 * is proved to leave the folder in the state the functions of `Folders` and
 * `Sweeps` describe.
 */
module MergeHelper {
  import opened Wrappers
  import opened Names
  import opened Classify
  import RemoveMode
  import opened Folders
  import opened Sweeps

  class TitleFolder {
    /** `os.path.basename(GAMEDIR)`. */
    const name: string
    /** The folder's top-level entries other than the backup directory. */
    var files: map<string, Content>
    /** The entries of `GAMEDIR/orig`, when that directory exists. */
    var orig: Option<map<string, Content>>

    function State(): Folder
      reads this
    {
      Folder(files, orig)
    }

    constructor (name: string, files: map<string, Content>, orig: Option<map<string, Content>>)
      ensures this.name == name && State() == Folder(files, orig)
    {
      this.name := name;
      this.files := files;
      this.orig := orig;
    }

    /**
     * The move loop of the backup step, over the `.bin`/`.cue` names in whatever
     * order the listing gives them; a move listed in `fails` raises, is logged and
     * the file stays where it is.
     */
    method MoveTracksToBackup(fails: set<string>)
      requires orig == Some(map[])
      modifies this
      ensures State() == BackedUp(old(State()), fails)
    {
      ghost var before := State();
      var pending := set n | n in files && IsTrack(n);
      while pending != {}
        invariant orig.Some? && pending <= Tracks(before.files)
        invariant files == before.files - (Tracks(before.files) - pending - fails)
        invariant orig.value == map n | n in Tracks(before.files) - pending - fails :: before.files[n]
        decreases pending
      {
        var file :| file in pending;
        pending := pending - {file};
        if file !in fails {
          orig := Some(orig.value[file := files[file]]);
          files := files - {file};
        }
      }
      assert Tracks(before.files) - pending - fails == Tracks(before.files) - fails;
    }

    /** The clean-up loop: every top-level `.bin`/`.cue` is deleted. */
    method RemoveTracks()
      modifies this
      ensures files == NonTracks(old(files)) && orig == old(orig)
    {
      ghost var before := files;
      var listing := files.Keys;
      while listing != {}
        invariant listing <= before.Keys
        invariant files == before - (Tracks(before) - listing)
        invariant orig == old(orig)
        decreases listing
      {
        var file :| file in listing;
        listing := listing - {file};
        if IsTrack(file) {
          files := files - {file};
        }
      }
      assert files == NonTracks(before);
    }

    /**
     * The restore loop: each entry of the backup is moved back to the top level
     * unless its move fails (`restoreFails`, or a destination that exists).
     */
    method RestoreBackup(restoreFails: set<string>)
      requires orig.Some?
      modifies this
      ensures orig.Some?
      ensures var back := Restorable(old(files), old(orig.value), restoreFails);
        files == old(files) + (map n | n in back :: old(orig.value)[n]) && orig.value == old(orig.value) - back
    {
      ghost var kept, backup := files, orig.value;
      ghost var back := Restorable(kept, backup, restoreFails);
      var pending := orig.value.Keys;
      while pending != {}
        invariant orig.Some? && pending <= backup.Keys
        invariant files == kept + map n | n in back - pending :: backup[n]
        invariant orig.value == backup - (back - pending)
        decreases pending
      {
        var file :| file in pending;
        pending := pending - {file};
        if file !in restoreFails && file !in files && file != BACKUP_DIR {
          files := files[file := orig.value[file]];
          orig := Some(orig.value - {file});
        }
      }
      assert back - pending == back;
    }

    /**
     * The failure branch of `merge_bin_files`: the clean-up loop, the restore
     * loop, then `os.rmdir` of the backup directory if it is empty.
     */
    method RollBack(restoreFails: set<string>)
      requires orig.Some?
      modifies this
      ensures State() == RolledBack(old(State()), restoreFails)
    {
      RemoveTracks();
      RestoreBackup(restoreFails);
      if orig.value == map[] {
        orig := None;
      }
    }

    /**
     * `merge_bin_files`: find the cue sheet in the backup, run the tool, then keep
     * or delete the backup according to the mode; any failure rolls back.
     */
    method MergeBinFiles(run: ServiceRun, mode: string, restoreFails: set<string>) returns (outcome: TitleOutcome)
      requires orig.Some?
      modifies this
      ensures (State(), outcome) == AfterMerge(old(State()), run, mode, restoreFails)
    {
      if !HasCue(orig.value) {
        RollBack(restoreFails);
        return MergeFailed(orig.None?);
      }
      files := files + run.written;
      if !run.exitOk {
        RollBack(restoreFails);
        return MergeFailed(orig.None?);
      }
      if RemoveMode.DeletesBackup(mode) {
        orig := None;
        outcome := Merged(true);
      } else {
        outcome := Merged(false);
      }
    }

    /**
     * One pass of the loop body of `process_directories` for this folder, given
     * the listing `os.listdir` returned and the name the previous title left.
     */
    method Process(listing: seq<string>, env: TitleEnv, cfg: Config, carried: Option<string>) returns (result: TitleResult)
      requires IsListingOf(listing, State())
      modifies this
      ensures result == TitleStep(name, old(State()), listing, env, cfg, carried)
      ensures State() == if result.Done? then result.folder else old(State())
    {
      var binCount := |Select(listing, ".bin")|;
      var cueCount := |Select(listing, ".cue")|;
      var gameName := carried;
      if cueCount == 1 {
        var cueFiles := Select(listing, ".cue");
        gameName := Some(if cfg.nameBy == "cue" then SplitExt(cueFiles[0]).0 else name);
      } else if cueCount > 1 {
        return Done(State(), MultipleCuesSkipped, carried);
      }
      if gameName.None? {
        // the log call that names the title raises NameError
        return Crash;
      }
      if binCount == 0 {
        return Done(State(), NoBinSkipped, gameName);
      } else if binCount == 1 {
        return Done(State(), SingleBinSkipped, gameName);
      }
      if orig.Some? && orig.value != map[] {
        return Done(State(), BackupInUseSkipped, gameName);
      }
      if orig.None? {
        orig := Some(map[]);
      }
      MoveTracksToBackup(env.backupFails);
      var outcome := MergeBinFiles(env.run, cfg.removeMode, env.restoreFails);
      result := Done(State(), outcome, gameName);
    }
  }

  /** The titles of a sweep as the folders stand now. */
  function TitlesOf(dirs: seq<TitleFolder>, listings: seq<seq<string>>, envs: seq<TitleEnv>): (titles: seq<Title>)
    requires |listings| == |dirs| == |envs|
    reads set d | d in dirs
    ensures |titles| == |dirs|
    ensures forall i :: 0 <= i < |dirs| ==> titles[i] == Title(dirs[i].name, dirs[i].State(), listings[i], envs[i])
  {
    seq(|dirs|, i reads set d | d in dirs requires 0 <= i < |dirs| => Title(dirs[i].name, dirs[i].State(), listings[i], envs[i]))
  }

  /**
   * `process_directories`: the title folders in `os.scandir` order, each with the
   * listing `os.listdir` returns for it and what the environment does to it. The outcomes, the abort and
   * every folder's final state are those of `Sweeps.Sweep` started with no name.
   */
  method ProcessDirectories(dirs: seq<TitleFolder>, listings: seq<seq<string>>, envs: seq<TitleEnv>, cfg: Config)
    returns (outcomes: seq<TitleOutcome>, crashed: bool)
    requires |listings| == |dirs| == |envs|
    requires forall i, j :: 0 <= i < j < |dirs| ==> dirs[i] != dirs[j]
    requires forall i :: 0 <= i < |dirs| ==> IsListingOf(listings[i], dirs[i].State())
    modifies set d | d in dirs
    ensures var r := old(Sweep(TitlesOf(dirs, listings, envs), cfg, None));
      outcomes == r.outcomes && crashed == r.crashed &&
      forall i :: 0 <= i < |dirs| ==> dirs[i].State() == r.folders[i]
  {
    ghost var titles := TitlesOf(dirs, listings, envs);
    ghost var whole := Sweep(titles, cfg, None);
    ghost var done: seq<Folder> := [];
    var gameName: Option<string> := None;
    outcomes, crashed := [], false;
    SweptUpToStart(titles, cfg);
    var i := 0;
    while i < |dirs|
      invariant 0 <= i <= |dirs| && |done| == i
      invariant SweptUpTo(whole, titles, cfg, gameName, done, outcomes)
      invariant forall j :: 0 <= j < |dirs| ==> dirs[j].State() == if j < i then done[j] else titles[j].folder
    {
      ghost var t := titles[i];
      assert t == Title(dirs[i].name, dirs[i].State(), listings[i], envs[i]);
      var result := dirs[i].Process(listings[i], envs[i], cfg, gameName);
      if result.Crash? {
        SweptAbort(whole, titles, cfg, gameName, done, outcomes);
        crashed := true;
        return;
      }
      SweptOneMore(whole, titles, cfg, gameName, done, outcomes, result.folder, result.outcome, result.name);
      done := done + [result.folder];
      outcomes := outcomes + [result.outcome];
      gameName := result.name;
      i := i + 1;
    }
    SweptAll(whole, titles, cfg, gameName, done, outcomes);
  }
}
