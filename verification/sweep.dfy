/**
 * The sweep of `process_directories` over the sub-directories of `GAMEROOT`:
 * titles are processed one after the other, each with the name the previous
 * ones left in `GAMENAME`, and a title that needs a name when none has been
 * bound aborts the whole script with a `NameError`.
 */
module Sweeps {
  import opened Wrappers
  import opened Classify
  import opened Folders

  /** One sub-directory of `GAMEROOT` as the sweep finds it, and what the environment does to it. */
  datatype Title = Title(name: string, folder: Folder, listing: seq<string>, env: TitleEnv)

  /** The folders after the sweep, one outcome per title processed, and whether the script aborted. */
  datatype SweepResult = SweepResult(folders: seq<Folder>, outcomes: seq<TitleOutcome>, crashed: bool)

  function FoldersOf(titles: seq<Title>): (r: seq<Folder>)
    ensures |r| == |titles| && forall i :: 0 <= i < |titles| ==> r[i] == titles[i].folder
  {
    seq(|titles|, i requires 0 <= i < |titles| => titles[i].folder)
  }

  /**
   * The sweep from the name `carried` on: one folder per title, and an outcome
   * for every title unless the script aborts.
   */
  function Sweep(titles: seq<Title>, cfg: Config, carried: Option<string>): (r: SweepResult)
    ensures |r.folders| == |titles| && |r.outcomes| <= |titles|
    ensures !r.crashed ==> |r.outcomes| == |titles|
    decreases |titles|
  {
    if titles == [] then SweepResult([], [], false)
    else
      var t := titles[0];
      match TitleStep(t.name, t.folder, t.listing, t.env, cfg, carried)
      case Crash => SweepResult(FoldersOf(titles), [], true)
      case Done(g, o, name) =>
        var rest := Sweep(titles[1..], cfg, name);
        SweepResult([g] + rest.folders, [o] + rest.outcomes, rest.crashed)
  }

  /**
   * In `r`, the folders of titles after the abort, and of titles that were
   * skipped, are the folders as they were.
   */
  predicate KeepsUntouched(titles: seq<Title>, r: SweepResult)
    requires |r.folders| == |titles| && |r.outcomes| <= |titles|
  {
    && (r.crashed ==> forall i :: |r.outcomes| <= i < |titles| ==> r.folders[i] == titles[i].folder)
    && (forall i :: 0 <= i < |r.outcomes| && !Attempted(r.outcomes[i]) ==> r.folders[i] == titles[i].folder)
  }

  /** Titles after the abort, and titles that were skipped, keep their folders as they were. */
  lemma {:induction false} SweepLeavesUntouchedFolders(titles: seq<Title>, cfg: Config, carried: Option<string>)
    ensures KeepsUntouched(titles, Sweep(titles, cfg, carried))
    decreases |titles|
  {
    if titles != [] {
      var t := titles[0];
      var step := TitleStep(t.name, t.folder, t.listing, t.env, cfg, carried);
      if step.Crash? {
        assert Sweep(titles, cfg, carried) == SweepResult(FoldersOf(titles), [], true);
      } else {
        var rest := Sweep(titles[1..], cfg, step.name);
        SweepLeavesUntouchedFolders(titles[1..], cfg, step.name);
        SweepFromDone(titles, 0, cfg, carried, step.folder, step.outcome, step.name);
        assert titles[0..] == titles;
        KeepsUntouchedPrepend(titles, step.folder, step.outcome, rest);
      }
    }
  }

  /** Putting the first title back in front keeps `KeepsUntouched`, when that title's folder is unchanged unless it was merged. */
  lemma KeepsUntouchedPrepend(titles: seq<Title>, g: Folder, o: TitleOutcome, rest: SweepResult)
    requires |titles| > 0 && |rest.folders| == |titles| - 1 && |rest.outcomes| < |titles|
    requires KeepsUntouched(titles[1..], rest)
    requires !Attempted(o) ==> g == titles[0].folder
    ensures KeepsUntouched(titles, SweepResult([g] + rest.folders, [o] + rest.outcomes, rest.crashed))
  {
  }

  /**
   * `whole` is the sweep of all titles, split after the first `|done|`: `done` and
   * `outcomes` are what the titles before position `|done|` produced, and the
   * titles from there on are still to come, with the name `carried`.
   */
  predicate SweptUpTo(whole: SweepResult, titles: seq<Title>, cfg: Config, carried: Option<string>,
                      done: seq<Folder>, outcomes: seq<TitleOutcome>)
  {
    |done| <= |titles| &&
    var rest := Sweep(titles[|done|..], cfg, carried);
    whole.folders == done + rest.folders && whole.outcomes == outcomes + rest.outcomes && whole.crashed == rest.crashed
  }

  /** Nothing is swept yet. */
  lemma SweptUpToStart(titles: seq<Title>, cfg: Config)
    ensures SweptUpTo(Sweep(titles, cfg, None), titles, cfg, None, [], [])
  {
  }

  /** Sweeping one more title that does not abort extends the prefix by its folder and outcome. */
  lemma SweptOneMore(whole: SweepResult, titles: seq<Title>, cfg: Config, carried: Option<string>,
                     done: seq<Folder>, outcomes: seq<TitleOutcome>, g: Folder, o: TitleOutcome, name: Option<string>)
    requires SweptUpTo(whole, titles, cfg, carried, done, outcomes) && |done| < |titles|
    requires var t := titles[|done|]; TitleStep(t.name, t.folder, t.listing, t.env, cfg, carried) == Done(g, o, name)
    ensures SweptUpTo(whole, titles, cfg, name, done + [g], outcomes + [o])
  {
    var i := |done|;
    var rest := Sweep(titles[i + 1..], cfg, name);
    SweepFromDone(titles, i, cfg, carried, g, o, name);
    AppendAssociates(done, g, rest.folders);
    AppendAssociates(outcomes, o, rest.outcomes);
    assert |done + [g]| == i + 1;
  }

  /** Appending one element, then a sequence, is the same either way round. */
  lemma AppendAssociates<T>(a: seq<T>, x: T, b: seq<T>)
    ensures a + ([x] + b) == (a + [x]) + b
  {
  }

  /** The sweep from position `i`, when the title there does not abort. */
  lemma SweepFromDone(titles: seq<Title>, i: nat, cfg: Config, carried: Option<string>, g: Folder, o: TitleOutcome, name: Option<string>)
    requires i < |titles|
    requires var t := titles[i]; TitleStep(t.name, t.folder, t.listing, t.env, cfg, carried) == Done(g, o, name)
    ensures var rest := Sweep(titles[i + 1..], cfg, name);
      Sweep(titles[i..], cfg, carried) == SweepResult([g] + rest.folders, [o] + rest.outcomes, rest.crashed)
  {
  }

  /** A title that aborts ends the sweep there: no further outcome, and the remaining folders as they were. */
  lemma SweptAbort(whole: SweepResult, titles: seq<Title>, cfg: Config, carried: Option<string>,
                   done: seq<Folder>, outcomes: seq<TitleOutcome>)
    requires SweptUpTo(whole, titles, cfg, carried, done, outcomes) && |done| < |titles|
    requires var t := titles[|done|]; TitleStep(t.name, t.folder, t.listing, t.env, cfg, carried).Crash?
    ensures whole.outcomes == outcomes && whole.crashed
    ensures forall j :: |done| <= j < |titles| ==> whole.folders[j] == titles[j].folder
  {
  }

  /** The whole sweep, once every title has been processed. */
  lemma SweptAll(whole: SweepResult, titles: seq<Title>, cfg: Config, carried: Option<string>,
                 done: seq<Folder>, outcomes: seq<TitleOutcome>)
    requires SweptUpTo(whole, titles, cfg, carried, done, outcomes) && |done| == |titles|
    ensures whole.folders == done && whole.outcomes == outcomes && !whole.crashed
  {
  }

  /**
   * Once a name is bound the sweep never aborts: the only abort is a title with
   * no cue sheet reached before any title with exactly one.
   */
  lemma {:induction false} NamedSweepCompletes(titles: seq<Title>, cfg: Config, carried: Option<string>)
    requires carried.Some?
    ensures !Sweep(titles, cfg, carried).crashed
    decreases |titles|
  {
    if titles != [] {
      var t := titles[0];
      var r := TitleStep(t.name, t.folder, t.listing, t.env, cfg, carried);
      assert r.Done? && r.name.Some?;
      NamedSweepCompletes(titles[1..], cfg, r.name);
    }
  }

  /**
   * Starting with no name, a title without cue sheet that comes after nothing but
   * titles with several cue sheets aborts the script: those titles are reported
   * as skipped and no folder has changed.
   */
  lemma {:induction false} UnnamedNoCueTitleAbortsSweep(titles: seq<Title>, cfg: Config, k: nat)
    requires k < |titles|
    requires CueCount(titles[k].listing) == 0
    requires forall j :: 0 <= j < k ==> CueCount(titles[j].listing) > 1
    ensures var r := Sweep(titles, cfg, None);
      r.crashed && |r.outcomes| == k && (forall i :: 0 <= i < k ==> r.outcomes[i] == MultipleCuesSkipped) &&
      forall i :: 0 <= i < |titles| ==> r.folders[i] == titles[i].folder
    decreases k
  {
    var t := titles[0];
    if k == 0 {
      assert TitleStep(t.name, t.folder, t.listing, t.env, cfg, None).Crash?;
      assert Sweep(titles, cfg, None) == SweepResult(FoldersOf(titles), [], true);
    } else {
      ShiftedCueCounts(titles, k);
      UnnamedNoCueTitleAbortsSweep(titles[1..], cfg, k - 1);
      SkipFirst(titles, cfg);
      var r, rest := Sweep(titles, cfg, None), Sweep(titles[1..], cfg, None);
      forall i | 1 <= i < k ensures r.outcomes[i] == MultipleCuesSkipped {
        assert r.outcomes[i] == rest.outcomes[i - 1];
      }
      forall i | 1 <= i < |titles| ensures r.folders[i] == titles[i].folder {
        assert r.folders[i] == rest.folders[i - 1] && titles[i] == titles[1..][i - 1];
      }
    }
  }

  /** The cue-count conditions seen from the second title on. */
  lemma ShiftedCueCounts(titles: seq<Title>, k: nat)
    requires 0 < k < |titles|
    requires CueCount(titles[k].listing) == 0
    requires forall j :: 0 <= j < k ==> CueCount(titles[j].listing) > 1
    ensures CueCount(titles[1..][k - 1].listing) == 0
    ensures forall j :: 0 <= j < k - 1 ==> CueCount(titles[1..][j].listing) > 1
  {
  }

  /**
   * A first title with several cue sheets is skipped, unchanged, and the name is
   * still unbound for the titles after it.
   */
  lemma SkipFirst(titles: seq<Title>, cfg: Config)
    requires |titles| > 0 && CueCount(titles[0].listing) > 1
    ensures var rest := Sweep(titles[1..], cfg, None);
      Sweep(titles, cfg, None) == SweepResult([titles[0].folder] + rest.folders, [MultipleCuesSkipped] + rest.outcomes, rest.crashed)
  {
  }

  /**
   * Conversely, a sweep that starts with no name aborts only at such a title: the
   * title where it stops has no cue sheet and every title before it has several.
   */
  lemma {:induction false} AbortNeedsUnnamedNoCueTitle(titles: seq<Title>, cfg: Config)
    ensures var r := Sweep(titles, cfg, None);
      r.crashed ==>
        |r.outcomes| < |titles| && CueCount(titles[|r.outcomes|].listing) == 0 &&
        forall j :: 0 <= j < |r.outcomes| ==> CueCount(titles[j].listing) > 1
    decreases |titles|
  {
    if titles != [] {
      var t := titles[0];
      var step := TitleStep(t.name, t.folder, t.listing, t.env, cfg, None);
      if step.Done? {
        var rest := titles[1..];
        if CueCount(t.listing) == 1 {
          assert step.name.Some?;
          NamedSweepCompletes(rest, cfg, step.name);
        } else {
          assert step.name.None?;
          AbortNeedsUnnamedNoCueTitle(rest, cfg);
        }
      }
    }
  }
}
