/**
 * The title classifier of `process_directories`: the two counts taken from a
 * folder's top-level listing, the order in which they route the title, and the
 * output name (`GAMENAME`) that a title with exactly one cue sheet assigns.
 */
module Classify {
  import opened Wrappers
  import opened Names

  /** Where the checks at the head of the loop body send a title. */
  datatype Route = MultipleCues | NoBin | SingleBin | AttemptMerge

  /** The names of a listing that end in `.bin` / `.cue`, ignoring case. */
  function BinNames(listing: seq<string>): set<string> {
    set x | x in listing && IsBin(x)
  }

  function CueNames(listing: seq<string>): set<string> {
    set x | x in listing && IsCue(x)
  }

  /** `BINCOUNT`. */
  function BinCount(listing: seq<string>): nat {
    |Select(listing, ".bin")|
  }

  /** `CUECOUNT`. */
  function CueCount(listing: seq<string>): nat {
    |Select(listing, ".cue")|
  }

  /** The checks at the head of the loop body, in the order the code makes them. */
  function RouteOf(listing: seq<string>): Route {
    var bins, cues := BinCount(listing), CueCount(listing);
    if cues > 1 then MultipleCues
    else if bins == 0 then NoBin
    else if bins == 1 then SingleBin
    else AttemptMerge
  }

  /**
   * The routing of a listing as `os.listdir` returns it: more than one cue sheet
   * skips whatever the track count; otherwise no track and a single track skip;
   * only several tracks go on to the backup step. The counts are the sizes of
   * the name sets.
   */
  lemma RoutePrecedence(listing: seq<string>)
    requires NoDuplicates(listing)
    ensures RouteOf(listing) == MultipleCues <==> |CueNames(listing)| > 1
    ensures RouteOf(listing) == NoBin <==> |CueNames(listing)| <= 1 && BinNames(listing) == {}
    ensures RouteOf(listing) == SingleBin <==> |CueNames(listing)| <= 1 && |BinNames(listing)| == 1
    ensures RouteOf(listing) == AttemptMerge <==> |CueNames(listing)| <= 1 && |BinNames(listing)| > 1
  {
    CountsAreSetSizes(listing);
  }

  lemma CountsAreSetSizes(listing: seq<string>)
    requires NoDuplicates(listing)
    ensures BinCount(listing) == |BinNames(listing)| && CueCount(listing) == |CueNames(listing)|
  {
    SelectCountsSubset(listing, ".bin");
    SelectCountsSubset(listing, ".cue");
    assert BinNames(listing) == set x | x in listing && HasExt(x, ".bin");
    assert CueNames(listing) == set x | x in listing && HasExt(x, ".cue");
  }

  /** The name chosen by `NAMEBY` for a title whose only cue sheet is `cue`. */
  function OutputName(cue: string, folder: string, nameBy: string): string {
    if nameBy == "cue" then SplitExt(cue).0 else folder
  }

  /**
   * `GAMENAME` after the naming step: reassigned when the listing holds exactly
   * one cue sheet, otherwise whatever the previous title left (possibly nothing).
   */
  function NameAfter(listing: seq<string>, folder: string, nameBy: string, carried: Option<string>): (r: Option<string>)
    ensures CueCount(listing) != 1 ==> r == carried
    ensures CueCount(listing) == 1 ==> r.Some?
  {
    var cues := Select(listing, ".cue");
    if |cues| == 1 then Some(OutputName(cues[0], folder, nameBy)) else carried
  }

  /**
   * With exactly one cue sheet `cue` in the listing, the title is named after the
   * cue sheet's stem when `NAMEBY` is "cue" (the cue name less its `.cue`, unless
   * only dots precede it) and after the folder otherwise; the previous title's
   * name plays no part.
   */
  lemma {:induction false} NameFromSingleCue(listing: seq<string>, cue: string, folder: string, nameBy: string, carried: Option<string>)
    requires NoDuplicates(listing)
    requires |CueNames(listing)| == 1 && cue in listing && IsCue(cue)
    ensures nameBy == "cue" ==> NameAfter(listing, folder, nameBy, carried) == Some(SplitExt(cue).0)
    ensures nameBy == "cue" && (exists i :: 0 <= i < |cue| - 4 && cue[i] != '.') ==>
      NameAfter(listing, folder, nameBy, carried) == Some(cue[..|cue| - 4])
    ensures nameBy != "cue" ==> NameAfter(listing, folder, nameBy, carried) == Some(folder)
  {
    CountsAreSetSizes(listing);
    var cues := Select(listing, ".cue");
    assert |cues| == 1;
    assert cues[0] in cues;
    assert cue in cues;
    assert cues == [cues[0]];
    assert cue == cues[0];
    CueStem(cue);
  }
}
