/**
 * The `REMOVEMODE` prompt run before the sweep: mode "2" asks the operator once;
 * the lower-cased answer "y" selects deletion ("1"), "n" selects keeping ("2"),
 * and "q" or anything else ends the program with status 1.
 */
module RemoveMode {
  import opened Names

  const NO_REMOVAL := "0"
  const REMOVE_ON_SUCCESS := "1"
  const PROMPT := "2"

  datatype Resolution = Proceed(mode: string) | Exit(status: int)

  /** Whether `merge_bin_files` deletes the backup after a successful merge. */
  predicate DeletesBackup(mode: string) {
    mode == REMOVE_ON_SUCCESS
  }

  /** The mode the sweep runs with, given the configured mode and the answer typed (read only for mode "2"). */
  function Resolve(configured: string, answer: string): (r: Resolution)
    ensures configured != PROMPT ==> r == Proceed(configured)
    ensures configured == PROMPT ==> (r == Proceed(REMOVE_ON_SUCCESS) <==> Lower(answer) == "y")
    ensures configured == PROMPT ==> (r == Proceed(PROMPT) <==> Lower(answer) == "n")
    ensures configured == PROMPT ==> (r.Exit? <==> Lower(answer) != "y" && Lower(answer) != "n")
    ensures r.Exit? ==> r.status == 1
  {
    if configured != PROMPT then Proceed(configured)
    else
      var reply := Lower(answer);
      if reply == "y" then Proceed(REMOVE_ON_SUCCESS)
      else if reply == "n" then Proceed(PROMPT)
      else Exit(1)
  }

  /**
   * What the prompt decides for the merge step: the backup is deleted after a
   * successful merge exactly when the mode was configured to "1", or was "2"
   * and the operator answered "y" or "Y".
   */
  lemma ResolvedDeletion(configured: string, answer: string)
    requires Resolve(configured, answer).Proceed?
    ensures DeletesBackup(Resolve(configured, answer).mode) <==>
      configured == REMOVE_ON_SUCCESS || (configured == PROMPT && answer in {"y", "Y"})
  {
    if configured == PROMPT {
      var reply := Lower(answer);
      if |answer| == 1 {
        assert reply == [LowerChar(answer[0])];
        assert answer in {"y", "Y"} ==> reply == "y";
        assert reply == "y" ==> answer == [answer[0]] && answer[0] in {'y', 'Y'};
      }
    }
  }
}
