/**
 * What a whole run of the downloader promises, stated on the functions of
 * DownloadRun: the log of a run without a click, of a run whose process does
 * not start, of a run where Cancel is clicked after the process exited and of
 * one where Cancel stops a live process, and what the progress bar shows in
 * each case.
 */
module RunFacts {
  import opened Wrappers
  import opened ProgressParser
  import opened DownloadRun

  // ------------------------------------------------------------ progress values

  /** One line adds its parsed value, if it has one. */
  lemma ProgressUpdatesOfLine(line: string)
    ensures ProgressUpdates([line])
         == (if ParseProgressPercentage(line).Some? then [ParseProgressPercentage(line).value] else [])
  {
    assert [line][..0] == [];
  }

  // ------------------------------------------------------------ whole runs

  /**
   * Without a click, the run logs every standard output line, then every
   * standard error line prefixed with "ERROR: ", in order, and writes the
   * value of every standard output line that has one.
   */
  lemma UncancelledRunLogsEverything(script: ProcessScript)
    requires script.startError.None?
    ensures var log := RunEntries(script, None);
      && |log| == |script.stdout| + |script.stderr|
      && (forall i :: 0 <= i < |script.stdout| ==> log[i] == script.stdout[i])
      && (forall j :: 0 <= j < |script.stderr| ==> log[|script.stdout| + j] == "ERROR: " + script.stderr[j])
    ensures RunProgress(script, None) == ProgressUpdates(script.stdout)
  {
  }

  /** A process that does not start logs only the failure and moves no progress. */
  lemma StartFailureLogsOneEntry(script: ProcessScript, click: Option<CancelClick>)
    requires script.startError.Some?
    ensures RunEntries(script, click) == ["Error during download: " + script.startError.value]
    ensures RunProgress(script, click) == []
  {
  }

  /**
   * A click after the process exited only notes that there was nothing to
   * cancel: taking that one entry out gives the log of the run without a
   * click, and the progress is the same.
   */
  lemma ExitedClickOnlyNotes(script: ProcessScript, click: CancelClick)
    requires Lands(click, script) && click.processHasExited
    ensures var log, p := RunEntries(script, Some(click)), Position(click.point, script);
      && p < |log| && log[p] == NoActiveDownload
      && log[..p] + log[p + 1..] == RunEntries(script, None)
    ensures RunProgress(script, Some(click)) == RunProgress(script, None)
  {
    var e, p := Entries(script), Position(click.point, script);
    var log := RunEntries(script, Some(click));
    assert p <= |e|;
    assert log == e[..p] + [NoActiveDownload] + e[p..];
    assert log[..p] == e[..p] && log[p + 1..] == e[p..];
    assert e[..p] + e[p..] == e;
  }

  /**
   * A click on a live process ends the run: the log is the start of the log
   * of the run without a click, then the cancel handler's entry, then the
   * entry of the exception the run meets next, which is the cancellation
   * exactly when the token is checked right after a read.
   */
  lemma LiveClickEndsRun(script: ProcessScript, click: CancelClick)
    requires Lands(click, script) && !click.processHasExited
    ensures var log := RunEntries(script, Some(click));
      && |log| >= 2
      && log[..|log| - 2] <= RunEntries(script, None)
      && log[|log| - 2]
         == (if click.killError.Some? then "Error cancelling download: " + click.killError.value else CancelledByUser)
      && (log[|log| - 1] == OperationCancelled <==> click.point.AfterStdoutRead?)
      && (!click.point.AfterStdoutRead? ==> log[|log| - 1] == "Error during download: " + NullReferenceMessage)
  {
    var e, p := Entries(script), Position(click.point, script);
    var log := RunEntries(script, Some(click));
    assert p <= |e|;
    assert log == e[..p] + [ClickEntry(click), AbortEntry(click.point)];
    assert log[..|log| - 2] == e[..p];
    if !click.point.AfterStdoutRead? {
      assert log[|log| - 1][0] != OperationCancelled[0];
    }
  }

  /** Cancelling can only cut the progress short: its values are the first ones of the run without a click. */
  lemma CancelledProgressIsPrefix(script: ProcessScript, click: Option<CancelClick>)
    ensures RunProgress(script, click) <= RunProgress(script, None)
  {
    ProgressUpdatesPrefix(ProcessedStdout(script, click), ProcessedStdout(script, None));
  }
}
