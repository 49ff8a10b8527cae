/**
 * The main window's download logic (MainWindow.axaml.cs): the download and
 * cancel buttons, the run of the downloader with its two read loops, and the
 * two fields that tie a run to the cancel button.
 */
module DownloadWindow {
  import opened Wrappers
  import opened DotNet
  import opened ProcessProbe
  import opened ProgressParser
  import opened DownloadArguments
  import opened DownloadRun
  import ToolResolution

  /** The status text while a download runs, and once it has ended. */
  const DownloadingStatus := "Downloading..."
  const CompleteStatus := "Complete"

  /** The first entry of a run: the resolved downloader and its argument string. */
  function CommandEntry(versionProbe: string -> CommandOutcome, machine: ToolResolution.Machine,
                        format: string, url: string, outputPath: string): string
  {
    ExecutingCommand + ToolResolution.ResolveToolName(versionProbe) + " "
    + BuildArguments(format, url, ToolResolution.ResolveFFmpegPath(machine), outputPath)
  }

  /**
   * The command line names one of the three downloaders, and the ffmpeg
   * location it passes is the bare name or an existing file.
   */
  lemma CommandEntryNamesTools(versionProbe: string -> CommandOutcome, machine: ToolResolution.Machine,
                               format: string, url: string, outputPath: string)
    ensures exists name, ffmpegPath ::
      && name in ToolResolution.ToolNames
      && (ffmpegPath == "ffmpeg" || machine.fileExists(ffmpegPath))
      && CommandEntry(versionProbe, machine, format, url, outputPath)
         == ExecutingCommand + name + " " + BuildArguments(format, url, ffmpegPath, outputPath)
  {
    var name := ToolResolution.ResolveToolName(versionProbe);
    var ffmpegPath := ToolResolution.ResolveFFmpegPath(machine);
    assert name in ToolResolution.ToolNames && (ffmpegPath == "ffmpeg" || machine.fileExists(ffmpegPath))
        && CommandEntry(versionProbe, machine, format, url, outputPath)
           == ExecutingCommand + name + " " + BuildArguments(format, url, ffmpegPath, outputPath);
  }

  /** The downloader's process, as far as the window uses it. */
  class Process {
    var hasExited: bool
    var killed: bool

    constructor()
      ensures !hasExited && !killed
    {
      hasExited := false;
      killed := false;
    }
  }

  class CancellationTokenSource {
    var isCancellationRequested: bool
    var disposed: bool

    constructor()
      ensures !isCancellationRequested && !disposed
    {
      isCancellationRequested := false;
      disposed := false;
    }
  }

  class MainWindow {
    var currentProcess: Process?
    var cancellationTokenSource: CancellationTokenSource?
    /** The messages appended to the logs box, oldest first. */
    var log: seq<string>
    /** The values written to the progress bar, oldest first. */
    var progress: seq<Percent>
    var cancelButtonEnabled: bool
    var downloadButtonEnabled: bool
    var progressBarVisible: bool
    var status: string

    /** A new window: no run, an empty log, the controls as the layout declares them. */
    constructor(initialStatus: string, initialProgressBarVisible: bool)
      ensures currentProcess == null && cancellationTokenSource == null
      ensures log == [] && progress == []
      ensures cancelButtonEnabled && downloadButtonEnabled
      ensures progressBarVisible == initialProgressBarVisible && status == initialStatus
    {
      currentProcess := null;
      cancellationTokenSource := null;
      log := [];
      progress := [];
      cancelButtonEnabled := true;
      downloadButtonEnabled := true;
      progressBarVisible := initialProgressBarVisible;
      status := initialStatus;
    }

    /** The Clear Logs button empties the log and nothing else. */
    method OnClearLogsClick()
      modifies this
      ensures log == []
      ensures currentProcess == old(currentProcess) && cancellationTokenSource == old(cancellationTokenSource)
      ensures progress == old(progress) && status == old(status)
      ensures cancelButtonEnabled == old(cancelButtonEnabled) && downloadButtonEnabled == old(downloadButtonEnabled)
      ensures progressBarVisible == old(progressBarVisible)
    {
      log := [];
    }

    /**
     * `OnCancelButtonClick`. With a live process that has not exited: the
     * token is cancelled, the process killed (unless `Kill` throws, whose
     * message is then logged instead of the confirmation) and
     * `_currentProcess` cleared. Otherwise only "No active download to
     * cancel." is logged. Either way the button ends enabled.
     */
    method OnCancelButtonClick(killError: Option<string>)
      modifies this, currentProcess, cancellationTokenSource
      ensures cancelButtonEnabled
      ensures cancellationTokenSource == old(cancellationTokenSource)
      ensures progress == old(progress) && status == old(status)
      ensures downloadButtonEnabled == old(downloadButtonEnabled) && progressBarVisible == old(progressBarVisible)
      ensures old(currentProcess) != null ==> old(currentProcess).hasExited == old(currentProcess.hasExited)
      ensures old(cancellationTokenSource) != null ==> old(cancellationTokenSource).disposed == old(cancellationTokenSource.disposed)
      ensures old(currentProcess != null && !currentProcess.hasExited) ==>
        && currentProcess == null
        && log == old(log) + [KillEntry(killError)]
        && old(currentProcess).killed == (old(currentProcess.killed) || killError.None?)
        && (old(cancellationTokenSource) != null ==> old(cancellationTokenSource).isCancellationRequested)
      ensures !old(currentProcess != null && !currentProcess.hasExited) ==>
        && currentProcess == old(currentProcess)
        && log == old(log) + [NoActiveDownload]
        && (old(currentProcess) != null ==> old(currentProcess).killed == old(currentProcess.killed))
        && (old(cancellationTokenSource) != null ==>
              old(cancellationTokenSource).isCancellationRequested == old(cancellationTokenSource.isCancellationRequested))
    {
      cancelButtonEnabled := false;
      if currentProcess != null && !currentProcess.hasExited {
        if cancellationTokenSource != null {
          cancellationTokenSource.isCancellationRequested := true;
        }
        if killError.None? {
          currentProcess.killed := true;
          log := log + [CancelledByUser];
        } else {
          log := log + ["Error cancelling download: " + killError.value];
        }
        currentProcess := null;
        cancelButtonEnabled := true;
      } else {
        log := log + [NoActiveDownload];
        cancelButtonEnabled := true;
      }
    }

    /**
     * The run reaches `point`; when the click happens there, the process's
     * exit state is what the click says and the cancel handler runs.
     */
    method ReachPoint(point: CancelPoint, click: Option<CancelClick>)
      requires currentProcess != null && cancellationTokenSource != null
      requires !cancellationTokenSource.isCancellationRequested
      modifies this, currentProcess, cancellationTokenSource
      ensures cancellationTokenSource == old(cancellationTokenSource)
      ensures !cancellationTokenSource.disposed == !old(cancellationTokenSource.disposed)
      ensures progress == old(progress) && status == old(status)
      ensures downloadButtonEnabled == old(downloadButtonEnabled) && progressBarVisible == old(progressBarVisible)
      ensures log == old(log) + HitEntry(click, point)
      ensures cancelButtonEnabled == (HitsAt(click, point) || old(cancelButtonEnabled))
      ensures !LiveHit(click, point) ==>
        currentProcess == old(currentProcess) && !cancellationTokenSource.isCancellationRequested
      ensures LiveHit(click, point) ==>
        currentProcess == null && cancellationTokenSource.isCancellationRequested
    {
      if HitsAt(click, point) {
        currentProcess.hasExited := click.value.processHasExited;
        OnCancelButtonClick(click.value.killError);
      }
    }

    /** The controls the run does not touch. */
    twostate predicate ControlsKept()
      reads this
    {
      && status == old(status)
      && downloadButtonEnabled == old(downloadButtonEnabled)
      && progressBarVisible == old(progressBarVisible)
    }

    /** The Cancel button ends enabled exactly when it was, or a click was handled in between. */
    twostate predicate CancelButtonAfter(handled: bool)
      reads this
    {
      cancelButtonEnabled == (old(cancelButtonEnabled) || handled)
    }

    /**
     * A run that has not thrown: the process is still current, the token not
     * cancelled, and after `logBefore` the log holds what the run logged
     * before step `t`.
     */
    ghost predicate Running(script: ProcessScript, click: Option<CancelClick>, t: nat,
                            process: Process, cts: CancellationTokenSource, logBefore: seq<string>)
      reads this, cts
    {
      && currentProcess == process && cancellationTokenSource == cts
      && !cts.isCancellationRequested && !cts.disposed
      && !LiveFired(click, script, t)
      && log == logBefore + Trace(script, click, t)
    }

    /** A run that a click on a live process ended; `failure` is the entry the catch clause will log. */
    ghost predicate Stopped(script: ProcessScript, click: Option<CancelClick>, cts: CancellationTokenSource,
                            logBefore: seq<string>, failure: string)
      reads this, cts
    {
      && currentProcess == null && cancellationTokenSource == cts && !cts.disposed
      && click.Some? && Lands(click.value, script) && !click.value.processHasExited
      && failure == AbortEntry(click.value.point)
      && log == logBefore + AbortedLog(script, click)
    }

    /** Running before standard output line `i` is read, with the progress of the lines before it written. */
    ghost predicate ReadingStdout(script: ProcessScript, click: Option<CancelClick>, i: nat,
                                  process: Process, cts: CancellationTokenSource,
                                  logBefore: seq<string>, progressBefore: seq<Percent>)
      reads this, cts
    {
      && i <= |script.stdout|
      && Running(script, click, i, process, cts, logBefore)
      && progress == progressBefore + ProgressUpdates(script.stdout[..i])
    }

    /** Stopped while reading standard output, with the progress of the lines read written. */
    ghost predicate StoppedEarly(script: ProcessScript, click: Option<CancelClick>, cts: CancellationTokenSource,
                                 logBefore: seq<string>, progressBefore: seq<Percent>, failure: string)
      reads this, cts
    {
      Stopped(script, click, cts, logBefore, failure) && progress == progressBefore + RunProgress(script, click)
    }

    /** Running before standard error line `j` is read. */
    ghost predicate ReadingStderr(script: ProcessScript, click: Option<CancelClick>, j: nat,
                                  process: Process, cts: CancellationTokenSource, logBefore: seq<string>)
      reads this, cts
    {
      Running(script, click, |script.stdout| + 1 + j, process, cts, logBefore)
    }

    /** Running before the wait for the exit. */
    ghost predicate Waiting(script: ProcessScript, click: Option<CancelClick>,
                            process: Process, cts: CancellationTokenSource, logBefore: seq<string>)
      reads this, cts
    {
      Running(script, click, |script.stdout| + 2 + |script.stderr|, process, cts, logBefore)
    }

    /**
     * One turn of the standard output loop (MainWindow.axaml.cs:194-207):
     * read line `i`, check the token, log the line and, when it holds a
     * `%`, write its parsed value to the progress bar.
     */
    method ReadStdoutLine(script: ProcessScript, click: Option<CancelClick>, i: nat,
                          ghost process: Process, ghost cts: CancellationTokenSource,
                          ghost logBefore: seq<string>, ghost progressBefore: seq<Percent>)
      returns (failure: Option<string>)
      requires script.startError.None? && i < |script.stdout|
      requires ReadingStdout(script, click, i, process, cts, logBefore, progressBefore)
      modifies this, process, cts
      ensures ControlsKept() && CancelButtonAfter(FiresAt(click, script, i))
      ensures failure.Some? ==> cancelButtonEnabled
      ensures failure.None? ==>
        ReadingStdout(script, click, i + 1, process, cts, logBefore, progressBefore)
      ensures failure.Some? ==> StoppedEarly(script, click, cts, logBefore, progressBefore, failure.value)
    {
      failure := None;
      StdoutLineStep(script, click, i, logBefore);
      ProgressUpdatesStep(script.stdout, i);
      ReachPoint(BeforeStdoutRead(i), click);
      if currentProcess == null {
        return Some(DownloadError(NullReferenceMessage));
      }
      var line := script.stdout[i];
      ReachPoint(AfterStdoutRead(i), click);
      if cancellationTokenSource.isCancellationRequested {
        return Some(OperationCancelled);
      }
      log := log + [line];
      ShowProgress(line);
    }

    /** A line with a `%` whose value parses moves the progress bar (MainWindow.axaml.cs:200-207). */
    method ShowProgress(line: string)
      modifies this
      ensures progress == old(progress) + (if LineProgress(line).Some? then [LineProgress(line).value] else [])
      ensures log == old(log) && currentProcess == old(currentProcess)
      ensures cancellationTokenSource == old(cancellationTokenSource) && ControlsKept()
      ensures cancelButtonEnabled == old(cancelButtonEnabled)
    {
      if '%' in line {
        var value := ParseProgressPercentage(line);
        if value.Some? {
          progress := progress + [value.value];
        }
      }
    }

    /**
     * The first loop of `RunMediaDownloader` (MainWindow.axaml.cs:193-208),
     * up to the read that finds the end of standard output. `failure` is the
     * entry of the exception that left the loop, if one did.
     */
    method ReadStandardOutput(script: ProcessScript, click: Option<CancelClick>,
                              ghost process: Process, ghost cts: CancellationTokenSource)
      returns (failure: Option<string>)
      requires script.startError.None?
      requires ReadingStdout(script, click, 0, process, cts, log, progress)
      modifies this, process, cts
      ensures ControlsKept()
      ensures failure.None? ==> CancelButtonAfter(Fired(click, script, |script.stdout| + 1))
      ensures failure.Some? ==> cancelButtonEnabled
      ensures failure.None? ==>
        && ReadingStderr(script, click, 0, process, cts, old(log))
        && progress == old(progress) + ProgressUpdates(script.stdout)
      ensures failure.Some? ==> StoppedEarly(script, click, cts, old(log), old(progress), failure.value)
    {
      ghost var logBefore, progressBefore := log, progress;
      failure := None;
      var i := 0;
      while i < |script.stdout|
        invariant 0 <= i <= |script.stdout| && failure.None?
        invariant ControlsKept() && CancelButtonAfter(Fired(click, script, i))
        invariant ReadingStdout(script, click, i, process, cts, logBefore, progressBefore)
      {
        failure := ReadStdoutLine(script, click, i, process, cts, logBefore, progressBefore);
        if failure.Some? {
          return;
        }
        i := i + 1;
      }
      failure := ReachStdoutEnd(script, click, process, cts, logBefore, progressBefore);
    }

    /** The read that finds the end of standard output. */
    method ReachStdoutEnd(script: ProcessScript, click: Option<CancelClick>,
                          ghost process: Process, ghost cts: CancellationTokenSource,
                          ghost logBefore: seq<string>, ghost progressBefore: seq<Percent>)
      returns (failure: Option<string>)
      requires script.startError.None?
      requires ReadingStdout(script, click, |script.stdout|, process, cts, logBefore, progressBefore)
      modifies this, process, cts
      ensures ControlsKept() && CancelButtonAfter(FiresAt(click, script, |script.stdout|))
      ensures failure.Some? ==> cancelButtonEnabled
      ensures failure.None? ==>
        && ReadingStderr(script, click, 0, process, cts, logBefore)
        && progress == progressBefore + ProgressUpdates(script.stdout)
      ensures failure.Some? ==> StoppedEarly(script, click, cts, logBefore, progressBefore, failure.value)
    {
      failure := None;
      assert script.stdout[..|script.stdout|] == script.stdout;
      StdoutEndStep(script, click, logBefore);
      ReachPoint(BeforeStdoutRead(|script.stdout|), click);
      if currentProcess == null {
        failure := Some(DownloadError(NullReferenceMessage));
      }
    }

    /** One turn of the standard error loop (MainWindow.axaml.cs:211-214): read line `j` and log it as an error. */
    method ReadStderrLine(script: ProcessScript, click: Option<CancelClick>, j: nat,
                          ghost process: Process, ghost cts: CancellationTokenSource, ghost logBefore: seq<string>)
      returns (failure: Option<string>)
      requires script.startError.None? && j < |script.stderr|
      requires ReadingStderr(script, click, j, process, cts, logBefore)
      modifies this, process, cts
      ensures ControlsKept() && progress == old(progress)
      ensures CancelButtonAfter(FiresAt(click, script, |script.stdout| + 1 + j))
      ensures failure.Some? ==> cancelButtonEnabled
      ensures failure.None? ==> ReadingStderr(script, click, j + 1, process, cts, logBefore)
      ensures failure.Some? ==> Stopped(script, click, cts, logBefore, failure.value)
    {
      failure := None;
      StderrLineStep(script, click, j, logBefore);
      ReachPoint(BeforeStderrRead(j), click);
      if currentProcess == null {
        return Some(DownloadError(NullReferenceMessage));
      }
      log := log + [ErrorEntry(script.stderr[j])];
    }

    /** The second loop of `RunMediaDownloader` (MainWindow.axaml.cs:210-214), up to the read that finds the end. */
    method ReadStandardError(script: ProcessScript, click: Option<CancelClick>,
                             ghost process: Process, ghost cts: CancellationTokenSource, ghost logBefore: seq<string>)
      returns (failure: Option<string>)
      requires script.startError.None?
      requires ReadingStderr(script, click, 0, process, cts, logBefore)
      modifies this, process, cts
      ensures ControlsKept() && progress == old(progress)
      ensures failure.None? ==>
        CancelButtonAfter(Fired(click, script, StepCount(script) - 1) && !Fired(click, script, |script.stdout| + 1))
      ensures failure.Some? ==> cancelButtonEnabled
      ensures failure.None? ==> Waiting(script, click, process, cts, logBefore)
      ensures failure.Some? ==> Stopped(script, click, cts, logBefore, failure.value)
    {
      failure := None;
      var j := 0;
      while j < |script.stderr|
        invariant 0 <= j <= |script.stderr| && failure.None?
        invariant ControlsKept() && progress == old(progress)
        invariant CancelButtonAfter(Fired(click, script, |script.stdout| + 1 + j) && !Fired(click, script, |script.stdout| + 1))
        invariant ReadingStderr(script, click, j, process, cts, logBefore)
      {
        failure := ReadStderrLine(script, click, j, process, cts, logBefore);
        if failure.Some? {
          return;
        }
        j := j + 1;
      }
      failure := ReachStderrEnd(script, click, process, cts, logBefore);
    }

    /** The read that finds the end of standard error. */
    method ReachStderrEnd(script: ProcessScript, click: Option<CancelClick>,
                          ghost process: Process, ghost cts: CancellationTokenSource, ghost logBefore: seq<string>)
      returns (failure: Option<string>)
      requires script.startError.None?
      requires ReadingStderr(script, click, |script.stderr|, process, cts, logBefore)
      modifies this, process, cts
      ensures ControlsKept() && progress == old(progress)
      ensures CancelButtonAfter(FiresAt(click, script, |script.stdout| + 1 + |script.stderr|))
      ensures failure.Some? ==> cancelButtonEnabled
      ensures failure.None? ==> Waiting(script, click, process, cts, logBefore)
      ensures failure.Some? ==> Stopped(script, click, cts, logBefore, failure.value)
    {
      failure := None;
      StderrEndStep(script, click, logBefore);
      ReachPoint(BeforeStderrRead(|script.stderr|), click);
      if currentProcess == null {
        failure := Some(DownloadError(NullReferenceMessage));
      }
    }

    /** `WaitForExitAsync` on `_currentProcess`, the last step of a run that has not thrown. */
    method WaitForExit(script: ProcessScript, click: Option<CancelClick>,
                       ghost process: Process, ghost cts: CancellationTokenSource, ghost logBefore: seq<string>)
      returns (failure: Option<string>)
      requires script.startError.None?
      requires Waiting(script, click, process, cts, logBefore)
      modifies this, process, cts
      ensures ControlsKept() && progress == old(progress)
      ensures CancelButtonAfter(FiresAt(click, script, |script.stdout| + 2 + |script.stderr|))
      ensures failure.Some? ==> cancelButtonEnabled
      ensures cancellationTokenSource == cts && !cts.disposed
      ensures failure.None? ==> log == logBefore + RunEntries(script, click)
      ensures failure.Some? ==> Stopped(script, click, cts, logBefore, failure.value)
    {
      failure := None;
      ExitStep(script, click, logBefore);
      ReachPoint(BeforeExitWait, click);
      if currentProcess == null {
        failure := Some(DownloadError(NullReferenceMessage));
      }
    }

    /**
     * The body of the `try` of `RunMediaDownloader` for a process that
     * started (MainWindow.axaml.cs:193-216). `failure` is the entry of the
     * exception that ended it early, which the catch clauses log.
     */
    method ReadOutputs(script: ProcessScript, click: Option<CancelClick>,
                       ghost process: Process, ghost cts: CancellationTokenSource)
      returns (failure: Option<string>)
      requires script.startError.None?
      requires ReadingStdout(script, click, 0, process, cts, log, progress)
      modifies this, process, cts
      ensures cancellationTokenSource == cts && !cts.disposed && ControlsKept()
      ensures CancelButtonAfter(click.Some? && Lands(click.value, script))
      ensures failure.None? ==> log == old(log) + RunEntries(script, click)
      ensures failure.Some? ==> log + [failure.value] == old(log) + RunEntries(script, click)
      ensures progress == old(progress) + RunProgress(script, click)
    {
      failure := ReadStandardOutput(script, click, process, cts);
      if failure.None? {
        LateStopKeepsProgress(script, click);
        failure := ReadStandardError(script, click, process, cts, old(log));
        if failure.None? {
          failure := WaitForExit(script, click, process, cts, old(log));
        }
      }
      if failure.Some? {
        StoppedRunEntries(script, click);
        AppendAssociates(old(log), AbortedLog(script, click), [failure.value]);
      }
    }

    /**
     * The `try`/`catch`/`finally` of `RunMediaDownloader` (MainWindow.axaml.cs:189-231)
     * for a process and token source just stored in the two fields.
     */
    method ExecuteProcess(script: ProcessScript, click: Option<CancelClick>,
                          process: Process, cts: CancellationTokenSource)
      requires currentProcess == process && cancellationTokenSource == cts
      requires !cts.isCancellationRequested && !cts.disposed
      modifies this, process, cts
      ensures log == old(log) + RunEntries(script, click)
      ensures progress == old(progress) + RunProgress(script, click)
      ensures currentProcess == null && cancellationTokenSource == null && cts.disposed
      ensures ControlsKept() && CancelButtonAfter(click.Some? && Lands(click.value, script))
    {
      // The entry the catch clauses log, once something has thrown.
      var failure: Option<string> := None;
      if script.startError.Some? {
        failure := Some(DownloadError(script.startError.value));
      } else {
        assert Trace(script, click, 0) == [] && script.stdout[..0] == [];
        failure := ReadOutputs(script, click, process, cts);
      }
      if failure.Some? {
        log := log + [failure.value];
      }
      currentProcess := null;
      cts.disposed := true;
      cancellationTokenSource := null;
    }

    /**
     * `RunMediaDownloader`: resolves the tools, logs the command line, then
     * logs every standard output line in order (parsing those with a `%`
     * into progress values), then every standard error line prefixed with
     * `ERROR: `, then waits for the exit. A failure to start, a cancelled
     * token or a cleared `_currentProcess` ends the run with one error entry.
     * The two fields are cleared at the end whatever happened.
     */
    method RunMediaDownloader(url: string, format: string, outputPath: string,
                              versionProbe: string -> CommandOutcome, machine: ToolResolution.Machine,
                              script: ProcessScript, click: Option<CancelClick>)
      modifies this
      ensures log == old(log) + [CommandEntry(versionProbe, machine, format, url, outputPath)] + RunEntries(script, click)
      ensures progress == old(progress) + RunProgress(script, click)
      ensures currentProcess == null && cancellationTokenSource == null
      ensures ControlsKept() && CancelButtonAfter(click.Some? && Lands(click.value, script))
    {
      LogCommandLine(url, format, outputPath, versionProbe, machine);
      RunProcess(script, click);
    }

    /** A new process and token source, then the run (MainWindow.axaml.cs:174-231). */
    method RunProcess(script: ProcessScript, click: Option<CancelClick>)
      modifies this
      ensures log == old(log) + RunEntries(script, click)
      ensures progress == old(progress) + RunProgress(script, click)
      ensures currentProcess == null && cancellationTokenSource == null
      ensures ControlsKept() && CancelButtonAfter(click.Some? && Lands(click.value, script))
    {
      currentProcess := new Process();
      cancellationTokenSource := new CancellationTokenSource();
      ExecuteProcess(script, click, currentProcess, cancellationTokenSource);
    }

    /** The tools are resolved and the command line logged (MainWindow.axaml.cs:165-172). */
    method LogCommandLine(url: string, format: string, outputPath: string,
                          versionProbe: string -> CommandOutcome, machine: ToolResolution.Machine)
      modifies this
      ensures log == old(log) + [CommandEntry(versionProbe, machine, format, url, outputPath)]
      ensures progress == old(progress) && ControlsKept() && cancelButtonEnabled == old(cancelButtonEnabled)
    {
      var toolName := ToolResolution.GetMediaDownloaderToolName(versionProbe);
      var ffmpegPath := ToolResolution.GetFFmpegPath(machine);
      var arguments := BuildArguments(format, url, ffmpegPath, outputPath);
      log := log + [ExecutingCommand + toolName + " " + arguments];
    }

    /**
     * `OnDownloadButtonClick` past the link check (MainWindow.axaml.cs:135-160):
     * the format and output path are chosen, the controls show a running
     * download with the bar at 0, the downloader runs, and the status ends
     * "Complete" whatever the run logged, because the run catches every
     * exception itself.
     */
    method StartDownload(link: string, isChecked: Option<bool>, userProfile: string,
                         versionProbe: string -> CommandOutcome, machine: ToolResolution.Machine,
                         script: ProcessScript, click: Option<CancelClick>)
      modifies this
      ensures log == old(log)
        + [CommandEntry(versionProbe, machine, FormatFor(isChecked), link, OutputPath(userProfile, isChecked.GetOr(false)))]
        + RunEntries(script, click)
      ensures progress == old(progress) + [ZeroPercent] + RunProgress(script, click)
      ensures status == CompleteStatus && downloadButtonEnabled && !progressBarVisible
      ensures currentProcess == null && cancellationTokenSource == null
      ensures cancelButtonEnabled == (old(cancelButtonEnabled) || (click.Some? && Lands(click.value, script)))
    {
      var isMp4 := isChecked.GetOr(false);
      var format := FormatFor(isChecked);
      var outputPath := OutputPath(userProfile, isMp4);
      ShowDownloadStarted();
      RunMediaDownloader(link, format, outputPath, versionProbe, machine, script, click);
      ShowDownloadEnded();
    }

    /** The controls while a download runs (MainWindow.axaml.cs:142-145). */
    method ShowDownloadStarted()
      modifies this
      ensures status == DownloadingStatus && !downloadButtonEnabled && progressBarVisible
      ensures progress == old(progress) + [ZeroPercent]
      ensures log == old(log) && currentProcess == old(currentProcess)
      ensures cancellationTokenSource == old(cancellationTokenSource)
      ensures cancelButtonEnabled == old(cancelButtonEnabled)
    {
      downloadButtonEnabled := false;
      status := DownloadingStatus;
      progressBarVisible := true;
      progress := progress + [ZeroPercent];
    }

    /** The controls once the run has returned (MainWindow.axaml.cs:149, 157-158). */
    method ShowDownloadEnded()
      modifies this
      ensures status == CompleteStatus && downloadButtonEnabled && !progressBarVisible
      ensures progress == old(progress) && log == old(log)
      ensures currentProcess == old(currentProcess)
      ensures cancellationTokenSource == old(cancellationTokenSource)
      ensures cancelButtonEnabled == old(cancelButtonEnabled)
    {
      status := CompleteStatus;
      downloadButtonEnabled := true;
      progressBarVisible := false;
    }

    /**
     * `OnDownloadButtonClick`. A null or blank link only logs the error
     * entry; any other link starts a download. `link` is None for a null
     * text box text, `isChecked` None for an indeterminate MP4 radio button.
     */
    method OnDownloadButtonClick(link: Option<string>, isChecked: Option<bool>, userProfile: string,
                                 versionProbe: string -> CommandOutcome, machine: ToolResolution.Machine,
                                 script: ProcessScript, click: Option<CancelClick>)
      modifies this
      ensures IsNullOrWhiteSpace(link) ==>
        && log == old(log) + [ValidLinkError]
        && progress == old(progress) && status == old(status)
        && downloadButtonEnabled == old(downloadButtonEnabled) && progressBarVisible == old(progressBarVisible)
        && currentProcess == old(currentProcess) && cancellationTokenSource == old(cancellationTokenSource)
        && cancelButtonEnabled == old(cancelButtonEnabled)
      ensures !IsNullOrWhiteSpace(link) ==>
        && log == old(log)
             + [CommandEntry(versionProbe, machine, FormatFor(isChecked), link.value, OutputPath(userProfile, isChecked.GetOr(false)))]
             + RunEntries(script, click)
        && progress == old(progress) + [ZeroPercent] + RunProgress(script, click)
        && status == CompleteStatus && downloadButtonEnabled && !progressBarVisible
        && currentProcess == null && cancellationTokenSource == null
        && cancelButtonEnabled == (old(cancelButtonEnabled) || (click.Some? && Lands(click.value, script)))
    {
      if IsNullOrWhiteSpace(link) {
        log := log + [ValidLinkError];
      } else {
        StartDownload(link.value, isChecked, userProfile, versionProbe, machine, script, click);
      }
    }
  }
}
