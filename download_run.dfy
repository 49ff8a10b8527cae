/**
 * What one run of the downloader leaves in the window's log and progress bar
 * (MainWindow.axaml.cs:163-298), as functions of the downloader's output and
 * of at most one click on Cancel during the run.
 *
 * The process is a script: whether `Start` throws, the lines it prints on
 * standard output and those it prints on standard error. The run drains
 * standard output, then standard error, then waits for the exit. A click on
 * Cancel is an event between two of these steps.
 */
module DownloadRun {
  import opened Wrappers
  import opened ProgressParser

  /** The downloader as the window sees it. */
  datatype ProcessScript = ProcessScript(startError: Option<string>, stdout: seq<string>, stderr: seq<string>)

  /** Where in the run a click on Cancel is handled. */
  datatype CancelPoint =
      /** Before the `k`-th read of standard output; the read at `|stdout|` is the one that finds the end. */
    | BeforeStdoutRead(k: nat)
      /** After the `k`-th line of standard output came back and before the token is checked. */
    | AfterStdoutRead(k: nat)
      /** Before the `k`-th read of standard error. */
    | BeforeStderrRead(k: nat)
      /** Before the wait for the process to exit. */
    | BeforeExitWait

  /**
   * A click on Cancel: where it happens, whether the process had already
   * exited by then (`HasExited`), and the message of the exception `Kill`
   * throws, if it throws.
   */
  datatype CancelClick = CancelClick(point: CancelPoint, processHasExited: bool, killError: Option<string>)

  const ValidLinkError := "Error: Please enter a valid media link."
  const CancelledByUser := "Download cancelled by user."
  const NoActiveDownload := "No active download to cancel."
  const OperationCancelled := "Download operation was cancelled."
  /** The message of the `NullReferenceException` thrown by a dereference of a null field. */
  const NullReferenceMessage := "Object reference not set to an instance of an object."

  function DownloadError(message: string): string {
    "Error during download: " + message
  }

  /** How a standard error line is logged. */
  function ErrorEntry(line: string): string {
    "ERROR: " + line
  }

  /** The standard error lines as logged. */
  function ErrorEntries(stderr: seq<string>): (entries: seq<string>)
    ensures |entries| == |stderr|
    ensures forall i :: 0 <= i < |stderr| ==> entries[i] == ErrorEntry(stderr[i])
  {
    if stderr == [] then [] else ErrorEntries(stderr[..|stderr| - 1]) + [ErrorEntry(stderr[|stderr| - 1])]
  }

  /** Everything a run without a cancel logs after the command line. */
  function Entries(script: ProcessScript): seq<string> {
    script.stdout + ErrorEntries(script.stderr)
  }

  /** The run reaches the point: the process started and the point is one the run has. */
  predicate Reached(point: CancelPoint, script: ProcessScript) {
    && script.startError.None?
    && match point
       case BeforeStdoutRead(k) => k <= |script.stdout|
       case AfterStdoutRead(k) => k < |script.stdout|
       case BeforeStderrRead(k) => k <= |script.stderr|
       case BeforeExitWait => true
  }

  /** The click happens during the run. */
  predicate Lands(click: CancelClick, script: ProcessScript) {
    Reached(click.point, script)
  }

  /**
   * The step of the run at which the point is reached. Step `k` handles
   * standard output line `k`, around its read, step `|stdout|` the read
   * that finds the end, step `|stdout| + 1 + k` standard error line `k` and
   * the last step the wait for the exit.
   */
  function Order(point: CancelPoint, script: ProcessScript): nat {
    match point
    case BeforeStdoutRead(k) => k
    case AfterStdoutRead(k) => k
    case BeforeStderrRead(k) => |script.stdout| + 1 + k
    case BeforeExitWait => |script.stdout| + 2 + |script.stderr|
  }

  /** How many entries of Entries(script) are logged when the point is reached. */
  function Position(point: CancelPoint, script: ProcessScript): nat {
    match point
    case BeforeStdoutRead(k) => k
    case AfterStdoutRead(k) => k
    case BeforeStderrRead(k) => |script.stdout| + k
    case BeforeExitWait => |script.stdout| + |script.stderr|
  }

  /** What the cancel handler logs after it tried to kill a live process: the confirmation exactly when `Kill` did not throw. */
  function KillEntry(killError: Option<string>): (entry: string)
    ensures entry == CancelledByUser <==> killError.None?
  {
    if killError.Some? then
      var entry := "Error cancelling download: " + killError.value;
      assert entry[0] != CancelledByUser[0];
      entry
    else CancelledByUser
  }

  /** What the cancel handler logs: the no-active-download note exactly when the process had exited. */
  function ClickEntry(click: CancelClick): (entry: string)
    ensures entry == NoActiveDownload <==> click.processHasExited
  {
    if click.processHasExited then NoActiveDownload
    else
      assert KillEntry(click.killError)[0] != NoActiveDownload[0];
      KillEntry(click.killError)
  }

  /**
   * The entry that ends a run cancelled on a live process: a token check
   * right after a read throws OperationCanceledException; everywhere else the
   * next use of the nulled `_currentProcess` throws NullReferenceException.
   */
  function AbortEntry(point: CancelPoint): (entry: string)
    ensures entry == OperationCancelled <==> point.AfterStdoutRead?
  {
    if point.AfterStdoutRead? then OperationCancelled else DownloadError(NullReferenceMessage)
  }

  function InsertAt(s: seq<string>, p: nat, t: seq<string>): seq<string>
    requires p <= |s|
  {
    s[..p] + t + s[p..]
  }

  /** The click lands and its point comes before step `t`. */
  predicate Fired(click: Option<CancelClick>, script: ProcessScript, t: nat) {
    click.Some? && Lands(click.value, script) && Order(click.value.point, script) < t
  }

  /**
   * The log of a run after its command line. Every entry is one the run
   * without a click logs, or one of the two a click adds, or the start
   * failure; a click adds at most two entries.
   */
  function RunEntries(script: ProcessScript, click: Option<CancelClick>): (entries: seq<string>)
    ensures script.startError.Some? ==> |entries| == 1
    ensures script.startError.None? ==> |entries| <= |Entries(script)| + 2
    ensures forall k :: 0 <= k < |entries| ==>
      || entries[k] in Entries(script)
      || (click.Some? && (entries[k] == ClickEntry(click.value) || entries[k] == AbortEntry(click.value.point)))
      || (script.startError.Some? && entries[k] == DownloadError(script.startError.value))
  {
    if script.startError.Some? then [DownloadError(script.startError.value)]
    else if click.None? || !Lands(click.value, script) then Entries(script)
    else
      var p := Position(click.value.point, script);
      if click.value.processHasExited then InsertAt(Entries(script), p, [ClickEntry(click.value)])
      else Entries(script)[..p] + [ClickEntry(click.value), AbortEntry(click.value.point)]
  }

  /**
   * The progress value of a line: only lines with a `%` are parsed, and the
   * test loses nothing, since a line without one has no value.
   */
  function LineProgress(line: string): (value: Option<Percent>)
    ensures value == ParseProgressPercentage(line)
  {
    if '%' in line then ParseProgressPercentage(line)
    else
      NoPercentSignNoValue(line);
      None
  }

  /**
   * The values a run writes to the progress bar while reading these lines:
   * well-formed numbers, at most one per line, and none at all from lines
   * without a `%`.
   */
  function ProgressUpdates(lines: seq<string>): (values: seq<Percent>)
    ensures |values| <= |lines|
    ensures forall k :: 0 <= k < |values| ==> values[k].WellFormed()
    ensures (forall i :: 0 <= i < |lines| ==> '%' !in lines[i]) ==> values == []
  {
    if lines == [] then []
    else
      var last := lines[|lines| - 1];
      ProgressUpdates(lines[..|lines| - 1]) + (if LineProgress(last).Some? then [LineProgress(last).value] else [])
  }

  /** The standard output lines the run gets to process. */
  function ProcessedStdout(script: ProcessScript, click: Option<CancelClick>): (lines: seq<string>)
    ensures lines <= script.stdout
  {
    if script.startError.Some? then []
    else if click.Some? && Lands(click.value, script) && !click.value.processHasExited
            && (click.value.point.BeforeStdoutRead? || click.value.point.AfterStdoutRead?)
    then script.stdout[..click.value.point.k]
    else script.stdout
  }

  /** The values a run writes to the progress bar: the first values of its standard output, or none when it did not start. */
  function RunProgress(script: ProcessScript, click: Option<CancelClick>): (values: seq<Percent>)
    ensures values <= ProgressUpdates(script.stdout)
    ensures script.startError.Some? ==> values == []
  {
    ProgressUpdatesPrefix(ProcessedStdout(script, click), script.stdout);
    ProgressUpdates(ProcessedStdout(script, click))
  }

  /** The progress values of some lines followed by others are those of the first lines, then those of the rest. */
  lemma {:induction false} ProgressUpdatesAppend(a: seq<string>, b: seq<string>)
    ensures ProgressUpdates(a + b) == ProgressUpdates(a) + ProgressUpdates(b)
  {
    if b == [] {
      assert a + b == a;
    } else {
      var front := b[..|b| - 1];
      assert (a + b)[..|a + b| - 1] == a + front;
      ProgressUpdatesAppend(a, front);
    }
  }

  /** Reading more lines only adds progress values after those already written. */
  lemma ProgressUpdatesPrefix(a: seq<string>, b: seq<string>)
    requires a <= b
    ensures ProgressUpdates(a) <= ProgressUpdates(b)
  {
    assert b == a + b[|a|..];
    ProgressUpdatesAppend(a, b[|a|..]);
  }

  // ------------------------------------------------------------ the run step by step
  //
  // Five predicates say where a click is handled. Two speak of a point:
  //   HitsAt(click, point)         the click is handled at this point;
  //   LiveHit(click, point)        the same, and the process had not exited.
  // Three speak of a step of a run that started (`Order` gives a point's step):
  //   FiresAt(click, script, t)    the click lands at step `t`;
  //   Fired(click, script, t)      the click lands at a step before `t` (defined above);
  //   LiveFired(click, script, t)  the same, and the process had not exited.

  /** The number of steps of a run that started. */
  function StepCount(script: ProcessScript): nat {
    |script.stdout| + 3 + |script.stderr|
  }

  /** The click is handled at this point. */
  predicate HitsAt(click: Option<CancelClick>, point: CancelPoint) {
    click.Some? && click.value.point == point
  }

  /** The click is handled at this point while the process still runs. */
  predicate LiveHit(click: Option<CancelClick>, point: CancelPoint) {
    HitsAt(click, point) && !click.value.processHasExited
  }

  /** What the cancel handler logs at this point. */
  function HitEntry(click: Option<CancelClick>, point: CancelPoint): seq<string> {
    if HitsAt(click, point) then [ClickEntry(click.value)] else []
  }

  /**
   * What step `t` logs when the run gets past it: the entry of a click
   * handled there, then the line read there, if any.
   */
  function StepEntries(script: ProcessScript, click: Option<CancelClick>, t: nat): seq<string> {
    var n, m := |script.stdout|, |script.stderr|;
    if t < n then HitEntry(click, BeforeStdoutRead(t)) + HitEntry(click, AfterStdoutRead(t)) + [script.stdout[t]]
    else if t == n then HitEntry(click, BeforeStdoutRead(n))
    else if t < n + 1 + m then HitEntry(click, BeforeStderrRead(t - n - 1)) + [ErrorEntry(script.stderr[t - n - 1])]
    else if t == n + 1 + m then HitEntry(click, BeforeStderrRead(m))
    else if t == n + 2 + m then HitEntry(click, BeforeExitWait)
    else []
  }

  /** What a run that started has logged after its command line once it got past the steps before `t`. */
  function Trace(script: ProcessScript, click: Option<CancelClick>, t: nat): seq<string> {
    if t == 0 then [] else Trace(script, click, t - 1) + StepEntries(script, click, t - 1)
  }

  /** The click lands at step `t`. */
  predicate FiresAt(click: Option<CancelClick>, script: ProcessScript, t: nat) {
    click.Some? && Lands(click.value, script) && Order(click.value.point, script) == t
  }

  /** A click on a live process has been handled before step `t`. */
  predicate LiveFired(click: Option<CancelClick>, script: ProcessScript, t: nat) {
    Fired(click, script, t) && !click.value.processHasExited
  }

  /** The log of a run that a click on a live process ended, before the closing entry. */
  function AbortedLog(script: ProcessScript, click: Option<CancelClick>): seq<string>
    requires click.Some?
  {
    Trace(script, click, Order(click.value.point, script)) + [ClickEntry(click.value)]
  }

  /** Getting past step `t` adds what it logs, after a log that held `logBefore` before the run. */
  lemma TraceGrows(script: ProcessScript, click: Option<CancelClick>, t: nat, logBefore: seq<string>)
    ensures logBefore + Trace(script, click, t + 1) == logBefore + Trace(script, click, t) + StepEntries(script, click, t)
  {
    AppendAssociates(logBefore, Trace(script, click, t), StepEntries(script, click, t));
  }

  /** A click on a live process handled at step `t` leaves the log at the trace before `t` and its own entry. */
  lemma AbortedAt(script: ProcessScript, click: Option<CancelClick>, t: nat, logBefore: seq<string>)
    requires click.Some? && Order(click.value.point, script) == t
    ensures logBefore + AbortedLog(script, click) == logBefore + Trace(script, click, t) + [ClickEntry(click.value)]
  {
    AppendAssociates(logBefore, Trace(script, click, t), [ClickEntry(click.value)]);
  }

  /** Whether a click on a live process is handled in the step of standard output line `i`. */
  lemma StdoutLineClick(script: ProcessScript, click: Option<CancelClick>, i: nat)
    requires script.startError.None? && i < |script.stdout|
    requires !LiveFired(click, script, i)
    ensures LiveFired(click, script, i + 1) <==> LiveHit(click, BeforeStdoutRead(i)) || LiveHit(click, AfterStdoutRead(i))
    ensures LiveHit(click, BeforeStdoutRead(i)) || LiveHit(click, AfterStdoutRead(i)) ==>
      && Lands(click.value, script) && Order(click.value.point, script) == i
      && ProcessedStdout(script, click) == script.stdout[..i]
    ensures LiveHit(click, AfterStdoutRead(i)) ==> HitEntry(click, BeforeStdoutRead(i)) == []
  {
  }

  /**
   * One turn of the standard output loop: the steps before and after the
   * read of line `i`, stated for a log that held `logBefore` before the run.
   */
  lemma StdoutLineStep(script: ProcessScript, click: Option<CancelClick>, i: nat, logBefore: seq<string>)
    requires script.startError.None? && i < |script.stdout|
    requires !LiveFired(click, script, i)
    ensures logBefore + Trace(script, click, i + 1)
         == logBefore + Trace(script, click, i) + HitEntry(click, BeforeStdoutRead(i))
            + HitEntry(click, AfterStdoutRead(i)) + [script.stdout[i]]
    ensures LiveFired(click, script, i + 1) <==> LiveHit(click, BeforeStdoutRead(i)) || LiveHit(click, AfterStdoutRead(i))
    ensures FiresAt(click, script, i) <==> HitsAt(click, BeforeStdoutRead(i)) || HitsAt(click, AfterStdoutRead(i))
    ensures LiveHit(click, BeforeStdoutRead(i)) ==>
      && Lands(click.value, script)
      && logBefore + AbortedLog(script, click)
         == logBefore + Trace(script, click, i) + HitEntry(click, BeforeStdoutRead(i))
    ensures LiveHit(click, AfterStdoutRead(i)) ==>
      && Lands(click.value, script)
      && logBefore + AbortedLog(script, click)
         == logBefore + Trace(script, click, i) + HitEntry(click, BeforeStdoutRead(i))
            + HitEntry(click, AfterStdoutRead(i))
    ensures LiveHit(click, BeforeStdoutRead(i)) || LiveHit(click, AfterStdoutRead(i)) ==>
      ProcessedStdout(script, click) == script.stdout[..i]
  {
    var before, after := HitEntry(click, BeforeStdoutRead(i)), HitEntry(click, AfterStdoutRead(i));
    var trace := logBefore + Trace(script, click, i);
    StdoutLineClick(script, click, i);
    TraceGrows(script, click, i, logBefore);
    assert StepEntries(script, click, i) == before + after + [script.stdout[i]];
    AppendAssociates(trace, before + after, [script.stdout[i]]);
    AppendAssociates(trace, before, after);
    if LiveHit(click, BeforeStdoutRead(i)) || LiveHit(click, AfterStdoutRead(i)) {
      AbortedAt(script, click, i, logBefore);
      if LiveHit(click, AfterStdoutRead(i)) {
        assert trace + before == trace;
      }
    }
  }

  /** The read that finds the end of standard output. */
  lemma StdoutEndStep(script: ProcessScript, click: Option<CancelClick>, logBefore: seq<string>)
    requires script.startError.None?
    requires !LiveFired(click, script, |script.stdout|)
    ensures logBefore + Trace(script, click, |script.stdout| + 1)
         == logBefore + Trace(script, click, |script.stdout|) + HitEntry(click, BeforeStdoutRead(|script.stdout|))
    ensures LiveFired(click, script, |script.stdout| + 1) <==> LiveHit(click, BeforeStdoutRead(|script.stdout|))
    ensures LiveHit(click, BeforeStdoutRead(|script.stdout|)) ==>
      && Lands(click.value, script)
      && logBefore + AbortedLog(script, click)
         == logBefore + Trace(script, click, |script.stdout|) + HitEntry(click, BeforeStdoutRead(|script.stdout|))
      && ProcessedStdout(script, click) == script.stdout
  {
    var n := |script.stdout|;
    TraceGrows(script, click, n, logBefore);
    if LiveHit(click, BeforeStdoutRead(n)) {
      AbortedAt(script, click, n, logBefore);
      assert script.stdout[..n] == script.stdout;
    }
  }

  /** Whether a click on a live process is handled at the step before the read of standard error line `j`. */
  lemma StderrLineClick(script: ProcessScript, click: Option<CancelClick>, j: nat)
    requires script.startError.None? && j < |script.stderr|
    requires !LiveFired(click, script, |script.stdout| + 1 + j)
    ensures LiveFired(click, script, |script.stdout| + 1 + (j + 1)) <==> LiveHit(click, BeforeStderrRead(j))
    ensures LiveHit(click, BeforeStderrRead(j)) ==>
      Lands(click.value, script) && Order(click.value.point, script) == |script.stdout| + 1 + j
  {
  }

  /** One turn of the standard error loop: the step before the read of line `j`. */
  lemma StderrLineStep(script: ProcessScript, click: Option<CancelClick>, j: nat, logBefore: seq<string>)
    requires script.startError.None? && j < |script.stderr|
    requires !LiveFired(click, script, |script.stdout| + 1 + j)
    ensures logBefore + Trace(script, click, |script.stdout| + 1 + (j + 1))
         == logBefore + Trace(script, click, |script.stdout| + 1 + j) + HitEntry(click, BeforeStderrRead(j))
            + [ErrorEntry(script.stderr[j])]
    ensures LiveFired(click, script, |script.stdout| + 1 + (j + 1)) <==> LiveHit(click, BeforeStderrRead(j))
    ensures LiveHit(click, BeforeStderrRead(j)) ==>
      && Lands(click.value, script)
      && logBefore + AbortedLog(script, click)
         == logBefore + Trace(script, click, |script.stdout| + 1 + j) + HitEntry(click, BeforeStderrRead(j))
  {
    var t := |script.stdout| + 1 + j;
    var hit := HitEntry(click, BeforeStderrRead(j));
    StderrLineClick(script, click, j);
    TraceGrows(script, click, t, logBefore);
    assert t + 1 == |script.stdout| + 1 + (j + 1);
    assert StepEntries(script, click, t) == hit + [ErrorEntry(script.stderr[j])];
    AppendAssociates(logBefore + Trace(script, click, t), hit, [ErrorEntry(script.stderr[j])]);
    if LiveHit(click, BeforeStderrRead(j)) {
      AbortedAt(script, click, t, logBefore);
    }
  }

  /** The read that finds the end of standard error. */
  lemma StderrEndStep(script: ProcessScript, click: Option<CancelClick>, logBefore: seq<string>)
    requires script.startError.None?
    requires !LiveFired(click, script, |script.stdout| + 1 + |script.stderr|)
    ensures logBefore + Trace(script, click, |script.stdout| + 2 + |script.stderr|)
         == logBefore + Trace(script, click, |script.stdout| + 1 + |script.stderr|)
            + HitEntry(click, BeforeStderrRead(|script.stderr|))
    ensures LiveFired(click, script, |script.stdout| + 2 + |script.stderr|)
        <==> LiveHit(click, BeforeStderrRead(|script.stderr|))
    ensures LiveHit(click, BeforeStderrRead(|script.stderr|)) ==>
      && Lands(click.value, script)
      && logBefore + AbortedLog(script, click)
         == logBefore + Trace(script, click, |script.stdout| + 1 + |script.stderr|)
            + HitEntry(click, BeforeStderrRead(|script.stderr|))
  {
    var t := |script.stdout| + 1 + |script.stderr|;
    TraceGrows(script, click, t, logBefore);
    assert t + 1 == |script.stdout| + 2 + |script.stderr|;
    if LiveHit(click, BeforeStderrRead(|script.stderr|)) {
      AbortedAt(script, click, t, logBefore);
    }
  }

  /** The wait for the exit, the last step: a run that gets past it has logged RunEntries. */
  lemma ExitStep(script: ProcessScript, click: Option<CancelClick>, logBefore: seq<string>)
    requires script.startError.None?
    requires !LiveFired(click, script, |script.stdout| + 2 + |script.stderr|)
    ensures LiveHit(click, BeforeExitWait) ==>
      && Lands(click.value, script)
      && logBefore + AbortedLog(script, click)
         == logBefore + Trace(script, click, |script.stdout| + 2 + |script.stderr|) + HitEntry(click, BeforeExitWait)
    ensures !LiveHit(click, BeforeExitWait) ==>
      logBefore + Trace(script, click, |script.stdout| + 2 + |script.stderr|) + HitEntry(click, BeforeExitWait)
      == logBefore + RunEntries(script, click)
  {
    var t := |script.stdout| + 2 + |script.stderr|;
    TraceGrows(script, click, t, logBefore);
    assert t + 1 == StepCount(script);
    if LiveHit(click, BeforeExitWait) {
      AbortedAt(script, click, t, logBefore);
    } else {
      TraceEnd(script, click);
    }
  }

  /** A run that no click on a live process ended logs, over all its steps, RunEntries. */
  lemma TraceEnd(script: ProcessScript, click: Option<CancelClick>)
    requires script.startError.None?
    requires !LiveFired(click, script, StepCount(script))
    ensures Trace(script, click, StepCount(script)) == RunEntries(script, click)
  {
    TraceMatchesLogAt(script, click, StepCount(script));
    LogAtEnd(script, click);
  }

  /** A run that a click on a live process ended logs the click's entry and then the closing entry. */
  lemma StoppedRunEntries(script: ProcessScript, click: Option<CancelClick>)
    requires click.Some? && Lands(click.value, script) && !click.value.processHasExited
    ensures RunEntries(script, click) == AbortedLog(script, click) + [AbortEntry(click.value.point)]
  {
    ClickPosition(script, click.value.point);
    TraceMatchesLogAt(script, click, Order(click.value.point, script));
  }

  /** A run that no click on a live process stopped while reading standard output writes the progress of every line. */
  lemma LateStopKeepsProgress(script: ProcessScript, click: Option<CancelClick>)
    requires script.startError.None?
    requires !LiveFired(click, script, |script.stdout| + 1)
    ensures ProcessedStdout(script, click) == script.stdout
  {
  }

  // ------------------------------------------------------------ the trace against RunEntries

  /** How many entries of Entries(script) the steps before `t` read. */
  function Reads(script: ProcessScript, t: nat): nat {
    var n, m := |script.stdout|, |script.stderr|;
    if t <= n then t else if t <= n + 1 + m then t - 1 else n + m
  }

  /**
   * The log of a run that has not thrown, after its command line, when
   * `pos` entries have been read and the steps before `t` taken, stated
   * like RunEntries.
   */
  function LogAt(script: ProcessScript, click: Option<CancelClick>, t: nat, pos: nat): seq<string>
    requires pos <= |Entries(script)|
  {
    var logged := Entries(script)[..pos];
    if Fired(click, script, t) && Position(click.value.point, script) <= pos
    then InsertAt(logged, Position(click.value.point, script), [ClickEntry(click.value)])
    else logged
  }

  /** After the steps before `t`, the trace is LogAt over what they read. */
  predicate TraceAgrees(script: ProcessScript, click: Option<CancelClick>, t: nat) {
    Reads(script, t) <= |Entries(script)| && Trace(script, click, t) == LogAt(script, click, t, Reads(script, t))
  }

  /** The trace is LogAt over the whole run. */
  lemma {:induction false} TraceMatchesLogAt(script: ProcessScript, click: Option<CancelClick>, t: nat)
    requires script.startError.None? && t <= StepCount(script)
    ensures TraceAgrees(script, click, t)
  {
    if t == 0 {
      assert Entries(script)[..0] == [];
    } else {
      TraceMatchesLogAt(script, click, t - 1);
      LogAtStep(script, click, t - 1);
    }
  }

  /** The step of TraceMatchesLogAt from `u` to `u + 1`. */
  lemma LogAtStep(script: ProcessScript, click: Option<CancelClick>, u: nat)
    requires script.startError.None? && u < StepCount(script)
    requires TraceAgrees(script, click, u)
    ensures TraceAgrees(script, click, u + 1)
  {
    StepShape(script, click, u);
    ClickBounds(script, click, u);
    LogAtTick(script, click, u, Reads(script, u));
    if Reads(script, u + 1) != Reads(script, u) {
      LogAtRead(script, click, u);
    }
  }

  /** A step that reads an entry logs it after the click's entry, if the click lands there. */
  lemma LogAtRead(script: ProcessScript, click: Option<CancelClick>, u: nat)
    requires Reads(script, u) < |Entries(script)|
    requires Fired(click, script, u + 1) ==> Position(click.value.point, script) <= Reads(script, u)
    requires Reads(script, u + 1) == Reads(script, u) + 1
    requires Trace(script, click, u + 1)
          == LogAt(script, click, u, Reads(script, u))
             + (if FiresAt(click, script, u) then [ClickEntry(click.value)] else [])
             + [Entries(script)[Reads(script, u)]]
    requires LogAt(script, click, u + 1, Reads(script, u))
          == LogAt(script, click, u, Reads(script, u))
             + (if FiresAt(click, script, u) then [ClickEntry(click.value)] else [])
    ensures Trace(script, click, u + 1) == LogAt(script, click, u + 1, Reads(script, u + 1))
  {
    LogAtAdvance(script, click, u + 1, Reads(script, u));
  }

  /** Where the click's entry goes, relative to what the steps before `u` and `u + 1` read. */
  lemma ClickBounds(script: ProcessScript, click: Option<CancelClick>, u: nat)
    requires script.startError.None?
    ensures Fired(click, script, u + 1) ==> Position(click.value.point, script) <= Reads(script, u)
    ensures FiresAt(click, script, u) ==> Position(click.value.point, script) == Reads(script, u)
  {
    if click.Some? && Lands(click.value, script) {
      ClickPosition(script, click.value.point);
      if Order(click.value.point, script) <= u {
        ReadsMonotone(script, Order(click.value.point, script), u);
      }
    }
  }

  /** Step `t` logs the click's entry if it lands there, then the next entry of Entries(script) if it reads one. */
  lemma StepShape(script: ProcessScript, click: Option<CancelClick>, t: nat)
    requires script.startError.None? && t < StepCount(script)
    ensures Reads(script, t) <= Reads(script, t + 1) <= Reads(script, t) + 1
    ensures Reads(script, t + 1) <= |Entries(script)|
    ensures StepEntries(script, click, t)
         == (if FiresAt(click, script, t) then [ClickEntry(click.value)] else [])
            + (if Reads(script, t + 1) == Reads(script, t) then [] else [Entries(script)[Reads(script, t)]])
  {
    var n, m := |script.stdout|, |script.stderr|;
    var e := Entries(script);
    var clicked := if FiresAt(click, script, t) then [ClickEntry(click.value)] else [];
    if t < n {
      StdoutStepHits(script, click, t);
      assert e[t] == script.stdout[t];
    } else if t == n {
      assert FiresAt(click, script, t) <==> HitsAt(click, BeforeStdoutRead(n));
    } else if t < n + 1 + m {
      assert FiresAt(click, script, t) <==> HitsAt(click, BeforeStderrRead(t - n - 1));
      assert e[n + (t - n - 1)] == ErrorEntry(script.stderr[t - n - 1]);
    } else if t == n + 1 + m {
      assert FiresAt(click, script, t) <==> HitsAt(click, BeforeStderrRead(m));
    } else {
      assert FiresAt(click, script, t) <==> HitsAt(click, BeforeExitWait);
    }
  }

  /** The step of standard output line `t` logs the click's entry once if the click lands there. */
  lemma StdoutStepHits(script: ProcessScript, click: Option<CancelClick>, t: nat)
    requires script.startError.None? && t < |script.stdout|
    ensures HitEntry(click, BeforeStdoutRead(t)) + HitEntry(click, AfterStdoutRead(t))
         == (if FiresAt(click, script, t) then [ClickEntry(click.value)] else [])
  {
    if click.Some? && click.value.point == AfterStdoutRead(t) {
      assert HitEntry(click, BeforeStdoutRead(t)) == [];
    }
  }

  /** A click that lands has read as many entries as the steps before its point. */
  lemma ClickPosition(script: ProcessScript, point: CancelPoint)
    requires Reached(point, script)
    ensures Position(point, script) == Reads(script, Order(point, script))
  {
  }

  lemma ReadsMonotone(script: ProcessScript, a: nat, b: nat)
    requires a <= b
    ensures Reads(script, a) <= Reads(script, b)
  {
  }

  /** Step `t` is taken with `pos` entries read: the click, if it lands there, adds its entry. */
  lemma LogAtTick(script: ProcessScript, click: Option<CancelClick>, t: nat, pos: nat)
    requires pos <= |Entries(script)|
    requires Fired(click, script, t) ==> Position(click.value.point, script) <= pos
    requires FiresAt(click, script, t) ==> Position(click.value.point, script) == pos
    ensures LogAt(script, click, t + 1, pos)
         == LogAt(script, click, t, pos) + (if FiresAt(click, script, t) then [ClickEntry(click.value)] else [])
  {
    var logged := Entries(script)[..pos];
    if FiresAt(click, script, t) {
      assert logged[..pos] == logged && logged[pos..] == [];
    }
  }

  /** One more entry is read. */
  lemma LogAtAdvance(script: ProcessScript, click: Option<CancelClick>, t: nat, pos: nat)
    requires pos < |Entries(script)|
    requires Fired(click, script, t) ==> Position(click.value.point, script) <= pos
    ensures LogAt(script, click, t, pos + 1) == LogAt(script, click, t, pos) + [Entries(script)[pos]]
  {
    var e := Entries(script);
    assert e[..pos + 1] == e[..pos] + [e[pos]];
    if Fired(click, script, t) {
      InsertAtAppend(e[..pos], Position(click.value.point, script), [ClickEntry(click.value)], e[pos]);
    }
  }

  /** A run that took every step and read every entry. */
  lemma LogAtEnd(script: ProcessScript, click: Option<CancelClick>)
    requires script.startError.None?
    requires !LiveFired(click, script, StepCount(script))
    ensures RunEntries(script, click) == LogAt(script, click, StepCount(script), |Entries(script)|)
  {
    assert Entries(script)[..|Entries(script)|] == Entries(script);
  }

  // ------------------------------------------------------------ proof helpers

  lemma AppendAssociates(before: seq<string>, logged: seq<string>, more: seq<string>)
    ensures before + logged + more == before + (logged + more)
  {
  }

  lemma InsertAtAppend(s: seq<string>, p: nat, t: seq<string>, x: string)
    requires p <= |s|
    ensures InsertAt(s + [x], p, t) == InsertAt(s, p, t) + [x]
  {
    assert (s + [x])[..p] == s[..p];
    assert (s + [x])[p..] == s[p..] + [x];
  }

  lemma ProgressUpdatesStep(lines: seq<string>, i: nat)
    requires i < |lines|
    ensures ProgressUpdates(lines[..i + 1])
         == ProgressUpdates(lines[..i]) + (if LineProgress(lines[i]).Some? then [LineProgress(lines[i]).value] else [])
  {
    assert lines[..i + 1][..i] == lines[..i];
  }
}
