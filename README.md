# RealSnag Media Downloader — a Dafny model of its core

RealSnag Media Downloader is an Avalonia desktop front end for `yt-dlp`-style
media downloaders. This project models the logic behind its main window and
its three services, and proves what that logic promises.

**Main window** (`MainWindow.axaml.cs`)
- The Download button's link check, format choice and output path.
- The downloader's argument string and its command-line log entry.
- The run itself: standard output is read line by line into the log and the
  progress bar, then standard error is logged as errors, then the window waits
  for the exit.
- The Cancel button: its state machine over the current process and the
  cancellation token.
- The regular expression that reads a percentage out of a line of output.
- The first-success searches for the downloader's name and for `ffmpeg`.

**FFmpeg locator** (`Services/FFmpegService.cs`)
- The five-strategy search, and the cache it writes on every exit.
- `TryCommand` and `ClearCache`.
- The `RuntimeIndicator` platform flags.

**Localization** (`Services/LocalizationService.cs`)
- The English and German tables.
- The `GetString` fallback chain: current language, then English, then the
  key itself.
- The `CurrentLanguage` setter, which accepts only a real change to a known
  language and raises `LanguageChanged` for it.
- `AvailableLanguages`.

**Settings** (`Services/SettingsService.cs`)
- The defaults.
- The `IsDarkTheme` and `Language` setters, each raising its event on a
  change only.
- `ApplyTheme`.

How the model is built:
- Parts of the source that change objects in place are classes with
  `modifies` clauses. These are `MainWindow`, `FFmpegLocator`,
  `LocalizationService`, `SettingsService` and the process and token objects.
- The read loops and first-success searches are `while` and `for` loops
  with invariants.
- The string building and parsing are functions with lemmas.
- The operating system is a set of parameters:
  - the outcome of each probe command (`CommandOutcome`);
  - `File.Exists` (a predicate on paths);
  - the downloader's output (`ProcessScript`: a start error, or its standard
    output and standard error lines);
  - the user's click on Cancel (`CancelClick`: where in the run it lands,
    whether the process had already exited, and what `Kill` throws).

The modules:
- `Wrappers`: `Option`.
- `DotNet`: `Char.IsWhiteSpace`, `Trim`, the first line of `Split('\n')`,
  `Path.Combine`.
- `ProcessProbe`: what a probe command returns.
- `ProgressParser`: `ParseProgressPercentage`.
- `DownloadArguments`: the format, output path and argument string.
- `ToolResolution`: `GetMediaDownloaderToolName` and `GetFFmpegPath`.
- `FFmpegService`: the locator and its cache.
- `DownloadRun`: the log and progress of one run, as functions of the script
  and the click, with the step-by-step trace the loops follow.
- `DownloadWindow`: the window class.
- `RunFacts`: what whole runs promise.
- `Localization` and `Settings`: the two services.

### Behaviour of the code that the model keeps

- **Reading order.** A run drains standard output to its end, and only then
  reads standard error (MainWindow.axaml.cs:193-214).
- **Exit code.** The download process's exit code is never read.
- **Final status.** The status always ends "Complete" after a run. The run
  catches every exception itself, so the window's "Error" status
  (MainWindow.axaml.cs:151-155) cannot be reached.
- **FFmpeg search order.** The two searches differ, and neither runs a
  version probe on a bundled file:
  - `GetFFmpegPath` asks python for the `imageio_ffmpeg` binary, then runs
    `ffmpeg -version`, then tries nine fixed paths, then falls back to
    "ffmpeg" (MainWindow.axaml.cs:359-458);
  - `FindFFmpeg` asks `which`, then `where`, then tries the bundled binary,
    then three common paths on Windows only, then falls back to "ffmpeg"
    (Services/FFmpegService.cs:14-71).
- **How a cancel shows.** At the model's click points (before each read,
  right after each standard output line comes back, and before the wait), a
  click on Cancel that finds the process still running appears as two log
  entries. The first is the cancel handler's entry. The second is the
  exception the run meets next:
  - "Download operation was cancelled." only when the token is checked right
    after a line was read;
  - otherwise the message of the null reference that the cleared
    `_currentProcess` causes.

## Model

| member | source | states |
|---|---|---|
| ProgressParser.ParseProgressPercentage | MainWindow.axaml.cs:300-308 | there is a value exactly when some span of the line matches `\d+(\.\d+)?%`; the value is well formed and is the text of the leftmost match |
| ProgressParser.MatchEndFromCorrect | MainWindow.axaml.cs:302 | from a given start the pattern has at most one match end, and the greedy scan finds exactly that one |
| ProgressParser.FindMatch | MainWindow.axaml.cs:302 | the match found is a real match, and no match starts before it |
| ProgressParser.ToPercent | MainWindow.axaml.cs:303 | splitting a matched number at its point gives a well-formed value whose text is the number |
| ProgressParser.PercentTextRoundTrip | MainWindow.axaml.cs:303 | a well-formed value's text is a number, and reading that text gives the value back |
| ProgressParser.NoPercentSignNoValue | MainWindow.axaml.cs:200-202 | a line without `%` never yields a value |
| ProgressParser.LeftmostMatchDecides | MainWindow.axaml.cs:302-306 | the leftmost match alone decides the value |
| ProgressParser.ParseAfterText | MainWindow.axaml.cs:300-308 | text without digits, then a number, then `%` yields that number |
| ProgressParser.ParseBarePercentage | MainWindow.axaml.cs:300-308 | "N%" yields N |
| DownloadArguments.FormatFor | MainWindow.axaml.cs:135-138 | the format is "mp4" exactly when the MP4 radio button is checked, and "mp3" otherwise, including the indeterminate state |
| DownloadArguments.OutputPath | MainWindow.axaml.cs:137-138 | both formats get `<profile>\Downloads\%(title)s.%(ext)s` |
| DownloadArguments.FormatOptions | MainWindow.axaml.cs:168-170 | the options start with `-f`, and ask for audio extraction exactly when the format is not "mp4" |
| DownloadArguments.ArgumentWords | MainWindow.axaml.cs:168-170 | `--ffmpeg-location` and the quoted ffmpeg path come first, then the format options, then the quoted url, `-o`, the quoted output path and `--newline` |
| DownloadArguments.BuildArguments | MainWindow.axaml.cs:168-170 | the argument string is `--ffmpeg-location`, the quoted ffmpeg path, the format options, the quoted url, `-o`, the quoted output path and `--newline`, separated by single spaces |
| DownloadArguments.JoinWordsAppend | MainWindow.axaml.cs:168-170 | joining two word lists is joining each list and putting one space between the results |
| DownloadArguments.Mp4OptionsText | MainWindow.axaml.cs:168-169 | for mp4 the options read `-f "bestvideo[ext=mp4]+bestaudio[ext=m4a]/best[ext=mp4]"` |
| DownloadArguments.Mp3OptionsText | MainWindow.axaml.cs:168-170 | for any other format the options read `-f bestaudio --extract-audio --audio-format mp3 --audio-quality 0` |
| ToolResolution.FirstAccepted | MainWindow.axaml.cs:448-454 | the index found is of an accepted candidate with none accepted before it; there is no index exactly when no candidate is accepted |
| ToolResolution.ResolveToolName | MainWindow.axaml.cs:319-357 | the name is one of the three candidates, and either its `--version` probe exited 0 or no probe did and it is the default "yt-dlp" |
| ToolResolution.ToolNameIsFirstSuccess | MainWindow.axaml.cs:322-356 | the i-th candidate is chosen exactly when its probe succeeds and every earlier probe failed or threw |
| ToolResolution.GetMediaDownloaderToolName | MainWindow.axaml.cs:319-357 | the probing loop returns the resolved name |
| ToolResolution.PythonAnswer | MainWindow.axaml.cs:362-392 | the python query gives an answer exactly when it exited 0, and the answer is its trimmed output |
| ToolResolution.PythonAccepted | MainWindow.axaml.cs:378-384 | the python answer is taken exactly when the query exited 0 and its trimmed output is non-empty and names an existing file |
| ToolResolution.ImageioPath | MainWindow.axaml.cs:427-434 | each python path ends with `ffmpeg-win-x86_64-v7.1.exe` |
| ToolResolution.FixedPaths | MainWindow.axaml.cs:424-446 | there are nine fixed paths, none of them empty |
| ToolResolution.ResolveFFmpegPath | MainWindow.axaml.cs:359-458 | the path is never empty; it is "ffmpeg" or an existing file |
| ToolResolution.FFmpegPathStrategyOrder | MainWindow.axaml.cs:362-457 | an accepted python answer wins; otherwise a successful `ffmpeg -version` gives "ffmpeg"; otherwise the first fixed path that exists is chosen; when none exists the answer is "ffmpeg" |
| ToolResolution.GetFFmpegPath | MainWindow.axaml.cs:359-458 | the two probes and the loop over the fixed paths return the resolved path |
| DotNet.TrimStart | Services/FFmpegService.cs:92 | the result is a suffix of the input that is empty or starts with a non-white-space character, and everything cut off is white space |
| DotNet.TrimEnd | Services/FFmpegService.cs:92 | the result is a prefix of the input that is empty or ends with a non-white-space character, and everything cut off is white space |
| DotNet.Trim | Services/FFmpegService.cs:92 | `String.Trim`: the result is the infix left after cutting white space only, from both ends, and it neither starts nor ends with white space |
| DotNet.FirstLine | Services/FFmpegService.cs:29 | the first piece of `Split('\n')`: a prefix of the input holding no line feed, ended by a line feed or by the end of the input |
| DotNet.CombinePathEndsWithLastPart | Services/FFmpegService.cs:37-40 | `Path.Combine` of parts whose last part is not empty ends with that last part |
| FFmpegService.PlatformFlagsExclusive | Services/FFmpegService.cs:108-113 | at most one of IsWindows, IsMac and IsLinux holds, and none holds on the legacy platforms |
| FFmpegService.ShellFor | Services/FFmpegService.cs:79-80 | the shell is `cmd.exe` exactly on Windows |
| FFmpegService.TryCommand | Services/FFmpegService.cs:73-100 | there is a result exactly when the process exited with code 0; the result is the trimmed standard output, with no white space at either end |
| FFmpegService.WhichPath | Services/FFmpegService.cs:21 | there is an answer exactly when `which ffmpeg` exited 0, and the answer is its trimmed output |
| FFmpegService.WherePath | Services/FFmpegService.cs:29 | there is an answer exactly when `where ffmpeg` exited 0; the answer is the first line of its trimmed output, trimmed, and holds no line feed |
| FFmpegService.BundledPath | Services/FFmpegService.cs:37-40 | the bundled path ends in the file name `ffmpeg.exe` on Windows and `ffmpeg` elsewhere |
| FFmpegService.CommonPaths | Services/FFmpegService.cs:51-56 | there are three common installation paths |
| FFmpegService.Accepted | Services/FFmpegService.cs:22 | an answer is taken exactly when it is present, non-empty and names an existing file |
| FFmpegService.ResolveFFmpeg | Services/FFmpegService.cs:14-71 | the result is never empty; it is "ffmpeg" or an existing file |
| FFmpegService.CommonPathsOnlyOnWindows | Services/FFmpegService.cs:49-66 | off Windows the result is the `which` answer, the `where` answer, the bundled path or "ffmpeg" |
| FFmpegService.StrategyPriority | Services/FFmpegService.cs:21-70 | an accepted `which` answer wins; otherwise an accepted `where` answer; otherwise an existing bundled file; otherwise, on Windows, the first common path that exists; otherwise "ffmpeg" |
| FFmpegService.FFmpegLocator.constructor | Services/FFmpegService.cs:9 | the cache starts empty |
| FFmpegService.FFmpegLocator.FindFFmpeg | Services/FFmpegService.cs:14-71 | a cached path is returned without running any strategy; otherwise the result of the strategy chain is returned; either way the cache then holds the result |
| FFmpegService.FFmpegLocator.ClearCache | Services/FFmpegService.cs:105 | the cache is empty |
| FFmpegService.CacheIsWriteOnce | Services/FFmpegService.cs:14-105 | two searches in different environments return the same path; after `ClearCache` the strategies run again in the new environment |
| Localization.TablesHaveSameKeys | Services/LocalizationService.cs:21-78 | the English and German tables translate the same keys |
| Localization.LocalizationService.constructor | Services/LocalizationService.cs:15-80 | a new service holds the two tables, speaks "de" and has raised no event |
| Localization.LocalizationService.GetString | Services/LocalizationService.cs:82-98 | the current language's translation when it has the key; otherwise the English one when English has the key; otherwise the key itself |
| Localization.LocalizationService.AvailableLanguages | Services/LocalizationService.cs:113 | the languages are exactly "en" and "de" |
| Localization.LocalizationService.CurrentLanguage | Services/LocalizationService.cs:100-102 | the current language is always one of the available ones, "en" or "de" |
| Localization.LocalizationService.SetCurrentLanguage | Services/LocalizationService.cs:105-109 | a different known language is taken and raises exactly one `LanguageChanged` carrying it; otherwise nothing changes and no event is raised |
| Localization.LookupUsesCurrentLanguage | Services/LocalizationService.cs:82-98 | every known key is translated in the current language, and an unknown key comes back unchanged |
| Localization.KeyShownAsItself | Services/LocalizationService.cs:82-98 | a lookup returns the key itself exactly when the key is unknown or the current language translates it to itself; "English" is shown as itself in both languages |
| Settings.Application.constructor | Services/SettingsService.cs:45-55 | a new application has the default theme variant |
| Settings.VariantFor | Services/SettingsService.cs:47-54 | Dark exactly for the dark flag, Light exactly for the light one |
| Settings.SettingsService.constructor | Services/SettingsService.cs:16-17 | dark theme and "de" by default, with no event raised |
| Settings.SettingsService.SetIsDarkTheme | Services/SettingsService.cs:19-30 | the flag takes the value; one `ThemeChanged` carrying it is raised on a change only; the language side is untouched |
| Settings.SettingsService.SetLanguage | Services/SettingsService.cs:32-43 | any string is taken; one `LanguageChanged` carrying it is raised on a change only; the theme side is untouched |
| Settings.SettingsService.ApplyTheme | Services/SettingsService.cs:45-55 | the application's variant is Dark when the flag is set and Light otherwise |
| Settings.ThemeFollowsLastEvent | Services/SettingsService.cs:16-28 | for a toggling history, the flag equals the last `ThemeChanged` payload, or the default when there was none, and no two consecutive payloads are equal |
| DownloadRun.ErrorEntries | MainWindow.axaml.cs:210-214 | each standard error line is logged as "ERROR: " followed by the line, in order |
| DownloadRun.KillEntry | MainWindow.axaml.cs:246-271 | the entry is "Download cancelled by user." exactly when `Kill` threw nothing |
| DownloadRun.ClickEntry | MainWindow.axaml.cs:244-297 | the entry is "No active download to cancel." exactly when the process had already exited |
| DownloadRun.AbortEntry | MainWindow.axaml.cs:194-225 | the run ends with "Download operation was cancelled." exactly when the click came right after a standard output read |
| DownloadRun.RunEntries | MainWindow.axaml.cs:189-225 | a start failure logs one entry; otherwise at most two entries beyond the lines; every entry is a line entry, the click's entry, the entry of the exception it causes, or the start error |
| DownloadRun.LineProgress | MainWindow.axaml.cs:200-203 | testing for `%` before parsing changes no line's value |
| DownloadRun.ProgressUpdates | MainWindow.axaml.cs:193-208 | at most one value per line, each well formed, and none when no line has `%` |
| DownloadRun.RunProgress | MainWindow.axaml.cs:193-208 | a run writes a prefix of its lines' values to the bar, and none when the process fails to start |
| DownloadRun.ProgressUpdatesAppend | MainWindow.axaml.cs:193-208 | the progress values of two runs of lines are those of the first followed by those of the second |
| DownloadRun.ProgressUpdatesPrefix | MainWindow.axaml.cs:193-208 | reading more lines only appends progress values |
| DownloadRun.ProcessedStdout | MainWindow.axaml.cs:193-208 | the run processes a prefix of the standard output lines |
| DownloadRun.TraceEnd | MainWindow.axaml.cs:191-216 | a run no live click stopped leaves, after its last step, exactly the run's log |
| DownloadRun.StoppedRunEntries | MainWindow.axaml.cs:218-225 | a click on a live process ends the log with the click's entry and then the entry of the exception that follows |
| DownloadRun.LateStopKeepsProgress | MainWindow.axaml.cs:193-216 | a click after standard output ended keeps every standard output line's progress |
| DownloadRun.TraceMatchesLogAt | MainWindow.axaml.cs:191-216 | at every step the trace equals the log lines read so far, with the click's entry inserted at its place |
| RunFacts.ProgressUpdatesOfLine | MainWindow.axaml.cs:200-207 | one line adds its parsed value, if it has one, and nothing else |
| RunFacts.UncancelledRunLogsEverything | MainWindow.axaml.cs:193-216 | without a click, every standard output line is logged in order, then every standard error line as "ERROR: " plus the line, and each parsable standard output line moves the bar |
| RunFacts.StartFailureLogsOneEntry | MainWindow.axaml.cs:191-225 | a process that fails to start logs only "Error during download: " plus the message, and moves no progress |
| RunFacts.ExitedClickOnlyNotes | MainWindow.axaml.cs:244-297 | a click after the process exited only inserts "No active download to cancel."; removing that entry gives the log of the run without a click, and the progress is the same |
| RunFacts.LiveClickEndsRun | MainWindow.axaml.cs:194-297 | a click on a live process cuts the run's log short, appends the cancel handler's entry (the kill error or "Download cancelled by user."), then the cancellation entry exactly when the click came right after a read, and the null-reference error entry otherwise |
| RunFacts.CancelledProgressIsPrefix | MainWindow.axaml.cs:193-208 | a cancel can only cut the progress short |
| DownloadWindow.Process.constructor | MainWindow.axaml.cs:174-185 | a new process has neither exited nor been killed |
| DownloadWindow.CancellationTokenSource.constructor | MainWindow.axaml.cs:187 | a new token source is neither cancelled nor disposed |
| DownloadWindow.MainWindow.constructor | MainWindow.axaml.cs:17-49 | no process or token source, empty log and progress, both buttons enabled, the initial status and bar visibility |
| DownloadWindow.MainWindow.OnClearLogsClick | MainWindow.axaml.cs:33-42 | the log is emptied and nothing else changes |
| DownloadWindow.MainWindow.OnCancelButtonClick | MainWindow.axaml.cs:234-298 | with a live process that has not exited, the token is cancelled, the process killed unless `Kill` throws, its error or "Download cancelled by user." logged and `_currentProcess` cleared; otherwise only "No active download to cancel." is logged; either way the button ends enabled |
| DownloadWindow.MainWindow.ReachPoint | MainWindow.axaml.cs:234-298 | a click landing at the run's current point runs the cancel handler and logs its entry; a click on a live process clears `_currentProcess` and cancels the token; otherwise nothing changes |
| DownloadWindow.MainWindow.ShowProgress | MainWindow.axaml.cs:200-207 | the bar gets the line's value when the line has a `%` and parses, and nothing else changes, the Cancel button included |
| DownloadWindow.MainWindow.ReadStdoutLine | MainWindow.axaml.cs:194-207 | one turn of the standard output loop keeps the log equal to the trace and the progress equal to the values of the lines read, or stops the run as the click decides |
| DownloadWindow.MainWindow.ReadStandardOutput | MainWindow.axaml.cs:193-208 | the standard output loop logs every line in order and writes every value, or stops where the click lands; the Cancel button changes only by being enabled by a click handled in the loop |
| DownloadWindow.MainWindow.ReachStdoutEnd | MainWindow.axaml.cs:194 | the read that ends standard output leaves the progress equal to every line's values and starts the error loop, or stops the run as the click decides |
| DownloadWindow.MainWindow.ReadStderrLine | MainWindow.axaml.cs:210-214 | one turn of the standard error loop logs "ERROR: " plus the line, or stops the run |
| DownloadWindow.MainWindow.ReadStandardError | MainWindow.axaml.cs:210-214 | the standard error loop logs every line as an error, in order, or stops where the click lands; the Cancel button changes only by being enabled by a click handled in the loop |
| DownloadWindow.MainWindow.ReachStderrEnd | MainWindow.axaml.cs:211 | the read that ends standard error leads to the wait, or stops the run as the click decides |
| DownloadWindow.MainWindow.WaitForExit | MainWindow.axaml.cs:216 | the wait completes the run's log, or a click before it stops the run |
| DownloadWindow.MainWindow.ReadOutputs | MainWindow.axaml.cs:193-221 | the two loops and the wait leave the run's log, less the pending exception entry when a click stopped them, and the run's progress; the Cancel button ends enabled exactly when it was, or the click landed |
| DownloadWindow.MainWindow.ExecuteProcess | MainWindow.axaml.cs:189-231 | start, loops, wait, catch clauses and finally leave exactly the run's log and progress, and both fields cleared; the Cancel button ends enabled exactly when it was, or the click landed during the run |
| DownloadWindow.MainWindow.LogCommandLine | MainWindow.axaml.cs:165-172 | the tools are resolved and "Executing command: " plus the tool and arguments is logged |
| DownloadWindow.CommandEntryNamesTools | MainWindow.axaml.cs:165-172 | the logged command names one of the three downloaders, and passes "ffmpeg" or an existing file as the ffmpeg location |
| DownloadWindow.MainWindow.RunProcess | MainWindow.axaml.cs:174-231 | a new process and token source, then the run: the log gains the run's entries, the progress gains its values, and both fields end cleared; the Cancel button ends enabled exactly when it was, or the click landed during the run |
| DownloadWindow.MainWindow.RunMediaDownloader | MainWindow.axaml.cs:163-232 | the log gains the command line and then the run's entries, the progress gains the run's values, and the process and token fields end cleared; the Cancel button ends enabled exactly when it was, or the click landed during the run |
| DownloadWindow.MainWindow.ShowDownloadStarted | MainWindow.axaml.cs:142-145 | status "Downloading...", Download disabled, bar shown at 0 |
| DownloadWindow.MainWindow.ShowDownloadEnded | MainWindow.axaml.cs:149-158 | status "Complete", Download enabled, bar hidden |
| DownloadWindow.MainWindow.StartDownload | MainWindow.axaml.cs:135-160 | the run gets the chosen format and output path; the bar is reset to 0 before the run's values; the status ends "Complete"; the Cancel button ends enabled exactly when it was, or the click landed during the run |
| DownloadWindow.MainWindow.OnDownloadButtonClick | MainWindow.axaml.cs:113-161 | a null or blank link only logs "Error: Please enter a valid media link." and leaves every other field, the Cancel button included, as it was; any other link runs the download with it |

## Left out

- `OnLinkTextChanged` and `FetchMetadata` (MainWindow.axaml.cs:51-111): they fetch metadata and a thumbnail over the network and build a bitmap.
- Concurrency between Cancel and the read loops. Cancel is one click at a chosen point between the run's steps, and at most one click per run is modelled. A click while a standard output read is pending is the click right after that read. Shapes with no click point include:
  - a click while `WaitForExitAsync` (MainWindow.axaml.cs:216) is pending: the kill ends the process, the wait returns normally and nothing throws, so the handler's entry is the last entry and stands alone;
  - a click while a standard error read is pending that then returns a buffered line: the error loop checks no token, so the handler's entry is followed by "ERROR: " plus that line and only then by the null-reference entry;
  - a click just after the token check for standard output line `k` (MainWindow.axaml.cs:196), before the line's log write posted at MainWindow.axaml.cs:198 runs: the log holds the lines before `k`, the handler's entry, line `k` (and its progress value), then the null-reference entry of the next read. The handler is not atomic with the loop either: `Cancel()` (MainWindow.axaml.cs:248) comes before `_currentProcess` is cleared, so further orders exist, such as the cancellation entry before the handler's.
- `Dispatcher.UIThread.InvokeAsync` and the widgets. The log is a sequence of entries and the progress bar a sequence of values written to it. `AppendLog`'s text box and caret are not modelled.
- ParseProgressPercentage: the value is the matched decimal text (whole and fraction digits), not a `double`. The culture-dependent `double.TryParse` is not modelled. The application starts in "de" (Services/SettingsService.cs:17, 57-62), and under that culture "." is the group separator, so "42.3" parses to 423: the bar gets 423 where the model holds the text 42.3.
- `\d`: taken as the ASCII digits only. .NET's `\d` also matches other Unicode decimal digits.
- Process launch, `Kill`, stream reading, `WaitForExit(3000)` and its timeout are parameters. A probe is a `CommandOutcome` and a run is a `ProcessScript`. `File.Exists`, `Environment.GetFolderPath` and `AppDomain.CurrentDomain.BaseDirectory` are parameters too.
- The exit code of the download process: the code never reads it, so the model does not hold one.
- The "Error" status branch (MainWindow.axaml.cs:151-155): it cannot be reached, because `RunMediaDownloader` catches every exception.
- The `Console.WriteLine` fallbacks for controls the window cannot find: the model's window always has its controls.
- `ApplyLanguage` (Services/SettingsService.cs:57-62): it sets the thread culture.
- The event-argument classes: each event is its payload in a sequence.
- Program.cs and App.axaml.cs are not part of this model. They start Avalonia and wire the theme.
- DownloadArguments.Mp3OptionsText: states the MP3 options text as its words joined by spaces, not as one literal.
- FFmpegService.FFmpegLocator: `_cachedPath` is static in the source. Here it is a field of one locator object, which is equivalent while there is one locator.
