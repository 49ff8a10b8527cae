/**
 * The two executable resolvers of the main window (MainWindow.axaml.cs:319-458):
 * each tries a fixed list of candidates in order, takes the first that passes
 * its probe and falls back to a bare program name. Probe outcomes, the file
 * system and the special folders are inputs of the model.
 */
module ToolResolution {
  import opened Wrappers
  import opened DotNet
  import opened ProcessProbe

  /** The index of the first candidate that `accept` takes, if any. */
  function FirstAccepted<T>(candidates: seq<T>, accept: T -> bool): (r: Option<nat>)
    ensures r.Some? ==> r.value < |candidates| && accept(candidates[r.value])
    ensures r.Some? ==> forall j :: 0 <= j < r.value ==> !accept(candidates[j])
    ensures r.None? <==> forall j :: 0 <= j < |candidates| ==> !accept(candidates[j])
  {
    if candidates == [] then None
    else if accept(candidates[0]) then Some(0)
    else match FirstAccepted(candidates[1..], accept)
      case None => None
      case Some(i) => Some(i + 1)
  }

  // ---------------------------------------------------------------- tool name

  /** The downloader names tried with `--version`, in order. */
  const ToolNames: seq<string> := ["yt-dlp", "youtube-dl", "media-downloader"]

  /** The name used when no probe succeeds. */
  const DefaultToolName := "yt-dlp"

  /**
   * The downloader to run: the first of ToolNames whose `--version` probe
   * exited with code 0, or `yt-dlp`.
   */
  function ResolveToolName(versionProbe: string -> CommandOutcome): (name: string)
    ensures name in ToolNames
    ensures ExitedWithZero(versionProbe(name))
            || (name == DefaultToolName && forall n <- ToolNames :: !ExitedWithZero(versionProbe(n)))
  {
    match FirstAccepted(ToolNames, n => ExitedWithZero(versionProbe(n)))
    case None => DefaultToolName
    case Some(i) => ToolNames[i]
  }

  /** A name is chosen exactly when its probe succeeds and every earlier probe failed. */
  lemma ToolNameIsFirstSuccess(versionProbe: string -> CommandOutcome, i: nat)
    requires i < |ToolNames|
    ensures ResolveToolName(versionProbe) == ToolNames[i]
        <==> ((ExitedWithZero(versionProbe(ToolNames[i])) && forall j :: 0 <= j < i ==> !ExitedWithZero(versionProbe(ToolNames[j])))
              || (i == 0 && forall n <- ToolNames :: !ExitedWithZero(versionProbe(n))))
  {
    var accept := n => ExitedWithZero(versionProbe(n));
    assert ToolNames[0] == "yt-dlp" && ToolNames[1] == "youtube-dl" && ToolNames[2] == "media-downloader";
    match FirstAccepted(ToolNames, accept)
    case None =>
    case Some(k) =>
      if ResolveToolName(versionProbe) == ToolNames[i] {
        assert k == i;
      }
  }

  /** `GetMediaDownloaderToolName`: probes the names in order; a probe that throws counts as a failure. */
  method GetMediaDownloaderToolName(versionProbe: string -> CommandOutcome) returns (name: string)
    ensures name == ResolveToolName(versionProbe)
  {
    for i := 0 to |ToolNames|
      invariant forall j :: 0 <= j < i ==> !ExitedWithZero(versionProbe(ToolNames[j]))
    {
      if ExitedWithZero(versionProbe(ToolNames[i])) {
        return ToolNames[i];
      }
    }
    return DefaultToolName;
  }

  // ---------------------------------------------------------------- ffmpeg path

  /**
   * What `GetFFmpegPath` can observe of the machine: the outcome of the python
   * `imageio_ffmpeg` query, the outcome of `ffmpeg -version`, `File.Exists`,
   * the two special folders and `Path.DirectorySeparatorChar`.
   */
  datatype Machine = Machine(
    pythonQuery: CommandOutcome,
    ffmpegVersion: CommandOutcome,
    fileExists: string -> bool,
    localApplicationData: string,
    userProfile: string,
    separator: char)

  /** The python query's answer: its trimmed output, when it exited with code 0. */
  function PythonAnswer(query: CommandOutcome): (r: Option<string>)
    ensures r.Some? <==> ExitedWithZero(query)
    ensures r.Some? ==> r.value == Trim(query.standardOutput)
  {
    if ExitedWithZero(query) then Some(Trim(query.standardOutput)) else None
  }

  /** The python answer is used when it is a non-empty name of an existing file. */
  predicate PythonAccepted(m: Machine)
    ensures PythonAccepted(m) <==>
      && ExitedWithZero(m.pythonQuery)
      && Trim(m.pythonQuery.standardOutput) != ""
      && m.fileExists(Trim(m.pythonQuery.standardOutput))
  {
    var answer := PythonAnswer(m.pythonQuery);
    !IsNullOrEmpty(answer) && m.fileExists(answer.value)
  }

  /** The binary `imageio_ffmpeg` installs under one python version's site packages. */
  function ImageioPath(m: Machine, pythonVersion: string): (path: string)
    ensures |ImageioBinary| <= |path| && path[|path| - |ImageioBinary|..] == ImageioBinary
  {
    var parts := [m.localApplicationData, "Programs", "Python", pythonVersion, "Lib", "site-packages",
                  "imageio_ffmpeg", "binaries", ImageioBinary];
    CombinePathEndsWithLastPart(parts, m.separator);
    CombinePath(parts, m.separator)
  }

  const ImageioBinary := "ffmpeg-win-x86_64-v7.1.exe"

  /** The fixed installation paths, in the order they are tried. */
  function FixedPaths(m: Machine): (paths: seq<string>)
    ensures |paths| == 9
    ensures forall p <- paths :: p != ""
  {
    var scoop := ["scoop", "apps", "ffmpeg", "current", "bin", "ffmpeg.exe"];
    CombinePathEndsWithLastPart([m.userProfile] + scoop, m.separator);
    [ ImageioPath(m, "Python313"), ImageioPath(m, "Python312"), ImageioPath(m, "Python311"), ImageioPath(m, "Python310"),
      "C:\\ffmpeg\\bin\\ffmpeg.exe",
      "C:\\Program Files\\ffmpeg\\bin\\ffmpeg.exe",
      "C:\\Program Files (x86)\\ffmpeg\\bin\\ffmpeg.exe",
      "C:\\ProgramData\\chocolatey\\bin\\ffmpeg.exe",
      CombinePath([m.userProfile] + scoop, m.separator) ]
  }

  /**
   * The ffmpeg location handed to the downloader: the python answer, else
   * `ffmpeg` when it runs from PATH, else the first existing fixed path, else
   * `ffmpeg`. Whatever is chosen is never empty, and it is either the bare
   * name or a path that exists.
   */
  function ResolveFFmpegPath(m: Machine): (path: string)
    ensures path != ""
    ensures path == "ffmpeg" || m.fileExists(path)
  {
    if PythonAccepted(m) then PythonAnswer(m.pythonQuery).value
    else if ExitedWithZero(m.ffmpegVersion) then "ffmpeg"
    else match FirstAccepted(FixedPaths(m), m.fileExists)
      case Some(i) => FixedPaths(m)[i]
      case None => "ffmpeg"
  }

  /**
   * Each strategy is reached only when all the earlier ones failed, and the
   * fixed paths are searched to the first one that exists.
   */
  lemma FFmpegPathStrategyOrder(m: Machine)
    ensures PythonAccepted(m) ==> ResolveFFmpegPath(m) == Trim(m.pythonQuery.standardOutput)
    ensures !PythonAccepted(m) && ExitedWithZero(m.ffmpegVersion) ==> ResolveFFmpegPath(m) == "ffmpeg"
    ensures !PythonAccepted(m) && !ExitedWithZero(m.ffmpegVersion) ==>
      forall i :: 0 <= i < |FixedPaths(m)| && m.fileExists(FixedPaths(m)[i])
                  && (forall j :: 0 <= j < i ==> !m.fileExists(FixedPaths(m)[j]))
                  ==> ResolveFFmpegPath(m) == FixedPaths(m)[i]
    ensures !PythonAccepted(m) && !ExitedWithZero(m.ffmpegVersion)
            && (forall i :: 0 <= i < |FixedPaths(m)| ==> !m.fileExists(FixedPaths(m)[i]))
            ==> ResolveFFmpegPath(m) == "ffmpeg"
    ensures !PythonAccepted(m) && !ExitedWithZero(m.ffmpegVersion) && ResolveFFmpegPath(m) != "ffmpeg" ==>
      exists i :: 0 <= i < |FixedPaths(m)| && ResolveFFmpegPath(m) == FixedPaths(m)[i]
               && forall j :: 0 <= j < i ==> !m.fileExists(FixedPaths(m)[j])
  {
    var paths := FixedPaths(m);
    if !PythonAccepted(m) && !ExitedWithZero(m.ffmpegVersion) {
      match FirstAccepted(paths, m.fileExists)
      case None =>
      case Some(k) =>
        forall i | 0 <= i < |paths| && m.fileExists(paths[i]) && (forall j :: 0 <= j < i ==> !m.fileExists(paths[j]))
          ensures ResolveFFmpegPath(m) == paths[i]
        {
          assert i == k;
        }
    }
  }

  /** `GetFFmpegPath`: the two probes, then a loop over the fixed paths. */
  method GetFFmpegPath(m: Machine) returns (path: string)
    ensures path == ResolveFFmpegPath(m)
  {
    var answer := PythonAnswer(m.pythonQuery);
    if !IsNullOrEmpty(answer) && m.fileExists(answer.value) {
      return answer.value;
    }
    assert !PythonAccepted(m);
    if ExitedWithZero(m.ffmpegVersion) {
      return "ffmpeg";
    }
    FFmpegPathStrategyOrder(m);
    var possiblePaths := FixedPaths(m);
    for i := 0 to |possiblePaths|
      invariant forall j :: 0 <= j < i ==> !m.fileExists(possiblePaths[j])
    {
      if m.fileExists(possiblePaths[i]) {
        return possiblePaths[i];
      }
    }
    return "ffmpeg";
  }
}
