/**
 * The ffmpeg locator of the services layer (Services/FFmpegService.cs): a
 * chain of five strategies whose answer is cached until the cache is cleared,
 * and the platform flags it consults.
 */
module FFmpegService {
  import opened Wrappers
  import opened DotNet
  import opened ProcessProbe
  import ToolResolution

  /** `System.PlatformID`, the value of `Environment.OSVersion.Platform`. */
  datatype PlatformID = Win32S | Win32Windows | Win32NT | WinCE | Unix | Xbox | MacOSX | Other

  // RuntimeIndicator
  predicate IsWindows(p: PlatformID) { p == Win32NT }
  predicate IsMac(p: PlatformID) { p == MacOSX }
  predicate IsLinux(p: PlatformID) { p == Unix }

  /** At most one of the three flags holds on any platform, and none on the legacy ones. */
  lemma PlatformFlagsExclusive(p: PlatformID)
    ensures !(IsWindows(p) && IsMac(p)) && !(IsWindows(p) && IsLinux(p)) && !(IsMac(p) && IsLinux(p))
    ensures p in {Win32S, Win32Windows, WinCE, Xbox, Other} ==> !IsWindows(p) && !IsMac(p) && !IsLinux(p)
  {
  }

  /** The shell command line `TryCommand` starts: the program and its arguments. */
  datatype ShellCommand = ShellCommand(fileName: string, arguments: string)

  function ShellFor(platform: PlatformID, command: string): (c: ShellCommand)
    ensures IsWindows(platform) <==> c.fileName == "cmd.exe"
  {
    if IsWindows(platform) then ShellCommand("cmd.exe", "/c " + command)
    else ShellCommand("/bin/bash", "-c \"" + command + "\"")
  }

  /**
   * `TryCommand`'s result rule: the trimmed standard output when the command
   * exited with code 0; nothing when the process could not be started, when
   * it exited otherwise, or when anything threw.
   */
  function TryCommand(outcome: CommandOutcome): (r: Option<string>)
    ensures r.Some? <==> ExitedWithZero(outcome)
    ensures r.Some? ==> r.value == Trim(outcome.standardOutput)
    ensures r.Some? ==> r.value == "" || (!IsWhiteSpace(r.value[0]) && !IsWhiteSpace(r.value[|r.value| - 1]))
  {
    if ExitedWithZero(outcome) then Some(Trim(outcome.standardOutput)) else None
  }

  /**
   * What `FindFFmpeg` can observe: the platform, the outcome of each shell
   * command line, `File.Exists`, the application's base directory and the
   * local application data folder.
   */
  datatype Environment = Environment(
    platform: PlatformID,
    run: ShellCommand -> CommandOutcome,
    fileExists: string -> bool,
    baseDirectory: string,
    localApplicationData: string)

  /** `Path.DirectorySeparatorChar`. */
  function Separator(platform: PlatformID): char {
    if IsWindows(platform) then '\\' else '/'
  }

  /** Strategy 1: the answer of `which ffmpeg`. */
  function WhichPath(env: Environment): (r: Option<string>)
    ensures r.Some? <==> ExitedWithZero(env.run(ShellFor(env.platform, "which ffmpeg")))
    ensures r.Some? ==> r.value == Trim(env.run(ShellFor(env.platform, "which ffmpeg")).standardOutput)
  {
    TryCommand(env.run(ShellFor(env.platform, "which ffmpeg")))
  }

  /** Strategy 2: the first line of the answer of `where ffmpeg`, trimmed again. */
  function WherePath(env: Environment): (r: Option<string>)
    ensures r.Some? <==> ExitedWithZero(env.run(ShellFor(env.platform, "where ffmpeg")))
    ensures r.Some? ==> r.value == Trim(FirstLine(Trim(env.run(ShellFor(env.platform, "where ffmpeg")).standardOutput)))
    ensures r.Some? ==> '\n' !in r.value
  {
    match TryCommand(env.run(ShellFor(env.platform, "where ffmpeg")))
    case None => None
    case Some(output) => Some(Trim(FirstLine(output)))
  }

  /** Strategy 3: `<base directory>/Tools/ffmpeg/ffmpeg[.exe]`. */
  function BundledPath(env: Environment): (path: string)
    ensures var name := if IsWindows(env.platform) then "ffmpeg.exe" else "ffmpeg";
      |name| <= |path| && path[|path| - |name|..] == name
  {
    var name := if IsWindows(env.platform) then "ffmpeg.exe" else "ffmpeg";
    CombinePathEndsWithLastPart([env.baseDirectory, "Tools", "ffmpeg", name], Separator(env.platform));
    CombinePath([env.baseDirectory, "Tools", "ffmpeg", name], Separator(env.platform))
  }

  /** Strategy 4 (Windows only): the common installation paths, in order. */
  function CommonPaths(env: Environment): (paths: seq<string>)
    ensures |paths| == 3
  {
    [ "C:\\ffmpeg\\bin\\ffmpeg.exe",
      "C:\\Program Files\\ffmpeg\\bin\\ffmpeg.exe",
      CombinePath([env.localApplicationData, "Programs", "ffmpeg", "bin", "ffmpeg.exe"], Separator(env.platform)) ]
  }

  /** A strategy's answer is taken when it is a non-empty name of an existing file. */
  predicate Accepted(answer: Option<string>, env: Environment)
    ensures Accepted(answer, env) <==> answer.Some? && answer.value != "" && env.fileExists(answer.value)
  {
    !IsNullOrEmpty(answer) && env.fileExists(answer.value)
  }

  /** The value of the strategy chain, the last fallback being the bare name `ffmpeg`. */
  function ResolveFFmpeg(env: Environment): (path: string)
    ensures path != ""
    ensures path == "ffmpeg" || env.fileExists(path)
  {
    if Accepted(WhichPath(env), env) then WhichPath(env).value
    else if Accepted(WherePath(env), env) then WherePath(env).value
    else if env.fileExists(BundledPath(env)) then BundledPath(env)
    else if !IsWindows(env.platform) then "ffmpeg"
    else match ToolResolution.FirstAccepted(CommonPaths(env), env.fileExists)
      case Some(i) => CommonPaths(env)[i]
      case None => "ffmpeg"
  }

  /** Off Windows the common installation paths are never the answer. */
  lemma CommonPathsOnlyOnWindows(env: Environment)
    requires !IsWindows(env.platform)
    ensures ResolveFFmpeg(env) in {"ffmpeg", BundledPath(env)}
            || (WhichPath(env).Some? && ResolveFFmpeg(env) == WhichPath(env).value)
            || (WherePath(env).Some? && ResolveFFmpeg(env) == WherePath(env).value)
  {
  }

  /**
   * An accepted earlier strategy hides every later one; on Windows the common
   * paths are searched to the first one that exists; "ffmpeg" is the answer
   * exactly when nothing else is.
   */
  lemma StrategyPriority(env: Environment)
    ensures Accepted(WhichPath(env), env) ==> ResolveFFmpeg(env) == WhichPath(env).value
    ensures !Accepted(WhichPath(env), env) && Accepted(WherePath(env), env) ==> ResolveFFmpeg(env) == WherePath(env).value
    ensures !Accepted(WhichPath(env), env) && !Accepted(WherePath(env), env) && env.fileExists(BundledPath(env))
            ==> ResolveFFmpeg(env) == BundledPath(env)
    ensures !Accepted(WhichPath(env), env) && !Accepted(WherePath(env), env) && !env.fileExists(BundledPath(env))
            && !IsWindows(env.platform)
            ==> ResolveFFmpeg(env) == "ffmpeg"
    ensures !Accepted(WhichPath(env), env) && !Accepted(WherePath(env), env) && !env.fileExists(BundledPath(env))
            && IsWindows(env.platform)
            ==> forall i :: 0 <= i < |CommonPaths(env)| && env.fileExists(CommonPaths(env)[i])
                            && (forall j :: 0 <= j < i ==> !env.fileExists(CommonPaths(env)[j]))
                            ==> ResolveFFmpeg(env) == CommonPaths(env)[i]
    ensures !Accepted(WhichPath(env), env) && !Accepted(WherePath(env), env) && !env.fileExists(BundledPath(env))
            && IsWindows(env.platform) && (forall i :: 0 <= i < |CommonPaths(env)| ==> !env.fileExists(CommonPaths(env)[i]))
            ==> ResolveFFmpeg(env) == "ffmpeg"
  {
    var paths := CommonPaths(env);
    if !Accepted(WhichPath(env), env) && !Accepted(WherePath(env), env) && !env.fileExists(BundledPath(env))
       && IsWindows(env.platform)
    {
      match ToolResolution.FirstAccepted(paths, env.fileExists)
      case None =>
      case Some(k) =>
        forall i | 0 <= i < |paths| && env.fileExists(paths[i]) && (forall j :: 0 <= j < i ==> !env.fileExists(paths[j]))
          ensures ResolveFFmpeg(env) == paths[i]
        {
          assert i == k;
        }
    }
  }

  /**
   * The static class with its `_cachedPath` field; `None` is a null cache.
   */
  class FFmpegLocator {
    var cachedPath: Option<string>

    constructor()
      ensures cachedPath == None
    {
      cachedPath := None;
    }

    /**
     * `FindFFmpeg`: a cached answer is returned as it is; otherwise the
     * strategies run in order and every exit caches what it returns.
     */
    method FindFFmpeg(env: Environment) returns (path: string)
      modifies this
      ensures old(cachedPath).Some? ==> path == old(cachedPath).value
      ensures old(cachedPath).None? ==> path == ResolveFFmpeg(env)
      ensures cachedPath == Some(path)
    {
      if cachedPath.Some? {
        return cachedPath.value;
      }
      assert ResolveFFmpeg(env)
          == (if Accepted(WhichPath(env), env) then WhichPath(env).value
              else if Accepted(WherePath(env), env) then WherePath(env).value
              else if env.fileExists(BundledPath(env)) then BundledPath(env)
              else if !IsWindows(env.platform) then "ffmpeg"
              else match ToolResolution.FirstAccepted(CommonPaths(env), env.fileExists)
                case Some(i) => CommonPaths(env)[i]
                case None => "ffmpeg");
      var whichPath := WhichPath(env);
      if !IsNullOrEmpty(whichPath) && env.fileExists(whichPath.value) {
        cachedPath := whichPath;
        return cachedPath.value;
      }
      var wherePath := WherePath(env);
      if !IsNullOrEmpty(wherePath) && env.fileExists(wherePath.value) {
        cachedPath := wherePath;
        return cachedPath.value;
      }
      var bundledPath := BundledPath(env);
      if env.fileExists(bundledPath) {
        cachedPath := Some(bundledPath);
        return cachedPath.value;
      }
      if IsWindows(env.platform) {
        var commonPaths := CommonPaths(env);
        for i := 0 to |commonPaths|
          invariant forall j :: 0 <= j < i ==> !env.fileExists(commonPaths[j])
        {
          if env.fileExists(commonPaths[i]) {
            cachedPath := Some(commonPaths[i]);
            return cachedPath.value;
          }
        }
      }
      cachedPath := Some("ffmpeg");
      return cachedPath.value;
    }

    /** `ClearCache`: the next search runs the strategies again. */
    method ClearCache()
      modifies this
      ensures cachedPath == None
    {
      cachedPath := None;
    }
  }

  /**
   * Two searches in a row give the same answer even when the machine changed
   * in between, and after ClearCache a search answers for the machine as it
   * is then.
   */
  method CacheIsWriteOnce(locator: FFmpegLocator, first: Environment, second: Environment)
    returns (a: string, b: string, c: string)
    modifies locator
    ensures a == b
    ensures old(locator.cachedPath).None? ==> a == ResolveFFmpeg(first)
    ensures c == ResolveFFmpeg(second)
  {
    a := locator.FindFFmpeg(first);
    b := locator.FindFFmpeg(second);
    locator.ClearCache();
    c := locator.FindFFmpeg(second);
  }
}
