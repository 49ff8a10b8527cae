/**
 * The strings the download button builds before it starts the downloader
 * (MainWindow.axaml.cs:135-138 and 168-172): the format, the output path
 * template and the downloader's command line.
 */
module DownloadArguments {
  import opened Wrappers

  /** yt-dlp's format selector for an MP4 video with M4A audio. */
  const Mp4FormatSelector := "bestvideo[ext=mp4]+bestaudio[ext=m4a]/best[ext=mp4]"

  /** yt-dlp's output template; the placeholders are expanded by the downloader, not here. */
  const TitleTemplate := "%(title)s.%(ext)s"

  function Quote(s: string): string {
    "\"" + s + "\""
  }

  /** `mp4RadioButton.IsChecked ?? false ? "mp4" : "mp3"`; `None` is an indeterminate radio button. */
  function FormatFor(isChecked: Option<bool>): (format: string)
    ensures format == "mp4" <==> isChecked == Some(true)
    ensures format != "mp4" ==> format == "mp3"
  {
    if isChecked.GetOr(false) then "mp4" else "mp3"
  }

  /** `<profile>\Downloads`. */
  function DownloadsPath(userProfile: string): string {
    userProfile + "\\Downloads"
  }

  /**
   * The output path. The source spells out one branch per format; both give
   * the Downloads folder followed by the template, unexpanded.
   */
  function OutputPath(userProfile: string, isMp4: bool): (path: string)
    ensures path == userProfile + "\\Downloads\\" + TitleTemplate
  {
    if isMp4 then DownloadsPath(userProfile) + "\\%(title)s.%(ext)s"
    else DownloadsPath(userProfile) + "\\%(title)s.%(ext)s"
  }

  /**
   * The format-specific options: a format selector after `-f`, and the MP3
   * extraction options exactly when the format is not `mp4`.
   */
  function FormatOptions(format: string): (options: seq<string>)
    ensures |options| >= 2 && options[0] == "-f"
    ensures "--extract-audio" in options <==> format != "mp4"
  {
    if format == "mp4" then ["-f", Quote(Mp4FormatSelector)]
    else ["-f", "bestaudio", "--extract-audio", "--audio-format", "mp3", "--audio-quality", "0"]
  }

  /**
   * The downloader's arguments word by word: the ffmpeg location, the format
   * options, the url, the output path and `--newline`.
   */
  function ArgumentWords(format: string, url: string, ffmpegPath: string, outputPath: string): (words: seq<string>)
    ensures |words| >= 8
    ensures words[..2] == ["--ffmpeg-location", Quote(ffmpegPath)]
    ensures words[2..|words| - 4] == FormatOptions(format)
    ensures words[|words| - 4..] == [Quote(url), "-o", Quote(outputPath), "--newline"]
  {
    ["--ffmpeg-location", Quote(ffmpegPath)] + FormatOptions(format) + [Quote(url), "-o", Quote(outputPath), "--newline"]
  }

  /** Words separated by single spaces. */
  function JoinWords(words: seq<string>): string {
    if words == [] then ""
    else if |words| == 1 then words[0]
    else words[0] + " " + JoinWords(words[1..])
  }

  /**
   * The argument string of the downloader (MainWindow.axaml.cs:168-170): the
   * words of ArgumentWords joined by single spaces. Whatever the format, it
   * starts with the quoted ffmpeg location and ends with the quoted url, the
   * quoted output path and `--newline`; in between stand the options of the
   * format.
   */
  function BuildArguments(format: string, url: string, ffmpegPath: string, outputPath: string): (arguments: string)
    ensures arguments
         == "--ffmpeg-location" + " " + Quote(ffmpegPath) + " " + JoinWords(FormatOptions(format)) + " "
            + (Quote(url) + " " + ("-o" + " " + (Quote(outputPath) + " " + "--newline")))
  {
    var head := ["--ffmpeg-location", Quote(ffmpegPath)];
    var options := FormatOptions(format);
    var tail := [Quote(url), "-o", Quote(outputPath), "--newline"];
    assert ArgumentWords(format, url, ffmpegPath, outputPath) == head + options + tail;
    JoinWordsAppend(head + options, tail);
    JoinWordsAppend(head, options);
    JoinWordsCons("--ffmpeg-location", [Quote(ffmpegPath)]);
    JoinWordsCons(Quote(url), tail[1..]);
    JoinWordsCons("-o", tail[2..]);
    JoinWordsCons(Quote(outputPath), tail[3..]);
    assert tail == [Quote(url)] + tail[1..] && tail[1..] == ["-o"] + tail[2..] && tail[2..] == [Quote(outputPath)] + tail[3..];
    JoinWords(ArgumentWords(format, url, ffmpegPath, outputPath))
  }

  /** What the first log line of a run says before the command (MainWindow.axaml.cs:172). */
  const ExecutingCommand := "Executing command: "

  lemma JoinWordsCons(word: string, rest: seq<string>)
    requires rest != []
    ensures JoinWords([word] + rest) == word + " " + JoinWords(rest)
  {
    assert ([word] + rest)[1..] == rest;
  }

  /** Joining two word lists is joining their joins with one space. */
  lemma {:induction false} JoinWordsAppend(a: seq<string>, b: seq<string>)
    requires a != [] && b != []
    ensures JoinWords(a + b) == JoinWords(a) + " " + JoinWords(b)
  {
    if |a| == 1 {
      assert (a + b)[1..] == b;
    } else {
      assert (a + b)[1..] == a[1..] + b;
      JoinWordsAppend(a[1..], b);
    }
  }

  /** For `mp4` the options are `-f` and the quoted MP4 selector. */
  lemma Mp4OptionsText()
    ensures JoinWords(FormatOptions("mp4"))
         == "-f" + " " + ("\"" + "bestvideo[ext=mp4]+bestaudio[ext=m4a]/best[ext=mp4]" + "\"")
  {
    JoinWordsCons("-f", [Quote(Mp4FormatSelector)]);
  }

  /** For any other format the options are the MP3 extraction options, separated by single spaces. */
  lemma Mp3OptionsText(format: string)
    requires format != "mp4"
    ensures JoinWords(FormatOptions(format))
         == "-f" + " " + ("bestaudio" + " " + ("--extract-audio" + " " + ("--audio-format" + " " + ("mp3" + " "
            + ("--audio-quality" + " " + "0")))))
  {
    var options := FormatOptions(format);
    JoinWordsCons("-f", options[1..]);
    JoinWordsCons("bestaudio", options[2..]);
    JoinWordsCons("--extract-audio", options[3..]);
    JoinWordsCons("--audio-format", options[4..]);
    JoinWordsCons("mp3", options[5..]);
    JoinWordsCons("--audio-quality", options[6..]);
  }
}
