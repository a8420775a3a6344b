/**
 * The tkinter front-end (`m3u8_gui_downloader.py`): a plainer downloader
 * that hands ffmpeg the fetched playlist as it is, with no header block,
 * and reports the whole of stderr on failure; and the window state that
 * guards the start button, parses the URL box and counts a batch.
 */
module GuiDownloader {
  import opened Wrappers
  import opened Text
  import opened Playlist
  import opened Naming
  import opened Headers
  import opened Remux
  import opened Fetch
  import opened Workspace
  import opened Job
  import opened Batch

  const DefaultThreadNum: int := 8
  const DefaultOutputDir: string := "./video_output"
  const DefaultTimeout: int := 60
  const DefaultRetryCount: int := 3

  /** `DEFAULT_HEADERS` of this front-end; they only reach the HTTP session. */
  const DefaultHeaders: Entries := [
    ("Accept", "*/*"),
    ("User-Agent", BrowserAgent)
  ]

  /**
   * How this `process_m3u8` ends: the two early failures run nothing;
   * otherwise ffmpeg runs once, on the playlist exactly as fetched, and its
   * exit status decides the report.
   */
  predicate PlainProcessed(url: string, outputFilename: string, outputDir: string, server: Server, retryCount: int,
                           ffmpeg: Ffmpeg, playlistPath: string, ok: bool, message: string, ran: Option<seq<string>>)
  {
    match Prepare(server, retryCount)
    case NotFetched => !ok && message == NotFetchedMessage(url) && ran == None
    case NotPlaylist => !ok && message == NotPlaylistMessage(url) && ran == None
    case Ready(body) =>
      var argv := PlainFfmpegArgs(playlistPath, PathJoin(outputDir, outputFilename));
      ran == Some(argv) && (ok, message) == PlainReport(ffmpeg(argv, body), outputFilename)
  }

  /**
   * A job succeeds exactly when the playlist was fetched, passed the marker
   * check and ffmpeg exited with 0 on it; a failed run's message ends with
   * the complete stderr.
   */
  lemma PlainProcessedSucceedsIff(url: string, outputFilename: string, outputDir: string, server: Server, retryCount: int,
                                  ffmpeg: Ffmpeg, playlistPath: string, ok: bool, message: string, ran: Option<seq<string>>)
    requires PlainProcessed(url, outputFilename, outputDir, server, retryCount, ffmpeg, playlistPath, ok, message, ran)
    ensures ok <==> Prepare(server, retryCount).Ready? && ran.Some? && ffmpeg(ran.value, Prepare(server, retryCount).body).returnCode == 0
    ensures ran.Some? && !ok ==> message == "转换失败: " + ffmpeg(ran.value, Prepare(server, retryCount).body).stderr
  {
    match Prepare(server, retryCount)
    case NotFetched =>
    case NotPlaylist =>
    case Ready(body) =>
      PlainReportKeepsStderr(ffmpeg(ran.value, body), outputFilename);
  }

  /** `M3UDownloader` of the desktop front-end. */
  class Downloader {
    const outputDir: string
    const threadNum: int
    /** Sent with every HTTP request only. */
    const headers: Entries
    var timeout: int
    var retryCount: int

    constructor (outputDir: string, threadNum: int, headers: Entries, timeout: int, retryCount: int)
      ensures this.outputDir == outputDir && this.threadNum == threadNum && this.headers == headers
      ensures this.timeout == timeout && this.retryCount == retryCount
    {
      this.outputDir := outputDir;
      this.threadNum := threadNum;
      this.headers := headers;
      this.timeout := timeout;
      this.retryCount := retryCount;
    }

    /**
     * `process_m3u8`: the outcome is as `PlainProcessed` says, and the
     * temporary directory is gone afterwards on every path, nothing outside
     * it having changed.
     */
    method ProcessM3u8(url: string, outputFilename: string, fs: FileSystem, server: Server, ffmpeg: Ffmpeg, now: int)
      returns (ok: bool, message: string, ran: Option<seq<string>>)
      modifies fs
      ensures PlainProcessed(url, outputFilename, outputDir, server, retryCount, ffmpeg,
                             PlaylistPath(TempDir(outputDir, now)), ok, message, ran)
      ensures fs.dirs == PrunedDirs(old(fs.dirs), TempDir(outputDir, now))
      ensures fs.files == Pruned(old(fs.files), TempDir(outputDir, now))
      ensures !fs.Exists(TempDir(outputDir, now))
    {
      var temp := TempDir(outputDir, now);
      fs.MakeDirs(temp);
      var playlistPath := PlaylistPath(temp);
      ok, message, ran := false, "", None;
      var fetched, _, _, _ := DownloadFile(fs, playlistPath, server, retryCount);
      if !fetched {
        ok, message := false, NotFetchedMessage(url);
      } else if !IsM3u8File(fs.files[playlistPath]) {
        ok, message := false, NotPlaylistMessage(url);
      } else {
        var argv := PlainFfmpegArgs(playlistPath, PathJoin(outputDir, outputFilename));
        ran := Some(argv);
        var result := ffmpeg(argv, fs.files[playlistPath]);
        ok, message := PlainReport(result, outputFilename).0, PlainReport(result, outputFilename).1;
      }
      if fs.Exists(temp) {
        fs.RemoveTree(temp);
      }
      PlaylistInTemp(temp);
      PrunedDirsCreate(old(fs.dirs), temp);
    }

    /** `download_m3u8`: name the output as `Naming.OutputName` does, then process. */
    method DownloadM3u8(url: string, given: Option<string>, fs: FileSystem, server: Server, ffmpeg: Ffmpeg, nameTime: int, now: int)
      returns (ok: bool, message: string, ran: Option<seq<string>>)
      modifies fs
      ensures PlainProcessed(url, OutputName(url, given, nameTime), outputDir, server, retryCount, ffmpeg,
                             PlaylistPath(TempDir(outputDir, now)), ok, message, ran)
      ensures fs.dirs == PrunedDirs(old(fs.dirs), TempDir(outputDir, now))
      ensures fs.files == Pruned(old(fs.files), TempDir(outputDir, now))
    {
      ok, message, ran := ProcessM3u8(url, OutputName(url, given, nameTime), fs, server, ffmpeg, now);
    }
  }

  // ---------------------------------------------------------------------
  // The URL box

  /** The stripped, non-blank lines, in order. */
  function NonBlank(lines: seq<string>): seq<string>
  {
    if lines == [] then []
    else
      var line := lines[|lines| - 1];
      NonBlank(lines[..|lines| - 1]) + (if Blank(line) then [] else [Strip(line)])
  }

  /** `[url.strip() for url in text.split('\n') if url.strip()]`. */
  function UrlList(text: string): seq<string> {
    NonBlank(Split(text, '\n'))
  }

  /** Every URL taken from the box is stripped and not empty. */
  lemma {:induction false} NonBlankStripped(lines: seq<string>)
    ensures forall u :: u in NonBlank(lines) ==> u != [] && Stripped(u)
  {
    if lines != [] {
      var line := lines[|lines| - 1];
      NonBlankStripped(lines[..|lines| - 1]);
      BlankStrip(line);
    }
  }

  /** A line that is not blank yields a URL. */
  lemma {:induction false} NonBlankHas(lines: seq<string>, k: nat)
    requires k < |lines| && !Blank(lines[k])
    ensures NonBlank(lines) != []
  {
    var n := |lines|;
    if k < n - 1 {
      assert lines[..n - 1][k] == lines[k];
      NonBlankHas(lines[..n - 1], k);
    }
  }

  /**
   * The second emptiness check of `start_download` can never fire: a box
   * whose stripped text is not empty always yields at least one URL.
   */
  lemma UrlListNonEmpty(text: string)
    requires Strip(text) != []
    ensures UrlList(Strip(text)) != []
  {
    var s := Strip(text);
    var parts := Split(s, '\n');
    var ch := s[0];
    assert ch in Join(parts, ['\n']);
    JoinChars(parts, ['\n'], ch);
    assert ch !in ['\n'];
    var k :| 0 <= k < |parts| && ch in parts[k];
    NonBlankHas(parts, k);
  }

  // ---------------------------------------------------------------------
  // The window

  /** A message box the window shows. */
  datatype Dialog = NoDialog | WarningBox(text: string) | ErrorBox(text: string) | InfoBox(text: string)

  /** One line of the log box; it is shown as `[time] message`. */
  datatype LogLine = LogLine(time: string, message: string)

  /** How far `start_download` gets. */
  datatype StartStep =
    | Busy
    | NoText
    | NoUrls
    | DirFailed(error: string)
    | NoFfmpeg
    | BadConfig(urls: seq<string>)
    | Go(urls: seq<string>, threadNum: int, timeout: int, retryCount: int)

  /**
   * The checks of `start_download`, in order: a download already running,
   * an empty box, no URL, an output directory that cannot be created, no
   * ffmpeg, settings that are not integers.
   */
  function Start(isDownloading: bool, text: string, dirExists: bool, mkdirError: Option<string>, ffmpegFound: bool,
                 threadText: string, timeoutText: string, retryText: string): StartStep
  {
    var urls := UrlList(Strip(text));
    if isDownloading then Busy
    else if Strip(text) == [] then NoText
    else if urls == [] then NoUrls
    else AfterUrlChecks(urls, dirExists, mkdirError, ffmpegFound, threadText, timeoutText, retryText)
  }

  /** The checks of `start_download` that follow the URL checks, for the URL list `urls`. */
  function AfterUrlChecks(urls: seq<string>, dirExists: bool, mkdirError: Option<string>, ffmpegFound: bool,
                          threadText: string, timeoutText: string, retryText: string): StartStep
  {
    if !dirExists && mkdirError.Some? then DirFailed(mkdirError.value)
    else if !ffmpegFound then NoFfmpeg
    else if ParseInt(threadText).None? || ParseInt(timeoutText).None? || ParseInt(retryText).None? then BadConfig(urls)
    else Go(urls, ParseInt(threadText).value, ParseInt(timeoutText).value, ParseInt(retryText).value)
  }

  /**
   * A start goes ahead only when no download runs, with every non-blank
   * line of the box as a URL, and never stops at the second emptiness
   * check.
   */
  lemma StartGuards(isDownloading: bool, text: string, dirExists: bool, mkdirError: Option<string>, ffmpegFound: bool,
                    threadText: string, timeoutText: string, retryText: string)
    ensures var step := Start(isDownloading, text, dirExists, mkdirError, ffmpegFound, threadText, timeoutText, retryText);
      step != NoUrls
      && (step.Go? ==> !isDownloading && ffmpegFound && step.urls == UrlList(Strip(text)) && step.urls != [])
      && (isDownloading <==> step == Busy)
  {
    if !isDownloading && Strip(text) != [] {
      UrlListNonEmpty(text);
    }
  }

  /** The step got past both checks on the box contents. */
  predicate PastUrlChecks(step: StartStep) {
    !step.Busy? && !step.NoText? && !step.NoUrls?
  }

  /** The message box each step shows. */
  function StartDialog(step: StartStep): Dialog {
    match step
    case Busy => WarningBox("下载正在进行中，请勿重复点击")
    case NoText => ErrorBox("请输入M3U8链接")
    case NoUrls => ErrorBox("请输入有效的M3U8链接")
    case DirFailed(e) => ErrorBox("无法创建输出目录: " + e)
    case NoFfmpeg => ErrorBox("未找到ffmpeg，请先安装ffmpeg")
    case BadConfig(_) => ErrorBox("请输入有效的配置参数")
    case Go(_, _, _, _) => NoDialog
  }

  /** The message of the `ValueError` that `int(s)` raises (quoting of `s` simplified). */
  function IntError(s: string): string {
    "invalid literal for int() with base 10: '" + s + "'"
  }

  /** The log line of one finished job. */
  function CompletionLine(c: Completion): string {
    match c.1
    case Returned(ok, message) => (if ok then "✓ " else "✗ ") + c.0 + " - " + message
    case Raised(e) => "✗ " + c.0 + " - 处理失败: " + e
  }

  /** One log line per finished job, in completion order. */
  function CompletionLines(cs: seq<Completion>): (ls: seq<string>)
    ensures |ls| == |cs| && forall k :: 0 <= k < |cs| ==> ls[k] == CompletionLine(cs[k])
  {
    seq(|cs|, k requires 0 <= k < |cs| => CompletionLine(cs[k]))
  }

  /** The error `download_task` hits when it cannot create the pool, if any. */
  function PoolError(threadText: string): Option<string> {
    match ParseInt(threadText)
    case None => Some(IntError(threadText))
    case Some(n) => if n <= 0 then Some(MaxWorkersError) else None
  }

  /** The summary every batch ends with. */
  function DoneLine(successCount: int, failedCount: int): string {
    "下载完成! 成功: " + IntToString(successCount) + ", 失败: " + IntToString(failedCount)
  }

  /** `M3UGUIApp`: the window state a download reads and changes. */
  class GuiApp {
    var isDownloading: bool
    var startEnabled: bool
    var stopEnabled: bool
    /** Percent shown by the progress bar; exact where the source computes a float. */
    var progress: real
    var progressLabel: string
    var log: seq<LogLine>
    var outputDir: string
    var threadText: string
    var timeoutText: string
    var retryText: string
    var downloader: Downloader?

    constructor ()
      ensures !isDownloading && startEnabled && !stopEnabled && progress == 0.0 && progressLabel == "准备就绪"
      ensures log == [] && outputDir == DefaultOutputDir && downloader == null
      ensures threadText == "8" && timeoutText == "60" && retryText == "3"
    {
      isDownloading := false;
      startEnabled := true;
      stopEnabled := false;
      progress := 0.0;
      progressLabel := "准备就绪";
      log := [];
      outputDir := DefaultOutputDir;
      threadText := "8";
      timeoutText := "60";
      retryText := "3";
      downloader := null;
    }

    /** `add_log`: one more line at the end of the log box. */
    method AddLog(message: string, time: string)
      modifies this`log
      ensures log == old(log) + [LogLine(time, message)]
    {
      log := log + [LogLine(time, message)];
    }

    /** `reset_state`: not downloading, start enabled, stop disabled, progress back to 0. */
    method ResetState()
      modifies this`isDownloading, this`startEnabled, this`stopEnabled, this`progress, this`progressLabel
      ensures !isDownloading && startEnabled && !stopEnabled && progress == 0.0 && progressLabel == "准备就绪"
    {
      isDownloading := false;
      startEnabled := true;
      stopEnabled := false;
      UpdateProgress(0.0, "准备就绪");
    }

    /** `update_progress`: the bar's value and the label under it. */
    method UpdateProgress(value: real, status: string)
      modifies this`progress, this`progressLabel
      ensures progress == value && progressLabel == status
    {
      progress := value;
      progressLabel := status;
    }

    /**
     * `start_download` on the box contents `text`: the step `Start`
     * computes decides the message box, the output directory is created
     * when missing once the URL checks pass, and only `Go` leaves the
     * window downloading with a fresh downloader configured as typed.
     */
    method StartDownload(text: string, fs: FileSystem, mkdirError: Option<string>, ffmpegFound: bool, time: string)
      returns (dialog: Dialog, step: StartStep)
      modifies this`isDownloading, this`startEnabled, this`stopEnabled, this`progress, this`progressLabel,
               this`log, this`downloader, fs
      ensures step == Start(old(isDownloading), text, old(fs.Exists(outputDir)), mkdirError, ffmpegFound,
                            threadText, timeoutText, retryText)
      ensures dialog == StartDialog(step)
      ensures fs.files == old(fs.files)
      ensures fs.dirs == if PastUrlChecks(step) && !old(fs.Exists(outputDir)) && mkdirError.None?
                         then old(fs.dirs) + {outputDir} else old(fs.dirs)
      ensures !step.Go? && !step.BadConfig? ==>
        isDownloading == old(isDownloading) && startEnabled == old(startEnabled) && stopEnabled == old(stopEnabled)
        && progress == old(progress) && progressLabel == old(progressLabel) && log == old(log) && downloader == old(downloader)
      ensures step.BadConfig? ==>
        !isDownloading && startEnabled && !stopEnabled && progress == 0.0 && progressLabel == "准备就绪"
        && log == old(log) + [LogLine(time, "开始下载...")] && downloader == old(downloader)
      ensures step.Go? ==>
        isDownloading && !startEnabled && stopEnabled && progress == 0.0
        && progressLabel == "准备下载 " + IntToString(|step.urls|) + " 个视频"
        && log == old(log) + [LogLine(time, "开始下载...")]
        && downloader != null && fresh(downloader) && downloader.outputDir == outputDir
        && downloader.threadNum == step.threadNum && downloader.timeout == step.timeout
        && downloader.retryCount == step.retryCount && downloader.headers == DefaultHeaders
    {
      step := Start(isDownloading, text, fs.Exists(outputDir), mkdirError, ffmpegFound, threadText, timeoutText, retryText);
      dialog := StartDialog(step);
      if PastUrlChecks(step) {
        Proceed(UrlList(Strip(text)), step, fs, mkdirError, ffmpegFound, time);
      }
    }

    /**
     * `start_download` once the URL checks pass: create the output
     * directory, check for ffmpeg, then launch with the settings.
     */
    method Proceed(urls: seq<string>, step: StartStep, fs: FileSystem, mkdirError: Option<string>, ffmpegFound: bool,
                   time: string)
      requires step == AfterUrlChecks(urls, fs.Exists(outputDir), mkdirError, ffmpegFound, threadText, timeoutText, retryText)
      modifies this`isDownloading, this`startEnabled, this`stopEnabled, this`progress, this`progressLabel,
               this`log, this`downloader, fs
      ensures fs.files == old(fs.files)
      ensures fs.dirs == if !old(fs.Exists(outputDir)) && mkdirError.None? then old(fs.dirs) + {outputDir} else old(fs.dirs)
      ensures !step.Go? && !step.BadConfig? ==>
        isDownloading == old(isDownloading) && startEnabled == old(startEnabled) && stopEnabled == old(stopEnabled)
        && progress == old(progress) && progressLabel == old(progressLabel) && log == old(log) && downloader == old(downloader)
      ensures step.BadConfig? ==>
        !isDownloading && startEnabled && !stopEnabled && progress == 0.0 && progressLabel == "准备就绪"
        && log == old(log) + [LogLine(time, "开始下载...")] && downloader == old(downloader)
      ensures step.Go? ==>
        isDownloading && !startEnabled && stopEnabled && progress == 0.0
        && progressLabel == "准备下载 " + IntToString(|step.urls|) + " 个视频"
        && log == old(log) + [LogLine(time, "开始下载...")]
        && downloader != null && fresh(downloader) && downloader.outputDir == outputDir
        && downloader.threadNum == step.threadNum && downloader.timeout == step.timeout
        && downloader.retryCount == step.retryCount && downloader.headers == DefaultHeaders
    {
      var dirReady := EnsureOutputDir(fs, mkdirError);
      if dirReady && ffmpegFound {
        Launch(urls, ParseInt(threadText), ParseInt(timeoutText), ParseInt(retryText), time);
      }
    }

    /** Create the output directory when it is missing; `false` when that fails. */
    method EnsureOutputDir(fs: FileSystem, mkdirError: Option<string>) returns (ready: bool)
      modifies fs
      ensures ready <==> old(fs.Exists(outputDir)) || mkdirError.None?
      ensures fs.files == old(fs.files)
      ensures fs.dirs == if !old(fs.Exists(outputDir)) && mkdirError.None? then old(fs.dirs) + {outputDir} else old(fs.dirs)
    {
      if !fs.Exists(outputDir) {
        if mkdirError.Some? {
          return false;
        }
        fs.MakeDirs(outputDir);
      }
      return true;
    }

    /**
     * The part of `start_download` after every check on the input: mark
     * the window busy, then read the settings; a setting that is not an
     * integer resets the window, otherwise a new downloader is configured.
     */
    method Launch(urls: seq<string>, threadNum: Option<int>, timeout: Option<int>, retryCount: Option<int>, time: string)
      modifies this`isDownloading, this`startEnabled, this`stopEnabled, this`progress, this`progressLabel,
               this`log, this`downloader
      ensures threadNum.None? || timeout.None? || retryCount.None? ==>
        !isDownloading && startEnabled && !stopEnabled && progress == 0.0 && progressLabel == "准备就绪"
        && log == old(log) + [LogLine(time, "开始下载...")] && downloader == old(downloader)
      ensures threadNum.Some? && timeout.Some? && retryCount.Some? ==>
        isDownloading && !startEnabled && stopEnabled && progress == 0.0
        && progressLabel == "准备下载 " + IntToString(|urls|) + " 个视频"
        && log == old(log) + [LogLine(time, "开始下载...")]
        && downloader != null && fresh(downloader) && downloader.outputDir == outputDir
        && downloader.threadNum == threadNum.value && downloader.timeout == timeout.value
        && downloader.retryCount == retryCount.value && downloader.headers == DefaultHeaders
    {
      isDownloading := true;
      startEnabled := false;
      stopEnabled := true;
      UpdateProgress(0.0, "准备下载 " + IntToString(|urls|) + " 个视频");
      AddLog("开始下载...", time);
      if threadNum.None? || timeout.None? || retryCount.None? {
        ResetState();
        return;
      }
      var d := new Downloader(outputDir, threadNum.value, DefaultHeaders, DefaultTimeout, DefaultRetryCount);
      d.timeout := timeout.value;
      d.retryCount := retryCount.value;
      downloader := d;
    }

    /**
     * `download_task`: the pool is sized by the thread box as it reads now;
     * every completion is logged and counted (an exception as a failure);
     * the window is reset and the summary logged and shown however the
     * batch ended.
     */
    method DownloadTask(urls: seq<string>, completions: seq<Completion>, time: string)
      returns (successCount: nat, failedCount: nat, dialog: Dialog)
      requires CompletesAll(completions, urls)
      modifies this`isDownloading, this`startEnabled, this`stopEnabled, this`progress, this`progressLabel, this`log
      ensures !isDownloading && startEnabled && !stopEnabled && progress == 0.0 && progressLabel == "准备就绪"
      ensures PoolError(threadText).Some? ==> (successCount == 0 && failedCount == 0
        && log == old(log) + [LogLine(time, "下载过程中发生错误: " + PoolError(threadText).value), LogLine(time, DoneLine(0, 0))])
      ensures PoolError(threadText).None? ==>
        successCount == Successes(completions) && failedCount == Failures(completions)
        && successCount + failedCount == |urls|
        && log == old(log) + Stamped(CompletionLines(completions), time) + [LogLine(time, DoneLine(successCount, failedCount))]
      ensures dialog == InfoBox("下载完成!\n成功: " + IntToString(successCount) + "\n失败: " + IntToString(failedCount))
    {
      successCount, failedCount := RunPool(urls, completions, time);
      ResetState();
      ghost var pooled := log;
      AddLog(DoneLine(successCount, failedCount), time);
      assert log == pooled + [LogLine(time, DoneLine(successCount, failedCount))];
      if PoolError(threadText).Some? {
        var e := LogLine(time, "下载过程中发生错误: " + PoolError(threadText).value);
        assert old(log) + [e] + [LogLine(time, DoneLine(0, 0))] == old(log) + [e, LogLine(time, DoneLine(0, 0))];
      }
      dialog := InfoBox("下载完成!\n成功: " + IntToString(successCount) + "\n失败: " + IntToString(failedCount));
    }

    /** The `try` of `download_task`: size the pool, then count; a pool that cannot be made is logged. */
    method RunPool(urls: seq<string>, completions: seq<Completion>, time: string)
      returns (successCount: nat, failedCount: nat)
      requires CompletesAll(completions, urls)
      modifies this`progress, this`progressLabel, this`log
      ensures PoolError(threadText).Some? ==> (successCount == 0 && failedCount == 0
        && log == old(log) + [LogLine(time, "下载过程中发生错误: " + PoolError(threadText).value)])
      ensures PoolError(threadText).None? ==>
        successCount == Successes(completions) && failedCount == Failures(completions)
        && successCount + failedCount == |urls|
        && log == old(log) + Stamped(CompletionLines(completions), time)
    {
      successCount, failedCount := 0, 0;
      var workers := ParseInt(threadText);
      if workers.None? {
        AddLog("下载过程中发生错误: " + IntError(threadText), time);
      } else if workers.value <= 0 {
        AddLog("下载过程中发生错误: " + MaxWorkersError, time);
      } else {
        CompletesAllCount(completions, urls);
        successCount, failedCount := CountCompletions(completions, |urls|, time);
      }
    }

    /** The `as_completed` loop: after the `i`-th completion the two counts add up to `i`. */
    method CountCompletions(completions: seq<Completion>, total: nat, time: string)
      returns (successCount: nat, failedCount: nat)
      requires |completions| == total
      modifies this`progress, this`progressLabel, this`log
      ensures successCount == Successes(completions) && failedCount == Failures(completions)
      ensures log == old(log) + Stamped(CompletionLines(completions), time)
    {
      successCount, failedCount := 0, 0;
      var i := 0;
      while i < |completions|
        invariant 0 <= i <= |completions|
        invariant successCount == Successes(completions[..i]) && failedCount == Failures(completions[..i])
        invariant log == old(log) + Stamped(CompletionLines(completions[..i]), time)
      {
        var c := completions[i];
        PrefixSnoc(completions, i);
        StampedLinesSnoc(completions[..i], c, time);
        successCount, failedCount := CountOne(completions[..i], c, successCount, failedCount, time);
        UpdateProgress(((i + 1) as real / total as real) * 100.0, ProgressLine(i + 1, total, successCount, failedCount));
        i := i + 1;
      }
      assert completions[..i] == completions;
    }

    /** One completion: count it and log its line. */
    method CountOne(done: seq<Completion>, c: Completion, successCount0: nat, failedCount0: nat, time: string)
      returns (successCount: nat, failedCount: nat)
      requires successCount0 == Successes(done) && failedCount0 == Failures(done)
      modifies this`log
      ensures successCount == Successes(done + [c]) && failedCount == Failures(done + [c])
      ensures log == old(log) + [LogLine(time, CompletionLine(c))]
    {
      TallySnoc(done, c);
      successCount, failedCount := successCount0, failedCount0;
      match c.1 {
        case Returned(ok, _) =>
          if ok {
            successCount := successCount + 1;
          } else {
            failedCount := failedCount + 1;
          }
        case Raised(_) =>
          failedCount := failedCount + 1;
      }
      AddLog(CompletionLine(c), time);
    }

    /**
     * `stop_download`: when confirmed it logs the request and resets the
     * window, but leaves the downloader and its running jobs alone, so a
     * new batch can be started beside them.
     */
    method StopDownload(confirmed: bool, time: string)
      modifies this`isDownloading, this`startEnabled, this`stopEnabled, this`progress, this`progressLabel, this`log
      ensures confirmed ==> (!isDownloading && startEnabled && !stopEnabled && progress == 0.0 && progressLabel == "准备就绪"
        && log == old(log) + [LogLine(time, "已请求停止下载，正在等待当前任务完成...")])
      ensures !confirmed ==> (isDownloading == old(isDownloading) && startEnabled == old(startEnabled)
        && stopEnabled == old(stopEnabled) && progress == old(progress) && progressLabel == old(progressLabel) && log == old(log))
    {
      if confirmed {
        AddLog("已请求停止下载，正在等待当前任务完成...", time);
        ResetState();
      }
    }
  }

  /** The label after the `i`-th of `total` completions. */
  function ProgressLine(i: nat, total: nat, successCount: nat, failedCount: nat): string {
    "已完成 " + IntToString(i) + "/" + IntToString(total) + " 个视频 (成功: "
    + IntToString(successCount) + ", 失败: " + IntToString(failedCount) + ")"
  }

  /** One more completion adds its own stamped line to the log lines. */
  lemma StampedLinesSnoc(cs: seq<Completion>, c: Completion, time: string)
    ensures Stamped(CompletionLines(cs + [c]), time) == Stamped(CompletionLines(cs), time) + [LogLine(time, CompletionLine(c))]
  {
    assert CompletionLines(cs + [c]) == CompletionLines(cs) + [CompletionLine(c)];
  }

  /** Log lines all stamped with `time`. */
  function Stamped(messages: seq<string>, time: string): (ls: seq<LogLine>)
    ensures |ls| == |messages| && forall k :: 0 <= k < |ls| ==> ls[k] == LogLine(time, messages[k])
  {
    seq(|messages|, k requires 0 <= k < |messages| => LogLine(time, messages[k]))
  }
}
