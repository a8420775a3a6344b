/**
 * The Flask front-end (`m3u8_web_ui.py`): a downloader that reports
 * progress, a status line, counts and a 50-entry log to the web page, sets
 * only Referer before each job, and logs every attempt and every ffmpeg
 * run; plus the route that starts a batch.
 */
module WebUi {
  import opened Wrappers
  import opened Text
  import opened Urls
  import opened Playlist
  import opened Naming
  import opened Headers
  import opened Remux
  import opened Fetch
  import opened Workspace
  import opened Job
  import opened Batch
  import opened Logs

  const DefaultThreadNum: int := 8
  const DefaultOutputDir: string := "./video_output"
  const DefaultTimeout: int := 60
  const DefaultRetryCount: int := 3

  /** `DEFAULT_HEADERS` of this front-end: no Origin entry. */
  const DefaultHeaders: Entries := [
    ("Accept", "*/*"),
    ("User-Agent", BrowserAgent),
    ("Referer", "https://"),
    ("Accept-Language", "zh-CN,zh;q=0.9,en;q=0.8"),
    ("Connection", "keep-alive"),
    ("Accept-Encoding", "gzip, deflate, br")
  ]

  /** The header update at the start of `process_m3u8`: Referer only. */
  function WithReferer(h: Entries, url: string): Entries {
    Assign(h, "Referer", Referer(url))
  }

  /**
   * Referer reads `scheme://netloc/` afterwards and every other header,
   * Origin included, reads as before; the default headers keep their keys,
   * so no Origin header is ever sent.
   */
  lemma RefererOnlyUpdate(h: Entries, url: string, other: string, default: string)
    requires other != "Referer"
    ensures Get(WithReferer(h, url), "Referer", default) == Referer(url)
    ensures Get(WithReferer(h, url), other, default) == Get(h, other, default)
    ensures "Referer" in Keys(h) ==> Keys(WithReferer(h, url)) == Keys(h)
  {
    AssignGet(h, "Referer", Referer(url), default);
    AssignGetOther(h, "Referer", Referer(url), other, default);
    AssignKeys(h, "Referer", Referer(url));
  }

  /** The keys of the default headers, in order. */
  lemma DefaultKeys()
    ensures Keys(DefaultHeaders) == ["Accept", "User-Agent", "Referer", "Accept-Language", "Connection", "Accept-Encoding"]
  {
    var ks := Keys(DefaultHeaders);
    assert ks[0] == "Accept" && ks[1] == "User-Agent" && ks[2] == "Referer";
    assert ks[3] == "Accept-Language" && ks[4] == "Connection" && ks[5] == "Accept-Encoding";
  }

  /** Starting from the defaults, the update never introduces an Origin header. */
  lemma NoOriginSent(url: string)
    ensures "Origin" !in Keys(WithReferer(DefaultHeaders, url))
  {
    DefaultKeys();
    AssignKeys(DefaultHeaders, "Referer", Referer(url));
  }

  // ---------------------------------------------------------------------
  // Log entries

  /** How many log entries the page keeps. */
  const LogCapacity: nat := 50

  /** The `level` of a log entry. */
  datatype Level = Info | Warning | Error | Success

  /** One `{time, message, level}` entry; the time is `%H:%M:%S` of the wall clock. */
  datatype LogEntry = LogEntry(time: string, message: string, level: Level)

  /** The status shown before any batch and after `reset`. */
  const ReadyStatus: string := "准备就绪"

  /** Logged before every attempt. */
  function DownloadingLog(url: string, time: string): LogEntry {
    LogEntry(time, "正在下载: " + url, Info)
  }

  /**
   * Logged after failed attempt `j` of `n`: a numbered warning, or an
   * error naming the URL when it was the last attempt.
   */
  function FailureLog(url: string, error: string, j: nat, n: int, time: string): LogEntry {
    if j == n - 1 then LogEntry(time, "下载失败: " + error + " | URL: " + url, Error)
    else LogEntry(time, "下载失败，重试 (" + IntToString(j + 1) + "/" + IntToString(n) + "): " + error, Warning)
  }

  /** The entries attempt `j` of `n` logs. */
  function AttemptLogs(url: string, server: Server, n: int, j: nat, time: string): seq<LogEntry> {
    [DownloadingLog(url, time)]
    + match server(j)
      case Fetched(_) => []
      case FetchFailed(e) => [FailureLog(url, e, j, n, time)]
  }

  /** The entries of the first `k` attempts. */
  function RetryLogs(url: string, server: Server, n: int, k: nat, time: string): seq<LogEntry> {
    if k == 0 then [] else RetryLogs(url, server, n, k - 1, time) + AttemptLogs(url, server, n, k - 1, time)
  }

  /** The entries a whole `download_file` call logs. */
  function DownloadLogs(url: string, server: Server, retryCount: int, time: string): seq<LogEntry> {
    RetryLogs(url, server, retryCount, Expected(server, retryCount).attempts, time)
  }

  /**
   * While the attempts fail, each one logs the download line and then its
   * failure: numbered warnings, and an error for the last attempt.
   */
  lemma RetryLogsFailing(url: string, server: Server, n: int, k: nat, time: string)
    requires k <= n && forall j :: 0 <= j < k ==> server(j).FetchFailed?
    ensures |RetryLogs(url, server, n, k, time)| == 2 * k
    ensures forall j :: 0 <= j < k ==>
      RetryLogs(url, server, n, k, time)[2 * j] == DownloadingLog(url, time)
      && RetryLogs(url, server, n, k, time)[2 * j + 1] == FailureLog(url, server(j).error, j, n, time)
  {
    if k > 0 {
      RetryLogsAt(url, server, n, k, k - 1, time);
    }
    forall j | 0 <= j < k
      ensures RetryLogs(url, server, n, k, time)[2 * j] == DownloadingLog(url, time)
      ensures RetryLogs(url, server, n, k, time)[2 * j + 1] == FailureLog(url, server(j).error, j, n, time)
    {
      RetryLogsAt(url, server, n, k, j, time);
    }
  }

  /** The two entries of failed attempt `j`, when the first `k` attempts all failed. */
  lemma {:induction false} RetryLogsAt(url: string, server: Server, n: int, k: nat, j: nat, time: string)
    requires j < k && forall i :: 0 <= i < k ==> server(i).FetchFailed?
    ensures |RetryLogs(url, server, n, k, time)| == 2 * k
    ensures RetryLogs(url, server, n, k, time)[2 * j] == DownloadingLog(url, time)
    ensures RetryLogs(url, server, n, k, time)[2 * j + 1] == FailureLog(url, server(j).error, j, n, time)
  {
    var prev := RetryLogs(url, server, n, k - 1, time);
    assert server(k - 1).FetchFailed?;
    assert AttemptLogs(url, server, n, k - 1, time) == [DownloadingLog(url, time), FailureLog(url, server(k - 1).error, k - 1, n, time)];
    if j < k - 1 {
      RetryLogsAt(url, server, n, k - 1, j, time);
    } else if k > 1 {
      RetryLogsAt(url, server, n, k - 1, 0, time);
    }
  }

  /**
   * When all `retry_count` attempts fail, the call logs `2 * retry_count`
   * entries and exactly one of them is an error: the last.
   */
  lemma RetryLogsAllFail(url: string, server: Server, retryCount: int, time: string)
    requires retryCount > 0 && forall j :: 0 <= j < retryCount ==> server(j).FetchFailed?
    ensures |DownloadLogs(url, server, retryCount, time)| == 2 * retryCount
    ensures DownloadLogs(url, server, retryCount, time)[2 * retryCount - 1]
      == LogEntry(time, "下载失败: " + server(retryCount - 1).error + " | URL: " + url, Error)
    ensures forall m :: 0 <= m < 2 * retryCount - 1 ==> DownloadLogs(url, server, retryCount, time)[m].level != Error
  {
    var r := DownloadLogs(url, server, retryCount, time);
    assert r == RetryLogs(url, server, retryCount, retryCount, time);
    RetryLogsAt(url, server, retryCount, retryCount, retryCount - 1, time);
    forall m | 0 <= m < 2 * retryCount - 1
      ensures r[m].level != Error
    {
      RetryLogsAt(url, server, retryCount, retryCount, m / 2, time);
    }
  }

  /**
   * When attempt `i` is the first to succeed, the call logs `2 * i + 1`
   * entries, none of them an error, the last being the download line.
   */
  lemma RetryLogsSucceed(url: string, server: Server, retryCount: int, i: nat, time: string)
    requires i < retryCount && server(i).Fetched?
    requires forall j :: 0 <= j < i ==> server(j).FetchFailed?
    ensures |DownloadLogs(url, server, retryCount, time)| == 2 * i + 1
    ensures DownloadLogs(url, server, retryCount, time)[2 * i] == DownloadingLog(url, time)
    ensures forall m :: 0 <= m < 2 * i + 1 ==> DownloadLogs(url, server, retryCount, time)[m].level != Error
  {
    FirstSuccessUnique(server, Attempts(retryCount), i);
    var r := DownloadLogs(url, server, retryCount, time);
    var before := RetryLogs(url, server, retryCount, i, time);
    if i > 0 {
      RetryLogsAt(url, server, retryCount, i, 0, time);
    }
    assert r == before + [DownloadingLog(url, time)];
    forall m | 0 <= m < 2 * i
      ensures r[m].level != Error
    {
      RetryLogsNoError(url, server, retryCount, i, m, time);
      assert r[m] == before[m];
    }
  }

  /** While attempts fail before the last one, no entry is an error. */
  lemma RetryLogsNoError(url: string, server: Server, n: int, k: nat, m: nat, time: string)
    requires k < n && m < 2 * k && forall i :: 0 <= i < k ==> server(i).FetchFailed?
    ensures |RetryLogs(url, server, n, k, time)| == 2 * k
    ensures RetryLogs(url, server, n, k, time)[m].level != Error
  {
    var j := m / 2;
    RetryLogsAt(url, server, n, k, j, time);
    assert FailureLog(url, server(j).error, j, n, time).level == Warning;
    assert m == 2 * j || m == 2 * j + 1;
  }

  /** Retrying never logs a success entry. */
  lemma {:induction false} RetryLogsNoSuccess(url: string, server: Server, n: int, k: nat, time: string)
    ensures forall m :: 0 <= m < |RetryLogs(url, server, n, k, time)| ==> RetryLogs(url, server, n, k, time)[m].level != Success
  {
    if k > 0 {
      RetryLogsNoSuccess(url, server, n, k - 1, time);
    }
  }

  /** The logged command: every argument but the output path, then a placeholder. */
  function CommandLine(argv: seq<string>): string
    requires argv != []
  {
    Join(argv[..|argv| - 1], " ") + " [输出文件]"
  }

  /** The entries of the ffmpeg step: output path, command, then the verdict. */
  function ConvertLogs(argv: seq<string>, outputPath: string, outputFilename: string, result: ToolResult, time: string): seq<LogEntry>
    requires argv != []
  {
    [LogEntry(time, "正在使用ffmpeg转换为MP4，输出文件: " + outputPath, Info),
     LogEntry(time, "FFmpeg命令: " + CommandLine(argv), Info)]
    + if result.returnCode == 0 then [LogEntry(time, "转换成功: " + outputFilename, Success)]
      else [LogEntry(time, "FFmpeg返回码: " + IntToString(result.returnCode), Error),
            LogEntry(time, "转换失败: " + Tail(result.stderr, StderrTail), Error)]
  }

  /** Everything one `process_m3u8` logs, given the headers after its update. */
  function JobLogs(url: string, outputFilename: string, outputDir: string, h: Entries, server: Server,
                   retryCount: int, ffmpeg: Ffmpeg, playlistPath: string, time: string): seq<LogEntry>
  {
    DownloadLogs(url, server, retryCount, time)
    + match Prepare(server, retryCount)
      case Ready(body) =>
        var argv := FfmpegArgs(HeaderBlock(h), playlistPath, Get(h, "User-Agent", ""), PathJoin(outputDir, outputFilename));
        ConvertLogs(argv, PathJoin(outputDir, outputFilename), outputFilename,
                    ffmpeg(argv, Payload(Rewrite(url, ReadText(body).value), true)), time)
      case _ => []
  }

  /** A job succeeded exactly when the last entry it logged is a success entry. */
  lemma JobLogsShowOutcome(url: string, outputFilename: string, outputDir: string, h: Entries, server: Server,
                           retryCount: int, ffmpeg: Ffmpeg, playlistPath: string, ok: bool, message: string,
                           ran: Option<seq<string>>, time: string)
    requires Processed(url, outputFilename, outputDir, h, server, retryCount, ffmpeg, playlistPath, ok, message, ran)
    ensures var ls := JobLogs(url, outputFilename, outputDir, h, server, retryCount, ffmpeg, playlistPath, time);
      ok <==> ls != [] && ls[|ls| - 1].level == Success
  {
    var ls := JobLogs(url, outputFilename, outputDir, h, server, retryCount, ffmpeg, playlistPath, time);
    var d := DownloadLogs(url, server, retryCount, time);
    RetryLogsNoSuccess(url, server, retryCount, Expected(server, retryCount).attempts, time);
    ProcessedSucceedsIff(url, outputFilename, outputDir, h, server, retryCount, ffmpeg, playlistPath, ok, message, ran);
    match Prepare(server, retryCount)
    case Ready(body) =>
    case NotFetched =>
      assert ls == d;
    case NotPlaylist =>
      assert ls == d;
  }

  // ---------------------------------------------------------------------
  // The batch

  /** Logged when ffmpeg cannot be found. */
  const FfmpegMissing: string := "错误: 未找到ffmpeg，请先安装!"

  /** The status after a batch, whatever happened inside it. */
  function FinalStatus(successCount: int, failedCount: int): string {
    "下载完成! 成功: " + IntToString(successCount) + ", 失败: " + IntToString(failedCount)
  }

  /** The status after the `i`-th of `total` completions. */
  function ProgressStatus(i: int, total: int, successCount: int, failedCount: int): string {
    "已完成 " + IntToString(i) + "/" + IntToString(total) + " 个视频 (成功: " + IntToString(successCount)
    + ", 失败: " + IntToString(failedCount) + ")"
  }

  /** The counting loop logs only the jobs that raised. */
  function RaisedLogs(cs: seq<Completion>, time: string): seq<LogEntry> {
    if cs == [] then []
    else
      RaisedLogs(cs[..|cs| - 1], time)
      + match cs[|cs| - 1].1
        case Raised(e) => [LogEntry(time, "✗ " + cs[|cs| - 1].0 + " - 处理失败: " + e, Error)]
        case Returned(_, _) => []
  }

  /** Every logged exception is also counted as a failure. */
  lemma {:induction false} RaisedLogsCounted(cs: seq<Completion>, time: string)
    ensures |RaisedLogs(cs, time)| <= Failures(cs)
    ensures forall m :: 0 <= m < |RaisedLogs(cs, time)| ==> RaisedLogs(cs, time)[m].level == Error
  {
    if cs != [] {
      RaisedLogsCounted(cs[..|cs| - 1], time);
    }
  }

  /** The logs a batch leaves, starting from the empty log of `reset`. */
  function BatchLogs(ffmpegFound: bool, threadNum: int, cs: seq<Completion>, time: string): seq<LogEntry> {
    if !ffmpegFound then [LogEntry(time, FfmpegMissing, Error)]
    else if threadNum <= 0 then [LogEntry(time, "下载过程中发生错误: " + MaxWorkersError, Error)]
    else PushAll([], RaisedLogs(cs, time), LogCapacity)
  }

  /** `M3UDownloader` of the web front-end, with the fields the page polls. */
  class WebDownloader {
    const outputDir: string
    const threadNum: int
    /** The header dict it was given, shared with every other holder (by default `DEFAULT_HEADERS`). */
    const headers: HeaderTable
    const timeout: int
    const retryCount: int
    /** Percent done; exact where the source computes a float. */
    var progress: real
    var status: string
    var logs: seq<LogEntry>
    var successCount: int
    var failedCount: int

    constructor (outputDir: string, threadNum: int, headers: HeaderTable, timeout: int, retryCount: int)
      ensures this.outputDir == outputDir && this.threadNum == threadNum && this.headers == headers
      ensures this.timeout == timeout && this.retryCount == retryCount
      ensures progress == 0.0 && status == ReadyStatus && logs == [] && successCount == 0 && failedCount == 0
    {
      this.outputDir := outputDir;
      this.threadNum := threadNum;
      this.headers := headers;
      this.timeout := timeout;
      this.retryCount := retryCount;
      progress := 0.0;
      status := ReadyStatus;
      logs := [];
      successCount := 0;
      failedCount := 0;
    }

    /** `reset`: back to the state of a fresh downloader. */
    method Reset()
      modifies this`progress, this`status, this`logs, this`successCount, this`failedCount
      ensures progress == 0.0 && status == ReadyStatus && logs == [] && successCount == 0 && failedCount == 0
    {
      progress := 0.0;
      status := ReadyStatus;
      logs := [];
      successCount := 0;
      failedCount := 0;
    }

    /**
     * `add_log`: append, dropping the oldest entry past 50, so the log is
     * always the newest 50 entries in order.
     */
    method AddLog(message: string, level: Level, time: string)
      modifies this`logs
      ensures logs == Push(old(logs), LogEntry(time, message, level), LogCapacity)
      ensures |old(logs)| <= LogCapacity ==> logs == LastN(old(logs) + [LogEntry(time, message, level)], LogCapacity)
    {
      logs := logs + [LogEntry(time, message, level)];
      if |logs| > LogCapacity {
        logs := logs[1..];
      }
      if |old(logs)| <= LogCapacity {
        PushIsLastN(old(logs), LogEntry(time, message, level), LogCapacity);
      }
    }

    /**
     * `download_file`: the retry loop as in `Fetch.Expected`, logging each
     * attempt and each failure as `DownloadLogs` says.
     */
    method DownloadFile(fs: FileSystem, path: string, url: string, server: Server, time: string) returns (ok: bool)
      modifies this`logs, fs
      ensures ok == Expected(server, retryCount).body.Some?
      ensures fs.dirs == old(fs.dirs)
      ensures fs.files == if ok then old(fs.files)[path := Expected(server, retryCount).body.value] else old(fs.files)
      ensures logs == PushAll(old(logs), DownloadLogs(url, server, retryCount, time), LogCapacity)
    {
      var i := 0;
      while i < retryCount
        invariant 0 <= i <= Attempts(retryCount)
        invariant 0 < retryCount ==> i < retryCount
        invariant forall j :: 0 <= j < i ==> server(j).FetchFailed?
        invariant fs.dirs == old(fs.dirs) && fs.files == old(fs.files)
        invariant logs == PushAll(old(logs), RetryLogs(url, server, retryCount, i, time), LogCapacity)
      {
        LogAttempt(url, server, i, old(logs), time);
        match server(i) {
          case Fetched(b) =>
            StopsAt(server, retryCount, i);
            fs.WriteFile(path, b);
            return true;
          case FetchFailed(_) =>
            if i == retryCount - 1 {
              AllFailures(server, retryCount);
              return false;
            }
        }
        i := i + 1;
      }
      NoAttemptsWithoutCount(server, retryCount);
      return false;
    }

    /** The entries of attempt `i`: the download line, then the failure line when the request failed. */
    method LogAttempt(url: string, server: Server, i: nat, ghost start: seq<LogEntry>, time: string)
      requires logs == PushAll(start, RetryLogs(url, server, retryCount, i, time), LogCapacity)
      modifies this`logs
      ensures logs == PushAll(start, RetryLogs(url, server, retryCount, i + 1, time), LogCapacity)
    {
      ghost var before := RetryLogs(url, server, retryCount, i, time);
      AddLog("正在下载: " + url, Info, time);
      PushAllSnoc(start, before, DownloadingLog(url, time), LogCapacity);
      match server(i) {
        case Fetched(_) =>
          assert RetryLogs(url, server, retryCount, i + 1, time) == before + [DownloadingLog(url, time)];
        case FetchFailed(e) =>
          var entry := FailureLog(url, e, i, retryCount, time);
          AddLog(entry.message, entry.level, time);
          PushAllSnoc(start, before + [DownloadingLog(url, time)], entry, LogCapacity);
          assert RetryLogs(url, server, retryCount, i + 1, time) == before + [DownloadingLog(url, time)] + [entry];
      }
    }

    /**
     * `process_m3u8`: only Referer is updated in the shared headers; the
     * outcome is as `Job.Processed` says, the log grows by `JobLogs`, and
     * the temporary directory is gone afterwards on every path.
     */
    method ProcessM3u8(url: string, outputFilename: string, fs: FileSystem, server: Server, ffmpeg: Ffmpeg,
                       now: int, time: string)
      returns (ok: bool, message: string, ran: Option<seq<string>>)
      modifies headers, this`logs, fs
      ensures headers.entries == WithReferer(old(headers.entries), url)
      ensures Processed(url, outputFilename, outputDir, headers.entries, server, retryCount, ffmpeg,
                        PlaylistPath(TempDir(outputDir, now)), ok, message, ran)
      ensures logs == PushAll(old(logs), JobLogs(url, outputFilename, outputDir, headers.entries, server, retryCount,
                                                 ffmpeg, PlaylistPath(TempDir(outputDir, now)), time), LogCapacity)
      ensures fs.dirs == PrunedDirs(old(fs.dirs), TempDir(outputDir, now))
      ensures fs.files == Pruned(old(fs.files), TempDir(outputDir, now))
      ensures !fs.Exists(TempDir(outputDir, now))
    {
      var temp := TempDir(outputDir, now);
      fs.MakeDirs(temp);
      headers.Set("Referer", Referer(url));
      var playlistPath := PlaylistPath(temp);
      ghost var h := headers.entries;
      ghost var files0 := fs.files;
      ok, message, ran := Convert(url, outputFilename, fs, server, ffmpeg, playlistPath, time);
      assert Processed(url, outputFilename, outputDir, h, server, retryCount, ffmpeg, playlistPath, ok, message, ran);
      assert logs == PushAll(old(logs), JobLogs(url, outputFilename, outputDir, h, server, retryCount,
                                                ffmpeg, playlistPath, time), LogCapacity);
      ghost var files1 := fs.files;
      if fs.Exists(temp) {
        fs.RemoveTree(temp);
      }
      assert headers.entries == h;
      PlaylistInTemp(temp);
      PrunedSameOutside(files1, files0, playlistPath, temp);
      PrunedDirsCreate(old(fs.dirs), temp);
    }

    /** `download_m3u8`: name the output as `Naming.OutputName` does, then process. */
    method DownloadM3u8(url: string, given: Option<string>, fs: FileSystem, server: Server, ffmpeg: Ffmpeg,
                        nameTime: int, now: int, time: string)
      returns (ok: bool, message: string, ran: Option<seq<string>>)
      modifies headers, this`logs, fs
      ensures headers.entries == WithReferer(old(headers.entries), url)
      ensures Processed(url, OutputName(url, given, nameTime), outputDir, headers.entries, server, retryCount, ffmpeg,
                        PlaylistPath(TempDir(outputDir, now)), ok, message, ran)
      ensures logs == PushAll(old(logs), JobLogs(url, OutputName(url, given, nameTime), outputDir, headers.entries, server,
                                                 retryCount, ffmpeg, PlaylistPath(TempDir(outputDir, now)), time), LogCapacity)
      ensures fs.dirs == PrunedDirs(old(fs.dirs), TempDir(outputDir, now))
      ensures fs.files == Pruned(old(fs.files), TempDir(outputDir, now))
    {
      var outputFilename := OutputName(url, given, nameTime);
      ok, message, ran := ProcessM3u8(url, outputFilename, fs, server, ffmpeg, now, time);
    }

    /** The `try` body of `process_m3u8` once Referer is set. Only the playlist file is written. */
    method Convert(url: string, outputFilename: string, fs: FileSystem, server: Server, ffmpeg: Ffmpeg,
                   playlistPath: string, time: string)
      returns (ok: bool, message: string, ran: Option<seq<string>>)
      modifies this`logs, fs
      ensures Processed(url, outputFilename, outputDir, headers.entries, server, retryCount, ffmpeg, playlistPath, ok, message, ran)
      ensures logs == PushAll(old(logs), JobLogs(url, outputFilename, outputDir, headers.entries, server, retryCount,
                                                 ffmpeg, playlistPath, time), LogCapacity)
      ensures fs.dirs == old(fs.dirs) && SameOutside(fs.files, old(fs.files), playlistPath)
    {
      ok, message, ran := false, "", None;
      var fetched := DownloadFile(fs, playlistPath, url, server, time);
      ghost var fetchLogs := DownloadLogs(url, server, retryCount, time);
      if !fetched {
        ok, message := false, NotFetchedMessage(url);
        assert fetchLogs + [] == fetchLogs;
      } else if !IsM3u8File(fs.files[playlistPath]) {
        ok, message := false, NotPlaylistMessage(url);
        assert fetchLogs + [] == fetchLogs;
      } else {
        ghost var convertLogs;
        ok, message, ran, convertLogs := RunFfmpeg(url, outputFilename, fs, ffmpeg, playlistPath, time);
        PushAllAppend(old(logs), fetchLogs, convertLogs, LogCapacity);
      }
    }

    /**
     * The ffmpeg part of `process_m3u8` for a playlist already saved at
     * `playlistPath`: rewrite it in place, log the command, run it and
     * log its outcome.
     */
    method RunFfmpeg(url: string, outputFilename: string, fs: FileSystem, ffmpeg: Ffmpeg, playlistPath: string, time: string)
      returns (ok: bool, message: string, ran: Option<seq<string>>, ghost convertLogs: seq<LogEntry>)
      requires playlistPath in fs.files && IsM3u8File(fs.files[playlistPath])
      modifies this`logs, fs
      ensures var argv := FfmpegArgs(HeaderBlock(headers.entries), playlistPath, Get(headers.entries, "User-Agent", ""),
                                     PathJoin(outputDir, outputFilename));
        var input := Payload(Rewrite(url, ReadText(old(fs.files[playlistPath])).value), true);
        ran == Some(argv) && (ok, message) == Report(ffmpeg(argv, input), outputFilename)
        && convertLogs == ConvertLogs(argv, PathJoin(outputDir, outputFilename), outputFilename, ffmpeg(argv, input), time)
        && fs.files == old(fs.files)[playlistPath := input]
      ensures logs == PushAll(old(logs), convertLogs, LogCapacity)
      ensures fs.dirs == old(fs.dirs)
    {
      var content := ReadText(fs.files[playlistPath]).value;
      var updated := RewritePlaylist(url, content);
      fs.WriteFile(playlistPath, Payload(updated, true));
      var outputPath := PathJoin(outputDir, outputFilename);
      var block := BuildHeaderBlock(headers.entries);
      var argv := FfmpegArgs(block, playlistPath, headers.Lookup("User-Agent", ""), outputPath);
      AddLog("正在使用ffmpeg转换为MP4，输出文件: " + outputPath, Info, time);
      AddLog("FFmpeg命令: " + CommandLine(argv), Info, time);
      ran := Some(argv);
      var result := ffmpeg(argv, fs.files[playlistPath]);
      if result.returnCode == 0 {
        AddLog("转换成功: " + outputFilename, Success, time);
      } else {
        AddLog("FFmpeg返回码: " + IntToString(result.returnCode), Error, time);
        AddLog("转换失败: " + Tail(result.stderr, StderrTail), Error, time);
      }
      ok, message := Report(result, outputFilename).0, Report(result, outputFilename).1;
      convertLogs := ConvertLogs(argv, outputPath, outputFilename, result, time);
      LogConvert(old(logs), convertLogs, logs);
    }

    /**
     * `batch_download`: reset, create the output directory, stop early
     * without ffmpeg; otherwise count every completion (a job that raised
     * is a failure and is logged), and finish with progress 100 and the
     * summary status, also when the pool could not be created.
     */
    method BatchDownload(urls: seq<string>, fs: FileSystem, ffmpegFound: bool, completions: seq<Completion>, time: string)
      requires CompletesAll(completions, urls)
      modifies this`progress, this`status, this`logs, this`successCount, this`failedCount, fs
      ensures fs.dirs == old(fs.dirs) + {outputDir} && fs.files == old(fs.files)
      ensures logs == BatchLogs(ffmpegFound, threadNum, completions, time)
      ensures !ffmpegFound ==> progress == 0.0 && status == "下载失败" && successCount == 0 && failedCount == 0
      ensures ffmpegFound ==> progress == 100.0 && status == FinalStatus(successCount, failedCount)
      ensures ffmpegFound && threadNum <= 0 ==> successCount == 0 && failedCount == 0
      ensures ffmpegFound && threadNum > 0 ==>
        successCount == Successes(completions) && failedCount == Failures(completions)
        && successCount + failedCount == |urls|
    {
      Reset();
      status := "开始下载...";
      fs.MakeDirs(outputDir);
      RunBatch(urls, ffmpegFound, completions, time);
    }

    /** `batch_download` after the output directory exists: the ffmpeg check, the pool and the summary. */
    method RunBatch(urls: seq<string>, ffmpegFound: bool, completions: seq<Completion>, time: string)
      requires CompletesAll(completions, urls)
      requires progress == 0.0 && logs == [] && successCount == 0 && failedCount == 0
      modifies this`progress, this`status, this`logs, this`successCount, this`failedCount
      ensures logs == BatchLogs(ffmpegFound, threadNum, completions, time)
      ensures !ffmpegFound ==> progress == 0.0 && status == "下载失败" && successCount == 0 && failedCount == 0
      ensures ffmpegFound ==> progress == 100.0 && status == FinalStatus(successCount, failedCount)
      ensures ffmpegFound && threadNum <= 0 ==> successCount == 0 && failedCount == 0
      ensures ffmpegFound && threadNum > 0 ==>
        successCount == Successes(completions) && failedCount == Failures(completions)
        && successCount + failedCount == |urls|
    {
      if !ffmpegFound {
        StopWithoutFfmpeg(time);
        return;
      }
      var total := |urls|;
      if threadNum <= 0 {
        FailPool(time);
      } else {
        CompletesAllCount(completions, urls);
        CountCompletions(completions, total, time);
      }
      status := FinalStatus(successCount, failedCount);
      progress := 100.0;
    }

    /** Without ffmpeg the batch logs one error and fails before any job starts. */
    method StopWithoutFfmpeg(time: string)
      requires logs == []
      modifies this`logs, this`status
      ensures logs == [LogEntry(time, FfmpegMissing, Error)] && status == "下载失败"
    {
      AddLog(FfmpegMissing, Error, time);
      status := "下载失败";
    }

    /** A pool of no workers cannot be created: one error, no job runs. */
    method FailPool(time: string)
      requires logs == []
      modifies this`logs
      ensures logs == [LogEntry(time, "下载过程中发生错误: " + MaxWorkersError, Error)]
    {
      AddLog("下载过程中发生错误: " + MaxWorkersError, Error, time);
    }

    /** The `as_completed` loop: after the `i`-th completion the two counts add up to `i`. */
    method CountCompletions(completions: seq<Completion>, total: nat, time: string)
      requires |completions| == total
      requires successCount == 0 && failedCount == 0 && logs == []
      modifies this`progress, this`status, this`logs, this`successCount, this`failedCount
      ensures successCount == Successes(completions) && failedCount == Failures(completions)
      ensures logs == PushAll([], RaisedLogs(completions, time), LogCapacity)
    {
      var i := 0;
      while i < |completions|
        invariant 0 <= i <= |completions|
        invariant successCount == Successes(completions[..i]) && failedCount == Failures(completions[..i])
        invariant logs == PushAll([], RaisedLogs(completions[..i], time), LogCapacity)
        invariant i > 0 ==> (progress == (i as real / total as real) * 100.0
                             && status == ProgressStatus(i, total, successCount, failedCount))
      {
        PrefixSnoc(completions, i);
        CountOne(completions[..i], completions[i], time);
        Observe(i + 1, total);
        i := i + 1;
      }
      assert completions[..i] == completions;
    }

    /** The count and log of one more completion `c` after `done`. */
    method CountOne(done: seq<Completion>, c: Completion, time: string)
      requires successCount == Successes(done) && failedCount == Failures(done)
      requires logs == PushAll([], RaisedLogs(done, time), LogCapacity)
      modifies this`logs, this`successCount, this`failedCount
      ensures successCount == Successes(done + [c]) && failedCount == Failures(done + [c])
      ensures logs == PushAll([], RaisedLogs(done + [c], time), LogCapacity)
    {
      TallySnoc(done, c);
      match c.1 {
        case Returned(success, _) =>
          if success {
            successCount := successCount + 1;
          } else {
            failedCount := failedCount + 1;
          }
          assert RaisedLogs(done + [c], time) == RaisedLogs(done, time) + [] == RaisedLogs(done, time);
        case Raised(e) =>
          failedCount := failedCount + 1;
          var entry := LogEntry(time, "✗ " + c.0 + " - 处理失败: " + e, Error);
          AddLog(entry.message, entry.level, time);
          PushAllSnoc([], RaisedLogs(done, time), entry, LogCapacity);
      }
    }

    /** The progress and status shown after the `i`-th of `total` completions. */
    method Observe(i: nat, total: nat)
      requires 0 < total
      modifies this`progress, this`status
      ensures progress == (i as real / total as real) * 100.0
      ensures status == ProgressStatus(i, total, successCount, failedCount)
    {
      progress := (i as real / total as real) * 100.0;
      status := ProgressStatus(i, total, successCount, failedCount);
    }
  }

  /** Logging `xs` one entry at a time after `buf` gives `PushAll(buf, xs)`. */
  lemma LogConvert(buf: seq<LogEntry>, xs: seq<LogEntry>, after: seq<LogEntry>)
    requires |xs| == 3 ==> after == Push(Push(Push(buf, xs[0], LogCapacity), xs[1], LogCapacity), xs[2], LogCapacity)
    requires |xs| == 4 ==> after == Push(Push(Push(Push(buf, xs[0], LogCapacity), xs[1], LogCapacity), xs[2], LogCapacity), xs[3], LogCapacity)
    requires |xs| == 3 || |xs| == 4
    ensures after == PushAll(buf, xs, LogCapacity)
  {
    PushAllSnoc(buf, [], xs[0], LogCapacity);
    assert [] + [xs[0]] == xs[..1];
    PushAllSnoc(buf, xs[..1], xs[1], LogCapacity);
    assert xs[..1] + [xs[1]] == xs[..2];
    PushAllSnoc(buf, xs[..2], xs[2], LogCapacity);
    assert xs[..2] + [xs[2]] == xs[..3];
    if |xs| == 4 {
      PushAllSnoc(buf, xs[..3], xs[3], LogCapacity);
      assert xs[..3] + [xs[3]] == xs;
    } else {
      assert xs[..3] == xs;
    }
  }

  /** The JSON answer of a route. */
  datatype Response = Response(status: string, message: string)

  /**
   * The `/api/start_download` route: an empty (or missing) URL list is
   * refused and the current downloader is kept; otherwise a new downloader
   * with the requested settings (defaults where absent) replaces it and a
   * thread runs its `batch_download` on the list.
   */
  method StartDownload(urls: seq<string>, threadNum: Option<int>, timeout: Option<int>, retryCount: Option<int>,
                       defaultHeaders: HeaderTable, current: WebDownloader)
    returns (response: Response, downloader: WebDownloader, started: bool)
    ensures started <==> urls != []
    ensures urls == [] ==> response == Response("error", "请提供M3U8链接") && downloader == current
    ensures urls != [] ==> response == Response("success", "下载已开始") && fresh(downloader)
    ensures urls != [] ==>
      downloader.threadNum == threadNum.GetOr(DefaultThreadNum)
      && downloader.timeout == timeout.GetOr(DefaultTimeout)
      && downloader.retryCount == retryCount.GetOr(DefaultRetryCount)
      && downloader.outputDir == DefaultOutputDir && downloader.headers == defaultHeaders
      && downloader.logs == [] && downloader.status == ReadyStatus
  {
    if urls == [] {
      return Response("error", "请提供M3U8链接"), current, false;
    }
    downloader := new WebDownloader(DefaultOutputDir, threadNum.GetOr(DefaultThreadNum), defaultHeaders,
                                    timeout.GetOr(DefaultTimeout), retryCount.GetOr(DefaultRetryCount));
    return Response("success", "下载已开始"), downloader, true;
  }
}
