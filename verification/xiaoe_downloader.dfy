/**
 * The command-line downloader: one `M3UDownloader` with fixed settings that
 * prints its progress, and a `main` that asks for comma-separated URLs
 * (or falls back to a configured list) and downloads them in a pool.
 * What is printed is modelled as the sequence of `print` calls, one element
 * per call, with the text it prints. A job's own lines are part of that
 * job's outcome (`Reported`); the batch and `main` state only the lines
 * the main thread prints, since the pool's lines interleave with them in
 * an order the model does not fix.
 */
module Xiaoe {
  import opened Wrappers
  import opened Text
  import opened Playlist
  import opened Naming
  import opened Headers
  import opened Remux
  import opened Fetch
  import opened Workspace
  import opened Job
  import opened Batch

  const ThreadNum: int := 8
  const OutputDir: string := "./video_output"
  /** The session headers: sent with every HTTP request, never to ffmpeg. */
  const DefaultHeaders: Entries := [("Accept", "*/*"), ("User-Agent", BrowserAgent)]
  const RequestTimeout: nat := 60
  /** The retry budget is a constant here, not a setting. */
  const RetryCount: nat := 3

  /** The message of `ZeroDivisionError`. */
  const DivisionByZero: string := "division by zero"

  // ---------------------------------------------------------------------
  // One job

  /** What is printed after failed attempt `j` (counting from 0) raised `e`. */
  function AttemptLine(j: nat, e: string): string {
    "下载失败 (尝试 " + NatToString(j + 1) + "/" + NatToString(RetryCount) + "): " + e
  }

  /** The lines printed for a run of failed attempts, in order. */
  function AttemptLines(errors: seq<string>): seq<string> {
    seq(|errors|, j requires 0 <= j < |errors| => AttemptLine(j, errors[j]))
  }

  /**
   * `download_file` prints one line per failed attempt, naming that
   * attempt's own exception, and prints all three exactly when no attempt
   * succeeded, having then slept twice.
   */
  lemma AttemptLinesReport(server: Server)
    ensures var lines := AttemptLines(Expected(server, RetryCount).errors);
      |lines| <= RetryCount
      && (|lines| == RetryCount <==> Prepare(server, RetryCount).NotFetched?)
      && (forall j :: 0 <= j < |lines| ==> server(j).FetchFailed? && lines[j] == AttemptLine(j, server(j).error))
      && (Prepare(server, RetryCount).NotFetched? ==> Expected(server, RetryCount).sleeps == RetryCount - 1)
  {
    var r := Expected(server, RetryCount);
    if r.body.Some? {
      assert |r.errors| == r.attempts - 1 < RetryCount;
    }
  }

  /** The first line `process_m3u8` prints. */
  function Opening(url: string): string {
    "\n开始处理 M3U8: " + url
  }

  const Converting: string := "正在使用ffmpeg转换为MP4..."

  /**
   * How this `process_m3u8` ends and what it prints: the two early
   * failures run nothing; otherwise ffmpeg runs once on the playlist as
   * downloaded (no rewriting, no headers) and its exit status decides the
   * answer, the last line naming the file or quoting ffmpeg's whole stderr.
   */
  predicate Reported(url: string, outputFilename: string, outputDir: string, server: Server, ffmpeg: Ffmpeg,
                     playlistPath: string, ok: bool, lines: seq<string>, ran: Option<seq<string>>)
  {
    var start := [Opening(url)] + AttemptLines(Expected(server, RetryCount).errors);
    match Prepare(server, RetryCount)
    case NotFetched => !ok && ran == None && lines == start + [NotFetchedMessage(url)]
    case NotPlaylist => !ok && ran == None && lines == start + [NotPlaylistMessage(url)]
    case Ready(body) =>
      var outputPath := PathJoin(outputDir, outputFilename);
      var argv := PlainFfmpegArgs(playlistPath, outputPath);
      var result := ffmpeg(argv, body);
      ran == Some(argv) && ok == (result.returnCode == 0)
      && lines == start + [Converting, "输出文件: " + outputPath,
                           if ok then "✓ 转换成功: " + outputFilename else "✗ 转换失败: " + result.stderr]
  }

  /**
   * A job succeeds exactly when the playlist was fetched within three
   * attempts, passed the marker check and ffmpeg exited with 0 on it; the
   * last line printed starts with a check mark exactly then.
   */
  lemma ReportedSucceedsIff(url: string, outputFilename: string, outputDir: string, server: Server, ffmpeg: Ffmpeg,
                            playlistPath: string, ok: bool, lines: seq<string>, ran: Option<seq<string>>)
    requires Reported(url, outputFilename, outputDir, server, ffmpeg, playlistPath, ok, lines, ran)
    ensures ok <==> Prepare(server, RetryCount).Ready? && ran.Some? && ffmpeg(ran.value, Prepare(server, RetryCount).body).returnCode == 0
    ensures lines != [] && lines[0] == Opening(url)
    ensures ok <==> lines[|lines| - 1][0] == '✓'
  {
  }

  /** `M3UDownloader` of the command-line tool. */
  class Downloader {
    const outputDir: string
    const threadNum: int
    const headers: Entries

    /** `M3UDownloader(output_dir, thread_num)`: the session carries the fixed headers. */
    constructor (outputDir: string, threadNum: int)
      ensures this.outputDir == outputDir && this.threadNum == threadNum && headers == DefaultHeaders
    {
      this.outputDir := outputDir;
      this.threadNum := threadNum;
      headers := DefaultHeaders;
    }

    /**
     * `download_file`: up to three attempts, printing each failure; the
     * first successful attempt's body is written to `path`.
     */
    method DownloadFile(fs: FileSystem, path: string, server: Server) returns (ok: bool, lines: seq<string>, sleeps: nat)
      modifies fs
      ensures ok == Expected(server, RetryCount).body.Some?
      ensures lines == AttemptLines(Expected(server, RetryCount).errors)
      ensures sleeps == Expected(server, RetryCount).sleeps
      ensures fs.dirs == old(fs.dirs)
      ensures fs.files == if ok then old(fs.files)[path := Expected(server, RetryCount).body.value] else old(fs.files)
    {
      var errors: seq<string> := [];
      lines, sleeps := [], 0;
      var i := 0;
      while i < RetryCount
        invariant 0 <= i < RetryCount && sleeps == i
        invariant |errors| == i && forall j :: 0 <= j < i ==> server(j) == FetchFailed(errors[j])
        invariant lines == AttemptLines(errors)
        invariant fs.dirs == old(fs.dirs) && fs.files == old(fs.files)
      {
        match server(i) {
          case Fetched(b) =>
            FirstSuccessUnique(server, RetryCount, i);
            assert errors == ErrorsOf(server, i);
            fs.WriteFile(path, b);
            return true, lines, sleeps;
          case FetchFailed(e) =>
            assert AttemptLines(errors + [e]) == lines + [AttemptLine(i, e)];
            errors := errors + [e];
            lines := lines + [AttemptLine(i, e)];
            if i == RetryCount - 1 {
              assert FirstSuccess(server, RetryCount).None?;
              assert errors == ErrorsOf(server, RetryCount);
              return false, lines, sleeps;
            }
            sleeps := sleeps + 1;
        }
        i := i + 1;
      }
    }

    /**
     * `process_m3u8`: the answer and the printed lines are as `Reported`
     * says, and the temporary directory is gone afterwards on every path,
     * nothing outside it having changed.
     */
    method ProcessM3u8(url: string, outputFilename: string, fs: FileSystem, server: Server, ffmpeg: Ffmpeg, now: int)
      returns (ok: bool, lines: seq<string>, ran: Option<seq<string>>)
      modifies fs
      ensures Reported(url, outputFilename, outputDir, server, ffmpeg, PlaylistPath(TempDir(outputDir, now)), ok, lines, ran)
      ensures fs.dirs == PrunedDirs(old(fs.dirs), TempDir(outputDir, now))
      ensures fs.files == Pruned(old(fs.files), TempDir(outputDir, now))
      ensures !fs.Exists(TempDir(outputDir, now))
    {
      lines := [Opening(url)];
      var temp := TempDir(outputDir, now);
      fs.MakeDirs(temp);
      var playlistPath := PlaylistPath(temp);
      ok, ran := false, None;
      var fetched, tries, _ := DownloadFile(fs, playlistPath, server);
      lines := lines + tries;
      if !fetched {
        lines := lines + [NotFetchedMessage(url)];
      } else if !IsM3u8File(fs.files[playlistPath]) {
        lines := lines + [NotPlaylistMessage(url)];
      } else {
        var outputPath := PathJoin(outputDir, outputFilename);
        var argv := PlainFfmpegArgs(playlistPath, outputPath);
        ran := Some(argv);
        lines := lines + [Converting, "输出文件: " + outputPath];
        var result := ffmpeg(argv, fs.files[playlistPath]);
        if result.returnCode == 0 {
          ok := true;
          lines := lines + ["✓ 转换成功: " + outputFilename];
        } else {
          lines := lines + ["✗ 转换失败: " + result.stderr];
        }
      }
      if fs.Exists(temp) {
        fs.RemoveTree(temp);
      }
      PlaylistInTemp(temp);
      PrunedDirsCreate(old(fs.dirs), temp);
    }

    /** `download_m3u8` as the pool calls it: the name is derived from the URL. */
    method DownloadM3u8(url: string, fs: FileSystem, server: Server, ffmpeg: Ffmpeg, nameTime: int, now: int)
      returns (ok: bool, lines: seq<string>, ran: Option<seq<string>>)
      modifies fs
      ensures Reported(url, OutputName(url, None, nameTime), outputDir, server, ffmpeg,
                       PlaylistPath(TempDir(outputDir, now)), ok, lines, ran)
      ensures fs.dirs == PrunedDirs(old(fs.dirs), TempDir(outputDir, now))
      ensures fs.files == Pruned(old(fs.files), TempDir(outputDir, now))
    {
      ok, lines, ran := ProcessM3u8(url, OutputName(url, None, nameTime), fs, server, ffmpeg, now);
    }

    /**
     * `batch_download` given the order and outcomes in which the pool hands
     * the jobs back (`completions`) and the whole seconds that passed: a
     * worker count below one raises before any job starts; otherwise every
     * completion is counted and shown, and the summary follows, ending in
     * the success rate, which an empty list turns into a division by zero.
     * `out` holds the lines the main thread prints, not those of the jobs.
     */
    method BatchDownload(urls: seq<string>, completions: seq<Completion>, elapsed: nat)
      returns (result: BatchResult, out: seq<Out>)
      requires CompletesAll(completions, urls)
      ensures threadNum <= 0 ==> result == Crashed(MaxWorkersError) && out == Banner(|urls|)
      ensures threadNum > 0 ==> (result == BatchEnd(completions, |urls|)
        && out == Banner(|urls|) + ProgressOut(completions, |urls|) + Summary(completions, |urls|, elapsed))
    {
      CompletesAllCount(completions, urls);
      TallyTotal(completions);
      out := Banner(|urls|);
      if threadNum <= 0 {
        return Crashed(MaxWorkersError), out;
      }
      var successCount, failedCount, shown := CountCompletions(completions, |urls|);
      out := out + shown + [Line(""), Line(Rule), Line("\n批量下载完成!"), Line("总耗时: " + Clock(elapsed)),
                            Line("成功: " + NatToString(successCount) + ", 失败: " + NatToString(failedCount))];
      if |urls| == 0 {
        return Crashed(DivisionByZero), out;
      }
      out := out + [Rate(successCount, |urls|)];
      return Counted(successCount, failedCount), out;
    }

    /** The counting loop over `as_completed`. */
    method CountCompletions(completions: seq<Completion>, total: nat)
      returns (successCount: nat, failedCount: nat, out: seq<Out>)
      ensures successCount == Successes(completions) && failedCount == Failures(completions)
      ensures out == ProgressOut(completions, total)
    {
      successCount, failedCount, out := 0, 0, [];
      var i := 0;
      while i < |completions|
        invariant 0 <= i <= |completions|
        invariant successCount == Successes(completions[..i]) && failedCount == Failures(completions[..i])
        invariant out == ProgressOut(completions[..i], total)
      {
        var c := completions[i];
        var done := completions[..i];
        assert completions[..i + 1] == done + [c];
        assert (done + [c])[..|done|] == done && (done + [c])[|done|] == c;
        if Succeeded(c.1) {
          successCount := successCount + 1;
        } else {
          failedCount := failedCount + 1;
        }
        out := out + CompletionOut(done, c, total);
        i := i + 1;
      }
      assert completions[..i] == completions;
    }
  }

  // ---------------------------------------------------------------------
  // The batch

  /**
   * One `print` call of the batch. The progress line and the success rate
   * are shown as percentages with one decimal; the model keeps the counts
   * they are computed from.
   */
  datatype Out =
    | Line(text: string)
    | Progress(done: nat, total: nat, successes: nat, failures: nat)
    | Rate(successes: nat, total: nat)

  /** How `batch_download` ends: its two counts, or the exception it raises. */
  datatype BatchResult = Counted(successes: nat, failures: nat) | Crashed(error: string)

  /** `"=" * 60`. */
  const Rule: string := "============================================================"

  /** The two lines printed before any job is submitted. */
  function Banner(n: nat): seq<Out> {
    [Line("开始批量下载，共 " + NatToString(n) + " 个任务"), Line(Rule)]
  }

  /** What is printed when completion `c` arrives after `done`. */
  function CompletionOut(done: seq<Completion>, c: Completion, total: nat): seq<Out> {
    (if c.1.Raised? then [Line("✗ 处理失败: " + c.0 + " - " + c.1.error)] else [])
    + [Progress(|done| + 1, total, Successes(done + [c]), Failures(done + [c]))]
  }

  /** Everything printed while the completions `cs` arrive, in order. */
  function ProgressOut(cs: seq<Completion>, total: nat): seq<Out> {
    if cs == [] then []
    else ProgressOut(cs[..|cs| - 1], total) + CompletionOut(cs[..|cs| - 1], cs[|cs| - 1], total)
  }

  /**
   * Every progress line shows counts that add up to the jobs finished so
   * far, and after the last completion it shows the final counts.
   */
  lemma {:induction false} ProgressOutCounts(cs: seq<Completion>, total: nat)
    ensures forall o :: o in ProgressOut(cs, total) && o.Progress? ==>
      o.successes + o.failures == o.done <= |cs| && o.total == total
    ensures cs != [] ==> ProgressOut(cs, total)[|ProgressOut(cs, total)| - 1]
                         == Progress(|cs|, total, Successes(cs), Failures(cs))
  {
    if cs != [] {
      var done := cs[..|cs| - 1];
      ProgressOutCounts(done, total);
      assert done + [cs[|cs| - 1]] == cs;
      TallyTotal(cs);
    }
  }

  /** `f"{n:02d}"`. */
  function Pad2(n: nat): string {
    if n < 10 then "0" + NatToString(n) else NatToString(n)
  }

  /** The elapsed time as `minutes:seconds`, each at least two digits. */
  function Clock(elapsed: nat): string {
    Pad2(elapsed / 60) + ":" + Pad2(elapsed % 60)
  }

  /** Padding keeps a numeral's value and gives it at least two digits. */
  lemma Pad2Value(n: nat)
    ensures |Pad2(n)| >= 2 && (n < 100 ==> |Pad2(n)| == 2)
    ensures forall c :: c in Pad2(n) ==> IsDigit(c)
    ensures DigitsValue(Pad2(n)) == n
  {
    NatToStringValue(n);
    if n < 10 {
      var s := Pad2(n);
      assert s[..|s| - 1] == "0";
      assert DigitsValue("0") == 0 by { assert "0"[..0] == []; }
    } else if n < 100 {
      assert NatToString(n) == NatToString(n / 10) + [DigitChar(n % 10)];
    }
  }

  /** The time shown reads back as the elapsed seconds: two-digit seconds after the colon. */
  lemma ClockReadBack(elapsed: nat)
    ensures var c := Clock(elapsed);
      |c| >= 5 && c[|c| - 3] == ':'
      && DigitsValue(c[..|c| - 3]) * 60 + DigitsValue(c[|c| - 2..]) == elapsed
  {
    var m, s := Pad2(elapsed / 60), Pad2(elapsed % 60);
    Pad2Value(elapsed / 60);
    Pad2Value(elapsed % 60);
    var c := Clock(elapsed);
    assert c[..|c| - 3] == m && c[|c| - 2..] == s;
  }

  /** The result a pool with workers reaches once every completion is counted. */
  function BatchEnd(cs: seq<Completion>, n: nat): BatchResult {
    if n == 0 then Crashed(DivisionByZero) else Counted(Successes(cs), Failures(cs))
  }

  /** The summary printed after the pool is done. */
  function Summary(cs: seq<Completion>, n: nat, elapsed: nat): seq<Out> {
    [Line(""), Line(Rule), Line("\n批量下载完成!"), Line("总耗时: " + Clock(elapsed)),
     Line("成功: " + NatToString(Successes(cs)) + ", 失败: " + NatToString(Failures(cs)))]
    + (if n == 0 then [] else [Rate(Successes(cs), n)])
  }

  /**
   * With workers and a non-empty list, the batch returns counts that
   * account for every URL exactly once; the rate it prints is over the
   * whole list.
   */
  lemma BatchEndCounts(cs: seq<Completion>, urls: seq<string>, elapsed: nat)
    requires CompletesAll(cs, urls) && urls != []
    ensures BatchEnd(cs, |urls|).Counted?
    ensures BatchEnd(cs, |urls|).successes + BatchEnd(cs, |urls|).failures == |urls|
    ensures Summary(cs, |urls|, elapsed)[5] == Rate(BatchEnd(cs, |urls|).successes, |urls|)
  {
    CompletesAllCount(cs, urls);
  }

  // ---------------------------------------------------------------------
  // main

  /** `[url.strip() for url in text.split(',')]`: blank pieces are kept, as empty URLs. */
  function ParseUrlList(text: string): seq<string> {
    var parts := Split(text, ',');
    seq(|parts|, k requires 0 <= k < |parts| => Strip(parts[k]))
  }

  /** One URL per comma-separated piece, each stripped, in order. */
  lemma ParseUrlListShape(text: string)
    ensures |ParseUrlList(text)| == multiset(text)[','] + 1
    ensures forall k :: 0 <= k < |ParseUrlList(text)| ==>
      ParseUrlList(text)[k] == Strip(Split(text, ',')[k]) && Stripped(ParseUrlList(text)[k])
  {
    SplitCount(text, ',');
  }

  /**
   * What one answer to the prompt yields: the typed URLs when the line is
   * not blank, else the configured list when its first entry is not empty,
   * else nothing (an error is printed and the prompt repeats).
   */
  function Choose(line: string, segments: seq<string>): Option<seq<string>> {
    if !Blank(line) then Some(ParseUrlList(Strip(line)))
    else if segments != [] && segments[0] != [] then Some(segments)
    else None
  }

  /** The list chosen by the first answer that yields one, and how many answers were refused before it. */
  function FirstChoice(inputs: seq<string>, segments: seq<string>): (Option<seq<string>>, nat) {
    if inputs == [] then (None, 0)
    else
      match Choose(inputs[0], segments)
      case Some(us) => (Some(us), 0)
      case None =>
        var r := FirstChoice(inputs[1..], segments);
        (r.0, r.1 + 1)
  }

  /** Whatever the prompt loop settles on is never an empty list. */
  lemma {:induction false} FirstChoiceNonEmpty(inputs: seq<string>, segments: seq<string>)
    ensures FirstChoice(inputs, segments).0.Some? ==> FirstChoice(inputs, segments).0.value != []
    ensures FirstChoice(inputs, segments).1 <= |inputs|
  {
    if inputs != [] {
      FirstChoiceNonEmpty(inputs[1..], segments);
    }
  }

  /**
   * The loop settles as soon as some answer is not blank, and at the very
   * first answer when the configured list is usable.
   */
  lemma {:induction false} FirstChoiceSettles(inputs: seq<string>, segments: seq<string>, k: nat)
    requires k < |inputs| && (!Blank(inputs[k]) || (segments != [] && segments[0] != []))
    ensures FirstChoice(inputs, segments).0.Some? && FirstChoice(inputs, segments).1 <= k
  {
    if Choose(inputs[0], segments).None? {
      FirstChoiceSettles(inputs[1..], segments, k - 1);
    }
  }

  /** One answer of the prompt loop: it either settles the choice or is refused and the loop goes on. */
  lemma FirstChoiceStep(inputs: seq<string>, segments: seq<string>)
    requires inputs != []
    ensures FirstChoice(inputs, segments)
      == if Choose(inputs[0], segments).Some? then (Choose(inputs[0], segments), 0)
         else (FirstChoice(inputs[1..], segments).0, FirstChoice(inputs[1..], segments).1 + 1)
  {
  }

  const NoUrls: string := "错误: 没有提供M3U8链接"

  /**
   * The prompt loop of `main` over the lines typed (`inputs`); it has an
   * answer only when some line yields a list before the input runs out,
   * and prints the error once for every line it refuses.
   */
  method ReadUrls(inputs: seq<string>, segments: seq<string>) returns (urls: Option<seq<string>>, complaints: seq<string>)
    ensures urls == FirstChoice(inputs, segments).0
    ensures |complaints| == FirstChoice(inputs, segments).1
    ensures forall k :: 0 <= k < |complaints| ==> complaints[k] == NoUrls
  {
    complaints := [];
    var i := 0;
    while i < |inputs|
      invariant 0 <= i <= |inputs|
      invariant FirstChoice(inputs, segments) == (FirstChoice(inputs[i..], segments).0, FirstChoice(inputs[i..], segments).1 + |complaints|)
      invariant forall k :: 0 <= k < |complaints| ==> complaints[k] == NoUrls
    {
      var line := inputs[i];
      FirstChoiceStep(inputs[i..], segments);
      assert inputs[i..][0] == line && inputs[i..][1..] == inputs[i + 1..];
      match Choose(line, segments) {
        case Some(us) =>
          return Some(us), complaints;
        case None =>
          complaints := complaints + [NoUrls];
      }
      i := i + 1;
    }
    urls := None;
  }

  /** The four lines `main` prints before anything else. */
  const MainBanner: seq<Out> := [Line(Rule), Line("M3U8视频下载工具"), Line("支持: 小鹅通、腾讯云、阿里云等多种M3U8格式"), Line(Rule)]

  /** The three lines `main` prints once the batch is over. */
  const Closing: seq<Out> := [Line("\n所有任务处理完成!"), Line("视频已保存至: " + OutputDir), Line(Rule)]

  /**
   * `main`: print the banner, create the output directory, read the URLs,
   * and download them with a default downloader. When the input runs out
   * before a list is chosen, `input()` raises and nothing more is printed
   * or downloaded. Otherwise the list is not empty and the pool has
   * workers, so the batch ends with counts for every URL, never divides by
   * zero, and the closing lines follow its output.
   */
  method Run(fs: FileSystem, inputs: seq<string>, segments: seq<string>, completions: seq<Completion>, elapsed: nat)
    returns (urls: Option<seq<string>>, result: Option<BatchResult>, printed: seq<Out>)
    requires FirstChoice(inputs, segments).0.Some? ==> CompletesAll(completions, FirstChoice(inputs, segments).0.value)
    modifies fs
    ensures fs.dirs == old(fs.dirs) + {OutputDir} && fs.files == old(fs.files)
    ensures urls == FirstChoice(inputs, segments).0
    ensures result.Some? <==> urls.Some?
    ensures urls.Some? ==> (result.value == Counted(Successes(completions), Failures(completions))
                            && result.value.successes + result.value.failures == |urls.value|)
    ensures printed == MainBanner + seq(FirstChoice(inputs, segments).1, _ => Line(NoUrls))
      + (if urls.Some? then
           Banner(|urls.value|) + ProgressOut(completions, |urls.value|) + Summary(completions, |urls.value|, elapsed)
           + Closing
         else [])
  {
    printed := MainBanner;
    fs.MakeDirs(OutputDir);
    var complaints;
    urls, complaints := ReadUrls(inputs, segments);
    assert seq(|complaints|, k requires 0 <= k < |complaints| => Line(complaints[k]))
        == seq(FirstChoice(inputs, segments).1, _ => Line(NoUrls));
    printed := printed + seq(|complaints|, k requires 0 <= k < |complaints| => Line(complaints[k]));
    result := None;
    if urls.Some? {
      FirstChoiceNonEmpty(inputs, segments);
      var downloader := new Downloader(OutputDir, ThreadNum);
      var r, out := downloader.BatchDownload(urls.value, completions, elapsed);
      BatchEndCounts(completions, urls.value, elapsed);
      result := Some(r);
      printed := printed + out + Closing;
    }
  }
}
