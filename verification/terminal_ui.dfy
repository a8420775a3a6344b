/**
 * The curses front-end (`m3u8_terminal_ui.py`): its downloader, which
 * rewrites playlists and hands ffmpeg a header block with Referer and
 * Origin, and the menu state it keeps between key presses.
 */
module TerminalUi {
  import opened Wrappers
  import opened Text
  import opened Urls
  import opened Playlist
  import opened Naming
  import opened Headers
  import opened Remux
  import opened Fetch
  import opened Workspace
  import opened Job
  import opened Batch
  import opened Logs

  const DefaultThreadNum: int := 8
  const DefaultOutputDir: string := "./video_output"
  const DefaultTimeout: int := 60
  const DefaultRetryCount: int := 3

  /** `DEFAULT_HEADERS`, in its declared order. */
  const DefaultHeaders: Entries := [
    ("Accept", "*/*"),
    ("User-Agent", BrowserAgent),
    ("Referer", "https://"),
    ("Accept-Language", "zh-CN,zh;q=0.9,en;q=0.8"),
    ("Connection", "keep-alive"),
    ("Accept-Encoding", "gzip, deflate, br"),
    ("Origin", "https://")
  ]

  /** The header update at the start of `process_m3u8`. */
  function WithRefererOrigin(h: Entries, url: string): Entries {
    Assign(Assign(h, "Referer", Referer(url)), "Origin", Origin(url))
  }

  /**
   * After the update, Referer reads `scheme://netloc/` and Origin
   * `scheme://netloc`, every other header reads as before, and on the
   * default headers (which hold both keys already) the key order is kept.
   */
  lemma RefererOriginUpdate(h: Entries, url: string, other: string, default: string)
    requires other != "Referer" && other != "Origin"
    ensures Get(WithRefererOrigin(h, url), "Referer", default) == Referer(url)
    ensures Get(WithRefererOrigin(h, url), "Origin", default) == Origin(url)
    ensures Get(WithRefererOrigin(h, url), other, default) == Get(h, other, default)
    ensures "Referer" in Keys(h) && "Origin" in Keys(h) ==> Keys(WithRefererOrigin(h, url)) == Keys(h)
  {
    var h1 := Assign(h, "Referer", Referer(url));
    AssignGet(h, "Referer", Referer(url), default);
    AssignGetOther(h1, "Origin", Origin(url), "Referer", default);
    AssignGet(h1, "Origin", Origin(url), default);
    AssignGetOther(h, "Referer", Referer(url), other, default);
    AssignGetOther(h1, "Origin", Origin(url), other, default);
    AssignKeys(h, "Referer", Referer(url));
    AssignKeys(h1, "Origin", Origin(url));
  }

  /** `M3UDownloader` of the terminal front-end. */
  class Downloader {
    const outputDir: string
    const threadNum: int
    /** The header dict it was given, shared with every other holder (by default `DEFAULT_HEADERS`). */
    const headers: HeaderTable
    const timeout: int
    const retryCount: int

    constructor (outputDir: string, threadNum: int, headers: HeaderTable, timeout: int, retryCount: int)
      ensures this.outputDir == outputDir && this.threadNum == threadNum && this.headers == headers
      ensures this.timeout == timeout && this.retryCount == retryCount
    {
      this.outputDir := outputDir;
      this.threadNum := threadNum;
      this.headers := headers;
      this.timeout := timeout;
      this.retryCount := retryCount;
    }

    /**
     * `process_m3u8`: the shared headers get the new Referer and Origin, the
     * outcome is as `Processed` says, and the temporary directory with
     * everything in it is gone afterwards on every path, while nothing
     * outside it changed.
     */
    method ProcessM3u8(url: string, outputFilename: string, fs: FileSystem, server: Server, ffmpeg: Ffmpeg, now: int)
      returns (ok: bool, message: string, ran: Option<seq<string>>)
      modifies headers, fs
      ensures headers.entries == WithRefererOrigin(old(headers.entries), url)
      ensures Processed(url, outputFilename, outputDir, headers.entries, server, retryCount, ffmpeg,
                        PlaylistPath(TempDir(outputDir, now)), ok, message, ran)
      ensures fs.dirs == PrunedDirs(old(fs.dirs), TempDir(outputDir, now))
      ensures fs.files == Pruned(old(fs.files), TempDir(outputDir, now))
      ensures !fs.Exists(TempDir(outputDir, now))
    {
      var temp := TempDir(outputDir, now);
      fs.MakeDirs(temp);
      headers.Set("Referer", Referer(url));
      headers.Set("Origin", Origin(url));
      var playlistPath := PlaylistPath(temp);
      ghost var files0 := fs.files;
      ok, message, ran := Convert(url, outputFilename, fs, server, ffmpeg, playlistPath);
      ghost var files1 := fs.files;
      if fs.Exists(temp) {
        fs.RemoveTree(temp);
      }
      PlaylistInTemp(temp);
      PrunedSameOutside(files1, files0, playlistPath, temp);
      PrunedDirsCreate(old(fs.dirs), temp);
    }

    /**
     * `download_m3u8`: the output name is the one given when non-empty,
     * otherwise derived from the URL (with `nameTime` as the fallback's
     * timestamp), and the job is `process_m3u8` under that name.
     */
    method DownloadM3u8(url: string, given: Option<string>, fs: FileSystem, server: Server, ffmpeg: Ffmpeg, nameTime: int, now: int)
      returns (ok: bool, message: string, ran: Option<seq<string>>)
      modifies headers, fs
      ensures headers.entries == WithRefererOrigin(old(headers.entries), url)
      ensures Processed(url, OutputName(url, given, nameTime), outputDir, headers.entries, server, retryCount, ffmpeg,
                        PlaylistPath(TempDir(outputDir, now)), ok, message, ran)
      ensures fs.dirs == PrunedDirs(old(fs.dirs), TempDir(outputDir, now))
      ensures fs.files == Pruned(old(fs.files), TempDir(outputDir, now))
    {
      var outputFilename := OutputName(url, given, nameTime);
      ok, message, ran := ProcessM3u8(url, outputFilename, fs, server, ffmpeg, now);
    }

    /**
     * The body of `process_m3u8`'s `try` once the headers are set: fetch,
     * check, rewrite, build the command and run ffmpeg. Only the playlist
     * file is written.
     */
    method Convert(url: string, outputFilename: string, fs: FileSystem, server: Server, ffmpeg: Ffmpeg, playlistPath: string)
      returns (ok: bool, message: string, ran: Option<seq<string>>)
      modifies fs
      ensures Processed(url, outputFilename, outputDir, headers.entries, server, retryCount, ffmpeg, playlistPath, ok, message, ran)
      ensures fs.dirs == old(fs.dirs) && SameOutside(fs.files, old(fs.files), playlistPath)
    {
      ok, message, ran := false, "", None;
      var fetched, _, _, _ := DownloadFile(fs, playlistPath, server, retryCount);
      if !fetched {
        ok, message := false, NotFetchedMessage(url);
      } else if !IsM3u8File(fs.files[playlistPath]) {
        ok, message := false, NotPlaylistMessage(url);
      } else {
        var content := ReadText(fs.files[playlistPath]).value;
        var updated := RewritePlaylist(url, content);
        fs.WriteFile(playlistPath, Payload(updated, true));
        var outputPath := PathJoin(outputDir, outputFilename);
        var block := BuildHeaderBlock(headers.entries);
        var argv := FfmpegArgs(block, playlistPath, headers.Lookup("User-Agent", ""), outputPath);
        ran := Some(argv);
        var result := ffmpeg(argv, fs.files[playlistPath]);
        ok, message := Report(result, outputFilename).0, Report(result, outputFilename).1;
      }
    }
  }

  // ---------------------------------------------------------------------
  // The menu front-end

  /** How many log lines the terminal keeps. */
  const LogCapacity: nat := 20

  /** Key codes `get_user_input` reacts to. */
  const Enter: int := 10
  const Escape: int := 27
  const Backspace: int := 127

  /** A key code of a printable ASCII character, the only ones the editor inserts. */
  predicate IsPrintable(key: int) {
    32 <= key <= 126
  }

  /** The effect of a key other than Enter and Escape on the input line. */
  function EditKey(field: string, key: int): string {
    if key == Backspace then (if field != [] then field[..|field| - 1] else field)
    else if IsPrintable(key) then field + [key as char]
    else field
  }

  /** The input line after typing `keys` (none of them Enter or Escape) into an empty line. */
  function Typed(keys: seq<int>): string {
    if keys == [] then "" else EditKey(Typed(keys[..|keys| - 1]), keys[|keys| - 1])
  }

  /** The first Enter or Escape among `keys`, which ends the editing. */
  function StopIndex(keys: seq<int>): (r: Option<nat>)
    ensures r.Some? ==> r.value < |keys| && (keys[r.value] == Enter || keys[r.value] == Escape)
    ensures r.Some? ==> forall j :: 0 <= j < r.value ==> keys[j] != Enter && keys[j] != Escape
    ensures r.None? ==> forall j :: 0 <= j < |keys| ==> keys[j] != Enter && keys[j] != Escape
  {
    if keys == [] then None
    else if keys[0] == Enter || keys[0] == Escape then Some(0)
    else match StopIndex(keys[1..])
      case Some(k) => Some(k + 1)
      case None => None
  }

  /** The line only ever holds printable ASCII characters. */
  lemma {:induction false} TypedPrintable(keys: seq<int>)
    ensures forall c :: c in Typed(keys) ==> IsPrintable(c as int)
  {
    if keys != [] {
      var before := Typed(keys[..|keys| - 1]);
      var key := keys[|keys| - 1];
      TypedPrintable(keys[..|keys| - 1]);
      assert Typed(keys) == EditKey(before, key);
      if key == Backspace && before != [] {
        var after := before[..|before| - 1];
        assert Typed(keys) == after;
        forall c | c in after
          ensures IsPrintable(c as int)
        {
          var i :| 0 <= i < |after| && after[i] == c;
          assert before[i] == c && c in before;
        }
      } else if key != Backspace && IsPrintable(key) {
        var after := before + [key as char];
        assert Typed(keys) == after;
        forall c | c in after
          ensures IsPrintable(c as int)
        {
          var i :| 0 <= i < |after| && after[i] == c;
          if i < |before| {
            assert before[i] == c && c in before;
          }
        }
      }
    }
  }

  /** The key codes of a string. */
  function Codes(s: string): (keys: seq<int>)
    ensures |keys| == |s| && forall i :: 0 <= i < |s| ==> keys[i] == s[i] as int
  {
    seq(|s|, i requires 0 <= i < |s| => s[i] as int)
  }

  /** Typing a printable string character by character puts exactly that string on the line. */
  lemma {:induction false} TypedCodes(s: string)
    requires forall c :: c in s ==> IsPrintable(c as int)
    ensures Typed(Codes(s)) == s
  {
    if s != [] {
      var t := s[..|s| - 1];
      assert Codes(s)[..|s| - 1] == Codes(t);
      assert forall c :: c in t ==> c in s;
      TypedCodes(t);
      var c := s[|s| - 1];
      assert c in s;
      assert IsPrintable(c as int);
      assert s == t + [c];
    }
  }

  /** Backspace deletes the last character typed, and does nothing on an empty line. */
  lemma TypedBackspace(keys: seq<int>)
    ensures var before := Typed(keys);
      Typed(keys + [Backspace]) == if before == [] then [] else before[..|before| - 1]
  {
    assert (keys + [Backspace])[..|keys|] == keys;
  }

  /** What `get_user_input` returns: the line on Enter, `None` on Escape; `Waiting` if the keys ran out first. */
  datatype InputResult = Entered(text: string) | Cancelled | Waiting

  /** What `get_user_input` returns after reading `keys`. */
  function InputOf(keys: seq<int>): InputResult {
    match StopIndex(keys)
    case Some(k) => if keys[k] == Enter then Entered(Typed(keys[..k])) else Cancelled
    case None => Waiting
  }

  /** The editor's line and mode after reading `keys`. */
  predicate EditorState(keys: seq<int>, field: string, inInputMode: bool) {
    match StopIndex(keys)
    case Some(k) => field == Typed(keys[..k]) && !inInputMode
    case None => field == Typed(keys) && inInputMode
  }

  /** An entered line holds only printable ASCII, so `isdigit` means ASCII digits here. */
  lemma InputPrintable(keys: seq<int>)
    ensures InputOf(keys).Entered? ==> forall c :: c in InputOf(keys).text ==> IsPrintable(c as int)
  {
    match StopIndex(keys)
    case Some(k) => TypedPrintable(keys[..k]);
    case None =>
  }

  /**
   * What `handle_menu` returns: `True`, `False`, or nothing (the early
   * returns of choice 4); `Crashed` when an exception leaves it, `Blocked`
   * when it is still waiting for a key.
   */
  datatype MenuResult = Continue | Quit | NoValue | Crashed(error: string) | Blocked

  /**
   * `run` leaves its loop when `handle_menu`'s result is falsy, which
   * `NoValue` is as much as `Quit`.
   */
  predicate KeepsRunning(r: MenuResult) {
    r == Continue
  }

  /** The log line of one finished job, and its colour. */
  function CompletionLog(c: Completion): (string, int) {
    match c.1
    case Returned(ok, message) =>
      if ok then ("✓ " + c.0 + " - " + message, 1) else ("✗ " + c.0 + " - " + message, 2)
    case Raised(error) => ("✗ " + c.0 + " - 处理失败: " + error, 2)
  }

  /** The log lines of finished jobs, in completion order. */
  function CompletionLogs(cs: seq<Completion>): (ls: seq<(string, int)>)
    ensures |ls| == |cs| && forall k :: 0 <= k < |cs| ==> ls[k] == CompletionLog(cs[k])
  {
    seq(|cs|, k requires 0 <= k < |cs| => CompletionLog(cs[k]))
  }

  /** The closing line of a batch. */
  function SummaryLog(successCount: nat, failedCount: nat): (string, int) {
    ("下载完成! 成功: " + IntToString(successCount) + ", 失败: " + IntToString(failedCount), 1)
  }

  /** Everything choice 4 logs, in order. */
  function StartLogs(urls: seq<string>, ffmpegFound: bool, threadNum: int, cs: seq<Completion>): seq<(string, int)> {
    if urls == [] then [("没有添加任何M3U8链接!", 2)]
    else if !ffmpegFound then [("开始下载...", 1), ("错误: 未找到ffmpeg，请先安装!", 2)]
    else if threadNum <= 0 then [("开始下载...", 1)]
    else [("开始下载...", 1)] + (CompletionLogs(cs) + [SummaryLog(Successes(cs), Failures(cs))])
  }

  /** What choice 4 returns. */
  function StartResult(urls: seq<string>, ffmpegFound: bool, threadNum: int): MenuResult {
    if urls == [] || !ffmpegFound then NoValue
    else if threadNum <= 0 then Crashed(MaxWorkersError)
    else Continue
  }

  /**
   * Starting a download with no links, or without ffmpeg, ends the whole
   * session: the early `return` hands `run` a falsy value.
   */
  lemma EarlyStartEndsSession(urls: seq<string>, ffmpegFound: bool, threadNum: int)
    requires urls == [] || !ffmpegFound
    ensures !KeepsRunning(StartResult(urls, ffmpegFound, threadNum))
  {
  }

  /** Choice 1: a non-blank entered line is added, stripped, and logged. */
  predicate UrlAdded(urls0: seq<string>, logs0: seq<(string, int)>, keys: seq<int>, urls: seq<string>, logs: seq<(string, int)>) {
    var input := InputOf(keys);
    if input.Entered? && Strip(input.text) != [] then
      urls == urls0 + [Strip(input.text)] && logs == Push(logs0, ("已添加M3U8链接: " + Strip(input.text), 1), LogCapacity)
    else urls == urls0 && logs == logs0
  }

  /**
   * Choice 2: a non-blank entered line becomes the output directory; a
   * blank or cancelled one only logs that the default is used (the
   * directory itself stays as it was).
   */
  predicate DirSet(dir0: string, logs0: seq<(string, int)>, keys: seq<int>, dir: string, logs: seq<(string, int)>) {
    var input := InputOf(keys);
    if input == Waiting then dir == dir0 && logs == logs0
    else if input.Entered? && Strip(input.text) != [] then
      dir == Strip(input.text) && logs == Push(logs0, ("已设置输出目录: " + Strip(input.text), 1), LogCapacity)
    else dir == dir0 && logs == Push(logs0, ("使用默认输出目录: ./video_output", 1), LogCapacity)
  }

  /** Choice 3: an entered, non-empty run of digits becomes the thread count. */
  predicate ThreadsSet(n0: int, logs0: seq<(string, int)>, keys: seq<int>, n: int, logs: seq<(string, int)>) {
    var input := InputOf(keys);
    if input.Entered? && input.text != [] && forall c :: c in input.text ==> IsDigit(c) then
      n == DigitsValue(input.text) && logs == Push(logs0, ("已设置线程数: " + input.text, 1), LogCapacity)
    else n == n0 && logs == logs0
  }

  /** The menu never sets a negative thread count, but it does accept 0. */
  lemma ThreadsSetBounds(n0: int, logs0: seq<(string, int)>, keys: seq<int>, n: int, logs: seq<(string, int)>)
    requires ThreadsSet(n0, logs0, keys, n, logs)
    ensures n0 >= 0 ==> n >= 0
    ensures keys == [48, Enter] ==> n == 0
  {
    if keys == [48, Enter] {
      assert StopIndex(keys) == Some(1);
      assert keys[..1] == [48];
      assert Typed([48]) == "0" by {
        assert [48][..0] == [];
      }
      assert "0"[..0] == [];
    }
  }

  /** `M3UTerminalUI`: the menu's state between key presses. */
  class App {
    var urls: seq<string>
    var outputDir: string
    var threadNum: int
    var timeout: int
    var retryCount: int
    var logs: seq<(string, int)>
    var inputField: string
    var inInputMode: bool

    constructor ()
      ensures urls == [] && outputDir == DefaultOutputDir && threadNum == DefaultThreadNum
      ensures timeout == DefaultTimeout && retryCount == DefaultRetryCount
      ensures logs == [] && inputField == "" && !inInputMode
    {
      urls := [];
      outputDir := DefaultOutputDir;
      threadNum := DefaultThreadNum;
      timeout := DefaultTimeout;
      retryCount := DefaultRetryCount;
      logs := [];
      inputField := "";
      inInputMode := false;
    }

    /** `add_log`: append, dropping the oldest line past 20, so the newest 20 lines remain. */
    method AddLog(message: string, color: int)
      modifies this`logs
      ensures logs == Push(old(logs), (message, color), LogCapacity)
      ensures |old(logs)| <= LogCapacity ==> logs == LastN(old(logs) + [(message, color)], LogCapacity)
    {
      logs := logs + [(message, color)];
      if |logs| > LogCapacity {
        logs := logs[1..];
      }
    }

    /**
     * `get_user_input`: read keys until Enter (return the line) or Escape
     * (return nothing), editing the line with Backspace and printable keys
     * and ignoring every other key.
     */
    method GetUserInput(keys: seq<int>) returns (r: InputResult, used: nat)
      modifies this`inputField, this`inInputMode
      ensures r == InputOf(keys) && EditorState(keys, inputField, inInputMode)
      ensures used == match StopIndex(keys) case Some(k) => k + 1 case None => |keys|
    {
      inInputMode := true;
      inputField := "";
      var i := 0;
      while i < |keys|
        invariant 0 <= i <= |keys|
        invariant inputField == Typed(keys[..i]) && inInputMode
        invariant forall j :: 0 <= j < i ==> keys[j] != Enter && keys[j] != Escape
      {
        var key := keys[i];
        assert keys[..i + 1][..i] == keys[..i];
        if key == Enter {
          inInputMode := false;
          return Entered(inputField), i + 1;
        } else if key == Escape {
          inInputMode := false;
          return Cancelled, i + 1;
        } else if key == Backspace {
          if inputField != [] {
            inputField := inputField[..|inputField| - 1];
          }
        } else if 32 <= key <= 126 {
          inputField := inputField + [key as char];
        }
        i := i + 1;
      }
      assert keys[..|keys|] == keys;
      return Waiting, |keys|;
    }

    /**
     * Choice 4 of `handle_menu`: refuse an empty list, create the output
     * directory, refuse without ffmpeg, then count the finished jobs as
     * they arrive. The counts equal the successes and failures among all
     * jobs whatever the completion order, and add up to the number of
     * links.
     */
    method StartDownload(fs: FileSystem, ffmpegFound: bool, completions: seq<Completion>)
      returns (r: MenuResult, successCount: nat, failedCount: nat)
      requires CompletesAll(completions, urls)
      modifies this`logs, fs
      ensures r == StartResult(urls, ffmpegFound, threadNum)
      ensures logs == PushAll(old(logs), StartLogs(urls, ffmpegFound, threadNum, completions), LogCapacity)
      ensures fs.dirs == (if urls == [] then old(fs.dirs) else old(fs.dirs) + {outputDir})
      ensures fs.files == old(fs.files)
      ensures r == Continue ==> successCount == Successes(completions) && failedCount == Failures(completions)
      ensures r == Continue ==> successCount + failedCount == |urls|
    {
      successCount, failedCount := 0, 0;
      var start := ("开始下载...", 1);
      if urls == [] {
        AddLog("没有添加任何M3U8链接!", 2);
        PushAllSingle(old(logs), ("没有添加任何M3U8链接!", 2), LogCapacity);
        return NoValue, 0, 0;
      }
      AddLog(start.0, start.1);
      ghost var logs1 := logs;
      PushAllSingle(old(logs), start, LogCapacity);
      fs.MakeDirs(outputDir);
      if !ffmpegFound {
        var missing := ("错误: 未找到ffmpeg，请先安装!", 2);
        AddLog(missing.0, missing.1);
        PushAllSingle(logs1, missing, LogCapacity);
        PushAllAppend(old(logs), [start], [missing], LogCapacity);
        return NoValue, 0, 0;
      }
      if threadNum <= 0 {
        return Crashed(MaxWorkersError), 0, 0;
      }
      successCount, failedCount := CountCompletions(completions);
      ghost var logs2 := logs;
      var summary := SummaryLog(successCount, failedCount);
      AddLog(summary.0, summary.1);
      CompletesAllCount(completions, urls);
      PushAllSingle(logs2, summary, LogCapacity);
      PushAllAppend(logs1, CompletionLogs(completions), [summary], LogCapacity);
      PushAllAppend(old(logs), [start], CompletionLogs(completions) + [summary], LogCapacity);
      return Continue, successCount, failedCount;
    }

    /**
     * The `as_completed` loop of choice 4: one log line per finished job,
     * and after the i-th job the two counts add up to i.
     */
    method CountCompletions(completions: seq<Completion>) returns (successCount: nat, failedCount: nat)
      modifies this`logs
      ensures successCount == Successes(completions) && failedCount == Failures(completions)
      ensures successCount + failedCount == |completions|
      ensures logs == PushAll(old(logs), CompletionLogs(completions), LogCapacity)
    {
      successCount, failedCount := 0, 0;
      var i := 0;
      while i < |completions|
        invariant 0 <= i <= |completions|
        invariant successCount == Successes(completions[..i]) && failedCount == Failures(completions[..i])
        invariant successCount + failedCount == i
        invariant logs == PushAll(old(logs), CompletionLogs(completions[..i]), LogCapacity)
      {
        var (url, outcome) := completions[i];
        assert completions[..i + 1][..i] == completions[..i];
        assert CompletionLogs(completions[..i + 1]) == CompletionLogs(completions[..i]) + [CompletionLog(completions[i])];
        PushAllAppend(old(logs), CompletionLogs(completions[..i]), [CompletionLog(completions[i])], LogCapacity);
        match outcome {
          case Returned(ok, message) =>
            if ok {
              successCount := successCount + 1;
              AddLog("✓ " + url + " - " + message, 1);
            } else {
              failedCount := failedCount + 1;
              AddLog("✗ " + url + " - " + message, 2);
            }
          case Raised(error) =>
            failedCount := failedCount + 1;
            AddLog("✗ " + url + " - 处理失败: " + error, 2);
        }
        i := i + 1;
      }
      assert completions[..|completions|] == completions;
    }

    /** Choice 1: ask for a link and add it. */
    method AddUrl(keys: seq<int>) returns (r: MenuResult)
      modifies this`urls, this`logs, this`inputField, this`inInputMode
      ensures UrlAdded(old(urls), old(logs), keys, urls, logs)
      ensures EditorState(keys, inputField, inInputMode)
      ensures r == if InputOf(keys) == Waiting then Blocked else Continue
    {
      var input, _ := GetUserInput(keys);
      if input == Waiting {
        return Blocked;
      }
      if input.Entered? && Strip(input.text) != [] {
        urls := urls + [Strip(input.text)];
        AddLog("已添加M3U8链接: " + Strip(input.text), 1);
      }
      return Continue;
    }

    /** Choice 2: ask for the output directory. */
    method SetOutputDir(keys: seq<int>) returns (r: MenuResult)
      modifies this`outputDir, this`logs, this`inputField, this`inInputMode
      ensures DirSet(old(outputDir), old(logs), keys, outputDir, logs)
      ensures EditorState(keys, inputField, inInputMode)
      ensures r == if InputOf(keys) == Waiting then Blocked else Continue
    {
      var input, _ := GetUserInput(keys);
      if input == Waiting {
        return Blocked;
      }
      if input.Entered? && Strip(input.text) != [] {
        outputDir := Strip(input.text);
        AddLog("已设置输出目录: " + Strip(input.text), 1);
      } else {
        AddLog("使用默认输出目录: ./video_output", 1);
      }
      return Continue;
    }

    /** Choice 3: ask for the thread count. */
    method SetThreadNum(keys: seq<int>) returns (r: MenuResult)
      modifies this`threadNum, this`logs, this`inputField, this`inInputMode
      ensures ThreadsSet(old(threadNum), old(logs), keys, threadNum, logs)
      ensures EditorState(keys, inputField, inInputMode)
      ensures r == if InputOf(keys) == Waiting then Blocked else Continue
    {
      var input, _ := GetUserInput(keys);
      if input == Waiting {
        return Blocked;
      }
      if input.Entered? && input.text != [] && forall c :: c in input.text ==> IsDigit(c) {
        threadNum := DigitsValue(input.text);
        AddLog("已设置线程数: " + input.text, 1);
      }
      return Continue;
    }

    /**
     * `handle_menu`: dispatch on the digit pressed. Choice 5 (the log
     * screen) only draws; choice 6 logs and answers `False`; other digits
     * answer `True`.
     */
    method HandleMenu(choice: char, keys: seq<int>, fs: FileSystem, ffmpegFound: bool, completions: seq<Completion>)
      returns (r: MenuResult)
      requires choice == '4' ==> CompletesAll(completions, urls)
      modifies this`urls, this`outputDir, this`threadNum, this`logs, this`inputField, this`inInputMode, fs
      ensures choice == '1' ==> UrlAdded(old(urls), old(logs), keys, urls, logs) && EditorState(keys, inputField, inInputMode)
      ensures choice == '2' ==> DirSet(old(outputDir), old(logs), keys, outputDir, logs) && EditorState(keys, inputField, inInputMode)
      ensures choice == '3' ==> ThreadsSet(old(threadNum), old(logs), keys, threadNum, logs) && EditorState(keys, inputField, inInputMode)
      ensures choice in "123" ==> r == if InputOf(keys) == Waiting then Blocked else Continue
      ensures choice == '4' ==> r == StartResult(old(urls), ffmpegFound, old(threadNum))
      ensures choice == '4' ==> logs == PushAll(old(logs), StartLogs(old(urls), ffmpegFound, old(threadNum), completions), LogCapacity)
      ensures choice == '4' ==> fs.dirs == (if old(urls) == [] then old(fs.dirs) else old(fs.dirs) + {old(outputDir)})
      ensures choice == '6' ==> r == Quit && logs == Push(old(logs), ("退出程序...", 1), LogCapacity)
      ensures choice !in "12346" ==> r == Continue && logs == old(logs)
      ensures choice != '1' ==> urls == old(urls)
      ensures choice != '2' ==> outputDir == old(outputDir)
      ensures choice != '3' ==> threadNum == old(threadNum)
      ensures choice !in "123" ==> inputField == old(inputField) && inInputMode == old(inInputMode)
      ensures fs.files == old(fs.files) && (choice != '4' ==> fs.dirs == old(fs.dirs))
    {
      if choice == '1' {
        r := AddUrl(keys);
      } else if choice == '2' {
        r := SetOutputDir(keys);
      } else if choice == '3' {
        r := SetThreadNum(keys);
      } else if choice == '4' {
        var successCount, failedCount;
        r, successCount, failedCount := StartDownload(fs, ffmpegFound, completions);
      } else if choice == '5' {
        r := Continue;
      } else if choice == '6' {
        AddLog("退出程序...", 1);
        r := Quit;
      } else {
        r := Continue;
      }
    }
  }
}
