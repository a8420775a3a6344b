/**
 * The stand-alone test script: a looser playlist check on the raw
 * response, a `download_file` that sends a copy of the fixed headers with
 * Referer and Origin set for the URL, and the sequential and threaded runs
 * over the test URLs with their counts.
 */
module DownloaderTest {
  import opened Wrappers
  import opened Text
  import opened Urls
  import opened Playlist
  import opened Naming
  import opened Headers
  import opened Fetch
  import opened Workspace
  import opened Batch

  const TestOutputDir: string := "./test_output"

  /** The two test playlists. */
  const TestUrls: seq<string> := [
    "https://demo.unified-streaming.com/k8s/features/stable/video/tears-of-steel/tears-of-steel.ism/.m3u8",
    "https://test-streams.mux.dev/x36xhzz/x36xhzz.m3u8"
  ]

  /** The script's fixed request headers, whose Referer and Origin are placeholders. */
  const TestHeaders: Entries := [
    ("User-Agent", BrowserAgent),
    ("Accept", "*/*"),
    ("Referer", "https://"),
    ("Accept-Language", "zh-CN,zh;q=0.9,en;q=0.8"),
    ("Connection", "keep-alive"),
    ("Accept-Encoding", "gzip, deflate, br"),
    ("Origin", "https://")
  ]

  // ---------------------------------------------------------------------
  // The content check

  /**
   * `is_m3u8_content`: the tag occurs anywhere in the body decoded with
   * undecodable bytes skipped; no window, no newline translation.
   */
  predicate IsM3u8Content(p: Payload) {
    Contains(p.lenient, Marker)
  }

  /**
   * Where newline translation leaves no line break in its first `n`
   * characters, those characters are the original's own.
   */
  lemma {:induction false} TranslatedPrefix(s: string, n: nat)
    requires n <= |TranslateNewlines(s)| && '\n' !in TranslateNewlines(s)[..n]
    ensures n <= |s| && s[..n] == TranslateNewlines(s)[..n]
    decreases |s|
  {
    if n > 0 {
      var t := TranslateNewlines(s);
      assert t[0] in t[..n];
      assert s[0] != '\r' && s[0] != '\n';
      assert t == [s[0]] + TranslateNewlines(s[1..]);
      assert t[..n][1..] == TranslateNewlines(s[1..])[..n - 1];
      TranslatedPrefix(s[1..], n - 1);
    }
  }

  /** A line-break-free pattern found after newline translation was there before it. */
  lemma {:induction false} TranslatedOccurrence(s: string, pat: string, i: nat)
    requires '\n' !in pat && OccursAt(TranslateNewlines(s), pat, i)
    ensures Contains(s, pat)
    decreases |s|
  {
    var t := TranslateNewlines(s);
    if pat == [] {
      assert OccursAt(s, pat, 0);
    } else if i == 0 {
      assert t[..|pat|] == pat;
      TranslatedPrefix(s, |pat|);
      assert OccursAt(s, pat, 0);
    } else {
      var skip := if s[0] == '\r' && |s| > 1 && s[1] == '\n' then 2 else 1;
      var rest := s[skip..];
      assert t == [t[0]] + TranslateNewlines(rest);
      assert TranslateNewlines(rest)[i - 1..i - 1 + |pat|] == t[i..i + |pat|];
      TranslatedOccurrence(rest, pat, i - 1);
      var j :| 0 <= j <= |rest| - |pat| && OccursAt(rest, pat, j);
      assert s[j + skip..j + skip + |pat|] == rest[j..j + |pat|];
      assert OccursAt(s, pat, j + skip);
    }
  }

  /**
   * Whatever the downloaders' file check accepts, the test's content check
   * accepts too: the tag within the first hundred characters of the
   * translated text is in the body itself.
   */
  lemma FileCheckImpliesContentCheck(p: Payload)
    requires IsM3u8File(p)
    ensures IsM3u8Content(p)
  {
    var text := TranslateNewlines(p.lenient);
    var i :| 0 <= i <= |Take(text, MarkerWindow)| - |Marker| && OccursAt(Take(text, MarkerWindow), Marker, i);
    assert Take(text, MarkerWindow)[i..i + |Marker|] == text[i..i + |Marker|];
    assert '\n' !in Marker;
    TranslatedOccurrence(p.lenient, Marker, i);
  }

  /**
   * The converse fails: a tag past the first hundred characters, or in a
   * body that is not valid UTF-8, passes only the content check.
   */
  lemma ContentCheckIsWider()
    ensures var late := Payload(seq(MarkerWindow, _ => 'x') + Marker, true);
      IsM3u8Content(late) && !IsM3u8File(late)
    ensures var broken := Payload(Marker, false);
      IsM3u8Content(broken) && !IsM3u8File(broken)
  {
    MarkerBeyondWindowIgnored();
    assert OccursAt(Marker, Marker, 0);
  }

  // ---------------------------------------------------------------------
  // download_file

  /** The headers actually sent for `url`: the fixed set with Referer and Origin set for it. */
  function SentHeaders(url: string): Entries {
    Assign(Assign(TestHeaders, "Referer", Referer(url)), "Origin", Origin(url))
  }

  /**
   * The request carries the same seven keys in the same order, Referer
   * `scheme://netloc/` and Origin `scheme://netloc`, and every other
   * header as the fixed set has it.
   */
  lemma SentHeadersShape(url: string, other: string, default: string)
    requires other != "Referer" && other != "Origin"
    ensures Keys(SentHeaders(url)) == Keys(TestHeaders)
    ensures Get(SentHeaders(url), "Referer", default) == Referer(url)
    ensures Get(SentHeaders(url), "Origin", default) == Origin(url)
    ensures Get(SentHeaders(url), other, default) == Get(TestHeaders, other, default)
  {
    var h1 := Assign(TestHeaders, "Referer", Referer(url));
    assert Keys(TestHeaders)[2] == "Referer" && Keys(TestHeaders)[6] == "Origin";
    AssignKeys(TestHeaders, "Referer", Referer(url));
    AssignKeys(h1, "Origin", Origin(url));
    AssignGetOther(h1, "Origin", Origin(url), "Referer", default);
    AssignGet(TestHeaders, "Referer", Referer(url), default);
    AssignGet(h1, "Origin", Origin(url), default);
    AssignGetOther(TestHeaders, "Referer", Referer(url), other, default);
    AssignGetOther(h1, "Origin", Origin(url), other, default);
  }

  /**
   * The test's `download_file`, given the server's answer (`response`):
   * it copies the fixed headers, sets Referer and Origin on the copy only,
   * writes a successful body to `outputPath` and tags it by the content
   * check; any exception becomes `(False, str(e))`. It returns the headers
   * it sent and the lines it printed.
   */
  method TestDownloadFile(fs: FileSystem, url: string, outputPath: string, response: FetchOutcome)
    returns (ok: bool, result: string, sent: Entries, lines: seq<string>)
    modifies fs
    ensures sent == SentHeaders(url)
    ensures ok == response.Fetched?
    ensures ok ==> result == (if IsM3u8Content(response.body) then "m3u8" else "other")
    ensures !ok ==> result == response.error
    ensures fs.dirs == old(fs.dirs)
    ensures fs.files == if ok then old(fs.files)[outputPath := response.body] else old(fs.files)
    ensures lines == ["正在下载: " + url, DownloadLine(outputPath, response)]
  {
    lines := ["正在下载: " + url];
    var headers := new HeaderTable(TestHeaders);
    headers.Set("Referer", Referer(url));
    headers.Set("Origin", Origin(url));
    sent := headers.entries;
    ok, result := SaveResponse(fs, outputPath, response);
    lines := lines + [DownloadLine(outputPath, response)];
  }

  /** What `download_file` does with the answer: a body is written to `outputPath` and tagged by the content check; an error is returned as text. */
  method SaveResponse(fs: FileSystem, outputPath: string, response: FetchOutcome) returns (ok: bool, result: string)
    modifies fs
    ensures ok == response.Fetched?
    ensures ok ==> result == (if IsM3u8Content(response.body) then "m3u8" else "other")
    ensures !ok ==> result == response.error
    ensures fs.dirs == old(fs.dirs)
    ensures fs.files == if ok then old(fs.files)[outputPath := response.body] else old(fs.files)
  {
    match response {
      case FetchFailed(e) =>
        ok, result := false, e;
      case Fetched(body) =>
        fs.WriteFile(outputPath, body);
        ok := true;
        result := if IsM3u8Content(body) then "m3u8" else "other";
    }
  }

  /** The second line `download_file` prints. */
  function DownloadLine(outputPath: string, response: FetchOutcome): string {
    match response
    case FetchFailed(e) => "✗ 下载失败: " + e
    case Fetched(body) =>
      if IsM3u8Content(body) then "✓ 成功下载M3U8文件: " + outputPath else "✓ 成功下载文件: " + outputPath
  }

  // ---------------------------------------------------------------------
  // The runs

  /** How many of the answers are successful downloads. */
  function FetchedCount(rs: seq<FetchOutcome>): (n: nat)
    ensures n <= |rs|
  {
    if rs == [] then 0 else FetchedCount(rs[..|rs| - 1]) + (if rs[|rs| - 1].Fetched? then 1 else 0)
  }

  /** The count reaches the number of answers exactly when all succeeded, and 0 exactly when all failed. */
  lemma {:induction false} FetchedCountAll(rs: seq<FetchOutcome>)
    ensures FetchedCount(rs) == |rs| <==> forall i :: 0 <= i < |rs| ==> rs[i].Fetched?
    ensures FetchedCount(rs) == 0 <==> forall i :: 0 <= i < |rs| ==> rs[i].FetchFailed?
  {
    if rs != [] {
      var front := rs[..|rs| - 1];
      FetchedCountAll(front);
      assert forall i :: 0 <= i < |front| ==> front[i] == rs[i];
    }
  }

  /** Where the sequential run saves the download of `url` made at time `now`. */
  function SavedPath(url: string, now: int): string {
    PathJoin(TestOutputDir, TestFileName(url, now))
  }

  /** The files after the sequential run: each successful body at its URL's path, later ones overwriting. */
  function SavedFiles(files: map<string, Payload>, urls: seq<string>, rs: seq<FetchOutcome>, nows: seq<int>): map<string, Payload>
    requires |rs| == |urls| && |nows| == |urls|
  {
    if urls == [] then files
    else
      var n := |urls| - 1;
      var before := SavedFiles(files, urls[..n], rs[..n], nows[..n]);
      match rs[n]
      case Fetched(b) => before[SavedPath(urls[n], nows[n]) := b]
      case FetchFailed(_) => before
  }

  /** The sequential run writes only directly inside the test directory. */
  lemma {:induction false} SavedFilesWithin(files: map<string, Payload>, urls: seq<string>, rs: seq<FetchOutcome>, nows: seq<int>)
    requires |rs| == |urls| && |nows| == |urls|
    ensures forall p :: p in SavedFiles(files, urls, rs, nows) ==> p in files || Within(p, TestOutputDir)
  {
    if urls != [] {
      var n := |urls| - 1;
      SavedFilesWithin(files, urls[..n], rs[..n], nows[..n]);
      var name := TestFileName(urls[n], nows[n]);
      TestFileNameShape(urls[n], nows[n]);
      assert name != [];
      assert name[0] in name;
      JoinedWithin(TestOutputDir, name);
    }
  }

  /** One more download of the sequential run, as `SavedFiles` and `FetchedCount` see it. */
  lemma SequentialStep(files: map<string, Payload>, urls: seq<string>, rs: seq<FetchOutcome>, nows: seq<int>, i: nat)
    requires |rs| == |urls| && |nows| == |urls| && i < |urls|
    ensures FetchedCount(rs[..i + 1]) == FetchedCount(rs[..i]) + (if rs[i].Fetched? then 1 else 0)
    ensures SavedFiles(files, urls[..i + 1], rs[..i + 1], nows[..i + 1])
            == if rs[i].Fetched? then SavedFiles(files, urls[..i], rs[..i], nows[..i])[SavedPath(urls[i], nows[i]) := rs[i].body]
               else SavedFiles(files, urls[..i], rs[..i], nows[..i])
  {
    assert urls[..i + 1][..i] == urls[..i] && rs[..i + 1][..i] == rs[..i] && nows[..i + 1][..i] == nows[..i];
  }

  /**
   * Test 1: one download per URL, in order, answered by `rs[i]` and
   * named with the clock reading `nows[i]`; the counts split the URLs
   * into successful downloads and the rest.
   */
  method SequentialTest(fs: FileSystem, urls: seq<string>, rs: seq<FetchOutcome>, nows: seq<int>)
    returns (successCount: nat, failedCount: nat)
    requires |rs| == |urls| && |nows| == |urls|
    modifies fs
    ensures successCount == FetchedCount(rs) && successCount + failedCount == |urls|
    ensures fs.dirs == old(fs.dirs) && fs.files == SavedFiles(old(fs.files), urls, rs, nows)
  {
    successCount, failedCount := 0, 0;
    var i := 0;
    while i < |urls|
      invariant 0 <= i <= |urls|
      invariant successCount == FetchedCount(rs[..i]) && successCount + failedCount == i
      invariant fs.dirs == old(fs.dirs) && fs.files == SavedFiles(old(fs.files), urls[..i], rs[..i], nows[..i])
    {
      SequentialStep(old(fs.files), urls, rs, nows, i);
      var ok, result, sent, lines := TestDownloadFile(fs, urls[i], SavedPath(urls[i], nows[i]), rs[i]);
      if ok {
        successCount := successCount + 1;
      } else {
        failedCount := failedCount + 1;
      }
      i := i + 1;
    }
    assert urls[..i] == urls && rs[..i] == rs && nows[..i] == nows;
  }

  /**
   * Test 3: every URL twice, in a pool of four; `completions` is the order
   * in which the jobs finish. The test's `download_file` catches every
   * exception, so each job returns.
   */
  method ThreadedTest(urls: seq<string>, completions: seq<Completion>)
    returns (threadSuccess: nat, threadFailed: nat)
    requires CompletesAll(completions, urls + urls)
    requires forall k :: 0 <= k < |completions| ==> completions[k].1.Returned?
    ensures threadSuccess == Successes(completions) && threadFailed == Failures(completions)
    ensures threadSuccess + threadFailed == 2 * |urls|
  {
    threadSuccess, threadFailed := 0, 0;
    var i := 0;
    while i < |completions|
      invariant 0 <= i <= |completions|
      invariant threadSuccess == Successes(completions[..i]) && threadFailed == Failures(completions[..i])
    {
      assert completions[..i + 1][..i] == completions[..i];
      if completions[i].1.ok {
        threadSuccess := threadSuccess + 1;
      } else {
        threadFailed := threadFailed + 1;
      }
      i := i + 1;
    }
    assert completions[..i] == completions;
    CompletesAllCount(completions, urls + urls);
  }

  /** A file `os.listdir(TestOutputDir)` shows: one directly inside the test directory. */
  predicate Listed(p: string) {
    |p| > |TestOutputDir| + 1 && p[..|TestOutputDir| + 1] == TestOutputDir + "/" && '/' !in p[|TestOutputDir| + 1..]
  }

  /** A file test 2 opens: a listed name ending in `.m3u8`. */
  predicate CheckedByTest2(p: string) {
    Listed(p) && |p| >= 5 && p[|p| - 5..] == ".m3u8"
  }

  /**
   * Test 2 opens every listed `.m3u8` file in strict UTF-8 to look for the
   * tag; a file that does not decode raises and ends the script there.
   */
  predicate Test2Raises(files: map<string, Payload>) {
    exists p :: p in files && CheckedByTest2(p) && !files[p].decodes
  }

  /**
   * When every checked file present before the run decodes and every body
   * fetched decodes, test 2 reads everything it lists without raising.
   */
  lemma {:induction false} DecodableRunPasses(files: map<string, Payload>, urls: seq<string>, rs: seq<FetchOutcome>, nows: seq<int>)
    requires |rs| == |urls| && |nows| == |urls|
    requires forall p :: p in files && CheckedByTest2(p) ==> files[p].decodes
    requires forall i :: 0 <= i < |rs| && rs[i].Fetched? ==> rs[i].body.decodes
    ensures forall p :: p in SavedFiles(files, urls, rs, nows) && CheckedByTest2(p) ==> SavedFiles(files, urls, rs, nows)[p].decodes
    ensures !Test2Raises(SavedFiles(files, urls, rs, nows))
  {
    if urls != [] {
      var n := |urls| - 1;
      DecodableRunPasses(files, urls[..n], rs[..n], nows[..n]);
    }
  }

  /** An undecodable body that the last download saves under a `.m3u8` name stops the script in test 2. */
  lemma UndecodableLastStops(files: map<string, Payload>, urls: seq<string>, rs: seq<FetchOutcome>, nows: seq<int>)
    requires |rs| == |urls| && |nows| == |urls| && urls != []
    requires rs[|urls| - 1].Fetched? && !rs[|urls| - 1].body.decodes
    requires CheckedByTest2(SavedPath(urls[|urls| - 1], nows[|urls| - 1]))
    ensures Test2Raises(SavedFiles(files, urls, rs, nows))
  {
    var n := |urls| - 1;
    var p := SavedPath(urls[n], nows[n]);
    assert p in SavedFiles(files, urls, rs, nows) && SavedFiles(files, urls, rs, nows)[p] == rs[n].body;
  }

  /**
   * The whole script over the two test URLs. When test 2 meets a `.m3u8`
   * file that is not UTF-8, the script ends there with no totals;
   * otherwise the total it reports counts every one of the six downloads
   * exactly once.
   */
  method RunTests(fs: FileSystem, rs: seq<FetchOutcome>, nows: seq<int>, completions: seq<Completion>)
    returns (totals: Option<(nat, nat)>)
    requires |rs| == |TestUrls| && |nows| == |TestUrls|
    requires CompletesAll(completions, TestUrls + TestUrls)
    requires forall k :: 0 <= k < |completions| ==> completions[k].1.Returned?
    modifies fs
    ensures totals.None? <==> Test2Raises(SavedFiles(old(fs.files), TestUrls, rs, nows))
    ensures totals.Some? ==> totals.value.0 == FetchedCount(rs) + Successes(completions)
    ensures totals.Some? ==> totals.value.0 + totals.value.1 == 3 * |TestUrls| == 6
    ensures fs.dirs == old(fs.dirs) + {TestOutputDir}
    ensures fs.files == SavedFiles(old(fs.files), TestUrls, rs, nows)
  {
    fs.MakeDirs(TestOutputDir);
    var successCount, failedCount := SequentialTest(fs, TestUrls, rs, nows);
    if Test2Raises(fs.files) {
      return None;
    }
    var threadSuccess, threadFailed := ThreadedTest(TestUrls, completions);
    totals := Some((successCount + threadSuccess, failedCount + threadFailed));
  }
}
