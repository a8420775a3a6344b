# M3U8 downloader core in Dafny

The project models the downloaders of the xiaoetech M3U8 tool. Four front ends share one
`M3UDownloader` design:

- `m3u8_terminal_ui.py`, a curses menu;
- `m3u8_web_ui.py`, a Flask service;
- `m3u8_gui_downloader.py`, a Tk window;
- `xiaoe_downloader.py`, a command-line batch script.

Beside them sits the test script `test_m3u8_downloader.py`.

Each downloader does the same work. It fetches a playlist with retries and checks the
`#EXTM3U` marker in the first 100 characters. The terminal and web downloaders then
rewrite relative segment lines into absolute URLs with `urljoin`; the GUI and Xiaoe
downloaders hand the playlist to ffmpeg unchanged. It builds the `ffmpeg` argument vector, with or without a
`-headers` block. It reports the conversion result and removes the `temp_<seconds>`
directory in a `finally` clause. Batches run through a thread pool, and successes and
failures are counted in completion order.

The shared logic lives in modules of its own:

| module | contents |
|---|---|
| `Text` | Python `strip`, `split`, `str(int)` and `int(str)` |
| `Urls` | `urlparse`, and `urljoin` as RFC 3986 section 5.2.2 resolution; where CPython's `urljoin` differs, see `Urls.UrlJoin` under "## Left out" |
| `Playlist` | the marker check and the rewrite |
| `Fetch` | the retry loop against a server oracle |
| `Headers` | the ordered header dictionary |
| `Remux` | the ffmpeg argument vectors and result messages |
| `Job` | the outcome of `process_m3u8` and the temp-directory cleanup |
| `Naming` | output file names |
| `Batch` | completion counting |
| `Logs` | bounded log buffers |
| `Workspace` | a file system object with directories and files |

The four front ends are modelled as classes whose methods update the same fields the
Python objects update. These are `TerminalUi.App`, `WebUi.WebDownloader`,
`GuiDownloader.GuiApp` and `Xiaoe.Downloader`. The test script becomes the methods of
`DownloaderTest`.

What the outside world decides is passed in as a parameter:

- `Server`: the outcome of the HTTP request on attempt `i`.
- `Ffmpeg`: the return code and stderr for an argument vector and a playlist.
- A completion order: the `(url, outcome)` pairs in the order `as_completed` yields them.
  It is constrained to be a permutation of the submitted URLs.
- The clock readings, key presses, dialog answers and `input()` lines.

## Model

| member | source | states |
|---|---|---|
| Text.ParseIntIgnoresSpace | m3u8_gui_downloader.py:341-344 | `int()` on a settings box reads the same number whatever whitespace surrounds it |
| Fetch.FirstSuccess | m3u8_terminal_ui.py:72-86 | the attempt chosen is the first one that fetched, every earlier attempt failed, and `None` means all attempts failed |
| Fetch.FirstSuccessUnique | m3u8_terminal_ui.py:72-86 | any attempt that fetched after only failures is exactly the one the retry loop stops at |
| Fetch.StopsAt | m3u8_terminal_ui.py:72-86 | the first attempt that fetched, after only failures, is where the retry loop stops: its body is the result and it is the last attempt made |
| Fetch.ErrorsOf | m3u8_web_ui.py:110-116 | the collected error texts are, in order, the errors of the failed attempts |
| Fetch.Expected | m3u8_terminal_ui.py:72-86 | a body is returned iff some attempt within `retry_count` fetched; it is that attempt's body; attempts, errors and sleeps (one fewer than attempts) agree with the server |
| Fetch.NoAttemptsWithoutCount | m3u8_terminal_ui.py:74 | with `retry_count <= 0` the range is empty: no request, no sleep, failure |
| Fetch.AllFailures | m3u8_terminal_ui.py:72-86 | when every request fails, all `retry_count` attempts are made, with `retry_count - 1` sleeps, and the download fails |
| Fetch.DownloadFile | m3u8_terminal_ui.py:72-86 | the loop returns what `Expected` predicts and writes the body to the path only on success |
| Playlist.ReadText | m3u8_terminal_ui.py:63-70 | text is obtained iff the body decodes as UTF-8, and universal newlines leave no carriage return |
| Playlist.MarkerBeyondWindowIgnored | m3u8_terminal_ui.py:63-70 | a playlist whose marker lies past the first 100 characters is rejected although it contains the marker |
| Playlist.MarkerFirstAccepted | m3u8_terminal_ui.py:63-70 | a decodable body that starts with `#EXTM3U` is accepted whatever follows |
| Playlist.WindowDecides | m3u8_terminal_ui.py:63-70 | for any carriage-return-free first 100 characters, the body is a playlist iff they hold the tag, whatever follows them |
| Playlist.ShortTextDecides | m3u8_terminal_ui.py:63-70 | a carriage-return-free body of at most 100 characters is a playlist iff it holds the tag |
| Playlist.RewriteLines | m3u8_terminal_ui.py:116-127 | one output line per input line, each rewritten independently |
| Playlist.RewritePlaylist | m3u8_terminal_ui.py:116-130 | the loop builds exactly the rewritten playlist |
| Playlist.RewriteLineNoNewline | m3u8_terminal_ui.py:117-126 | a rewritten line never introduces a line break |
| Playlist.RewriteLineStructure | m3u8_terminal_ui.py:116-130 | splitting the rewritten playlist gives the rewritten lines, so the line count is preserved |
| Playlist.RewriteLineFixed | m3u8_terminal_ui.py:117-126 | for an http(s) base, each rewritten line is stripped and rewriting it again changes nothing |
| Playlist.RewriteLinesStripped | m3u8_terminal_ui.py:116-130 | every line of the rewritten playlist is stripped |
| Playlist.RewriteFixpoint | m3u8_terminal_ui.py:116-130 | rewriting an already rewritten playlist is the identity |
| Urls.ParseRecompose | m3u8_terminal_ui.py:96-99 | parsing a URL into scheme, authority, path, query and fragment loses nothing |
| Urls.OriginIsPrefix | m3u8_terminal_ui.py:97-99 | the `scheme://netloc` origin sent as `Origin` is a prefix of the URL it came from |
| Urls.RemoveDotSegmentsIsDotFree | m3u8_terminal_ui.py:123 | a resolved path contains no `.` or `..` segment |
| Urls.MergeIsAbsolute | m3u8_terminal_ui.py:123 | merging a relative path under a base with an authority gives an absolute path |
| Urls.UrlJoinShape | m3u8_terminal_ui.py:120-124 | joining a stripped relative segment to an http(s) base gives a stripped URL starting with `http`, or the segment itself |
| Urls.UrlJoinChars | m3u8_terminal_ui.py:123 | `urljoin` introduces no character that neither argument contains, which is why rewriting adds no line breaks |
| Urls.ResolveSegmentsDotFree | m3u8_terminal_ui.py:123 | resolving segments never pushes a `.` or `..` segment onto the path |
| Urls.ResolveSegmentsFrom | m3u8_terminal_ui.py:123 | every resolved segment was on the stack, in the input, or is the empty segment a trailing slash adds |
| Urls.ResolveSegmentsLast | m3u8_terminal_ui.py:123 | a resolved path is never empty and ends with the last input segment or with an empty one |
| Naming.MatchAt | m3u8_terminal_ui.py:169 | the match of `([^/]+)\.m3u8` starting at a position is the longest one there |
| Naming.Search | m3u8_terminal_ui.py:169 | `re.search` finds the leftmost start, and at it the longest stem |
| Naming.OutputNameShape | m3u8_terminal_ui.py:164-175 | a generated output name ends in `.mp4` and contains no `/` |
| Naming.BaseNameExtracted | m3u8_terminal_ui.py:169-171 | for `…/name.m3u8` the output file is `name.mp4` |
| Naming.TestFileNameShape | test_m3u8_downloader.py:92 | the test file name is the URL's last path part when that has a dot, else `test_<seconds>.m3u8`; it never has a `/` |
| Remux.BuildHeaderBlock | m3u8_terminal_ui.py:135-137 | the loop renders every header, in dictionary order |
| Remux.HeaderBlockAppend | m3u8_terminal_ui.py:135-137 | the header block of a concatenation is the concatenation of the blocks |
| Remux.HeaderBlockHasNoLineBreak | m3u8_terminal_ui.py:137 | the block holds a real CR or LF only if some header key or value does |
| Remux.HeaderBlockEndsWithTerminator | m3u8_terminal_ui.py:137 | a non-empty block ends with the literal four-character `\r\n` escape |
| Remux.FfmpegArgs | m3u8_terminal_ui.py:139-149 | the argument vector has 15 entries |
| Remux.PlainFfmpegArgs | m3u8_gui_downloader.py:101-108 | the argument vector without headers has 9 entries |
| Remux.FfmpegArgsReadBack | m3u8_terminal_ui.py:139-149 | ffmpeg reads back the header block, the playlist path, the user agent and the output path from the argument vector |
| Remux.ReportShape | m3u8_terminal_ui.py:151-157 | success iff return code 0; a failure message carries the return code and the last 500 characters of stderr |
| Remux.PlainReportKeepsStderr | m3u8_gui_downloader.py:110-114 | success iff return code 0; a failure message carries the whole of stderr |
| Headers.AssignGet | m3u8_terminal_ui.py:98 | after assigning a header, reading it gives the new value |
| Headers.AssignGetOther | m3u8_terminal_ui.py:98-99 | assigning one header leaves every other header's value as it was |
| Headers.AssignKeys | m3u8_terminal_ui.py:98-99 | an existing key keeps its position; a new key goes at the end |
| Headers.AssignUnique | m3u8_terminal_ui.py:98-99 | assignment keeps the keys unique |
| Headers.HeaderTable.Set | m3u8_terminal_ui.py:98 | `headers[key] = value` updates the table in place as `Assign` says |
| Job.PlaylistInTemp | m3u8_terminal_ui.py:103 | the playlist path lies inside the temp directory |
| Job.Prepare | m3u8_terminal_ui.py:104-113 | a job stops as not fetched iff every attempt failed, as not a playlist iff the fetched body fails the marker check, and otherwise goes on with that body |
| Job.Pruned | m3u8_terminal_ui.py:159-162 | after cleanup exactly the files outside the temp directory remain, with their contents |
| Job.PrunedDirs | m3u8_terminal_ui.py:159-162 | after cleanup exactly the directories outside the temp directory remain |
| Job.PrunedOverwrite | m3u8_terminal_ui.py:129-130 | writing the rewritten playlist inside the temp directory leaves no trace after cleanup |
| Job.PrunedSameOutside | m3u8_terminal_ui.py:159-162 | changes confined to the temp directory vanish with it |
| Job.PrunedDirsCreate | m3u8_terminal_ui.py:91-92 | creating the temp directory leaves no trace after cleanup |
| Job.ProcessedSucceedsIff | m3u8_terminal_ui.py:88-162 | `process_m3u8` succeeds iff the playlist was fetched and accepted and ffmpeg returned 0 on the rewritten playlist |
| Batch.TallyTotal | m3u8_terminal_ui.py:396-408 | every completion is counted once, as a success or a failure |
| Batch.TallyAppend | m3u8_terminal_ui.py:396-408 | counts over consecutive completion runs add up |
| Batch.TallyOrderFree | m3u8_terminal_ui.py:396-408 | the counts do not depend on the completion order |
| Batch.CompletesAllCount | m3u8_terminal_ui.py:396-408 | when every submitted URL completes once, successes plus failures equals the number of URLs |
| Logs.PushIsLastN | m3u8_terminal_ui.py:216-221 | adding a log entry keeps the last `cap` entries, so the buffer never exceeds its capacity |
| Logs.PushAllIsLastN | m3u8_terminal_ui.py:216-221 | adding many entries keeps exactly the last `cap` of all entries |
| Logs.PushAllSnoc | m3u8_web_ui.py:89-98 | adding entries one at a time is adding them all |
| Workspace.JoinedWithin | m3u8_terminal_ui.py:103 | `os.path.join(d, name)` with a relative name stays inside `d` |
| Workspace.FileSystem.MakeDirs | m3u8_terminal_ui.py:92 | `makedirs(exist_ok=True)` adds the directory and changes no file |
| Workspace.FileSystem.WriteFile | m3u8_terminal_ui.py:129-130 | writing a file sets its content and changes nothing else |
| Workspace.FileSystem.RemoveTree | m3u8_terminal_ui.py:161-162 | `rmtree` removes the directory and everything under it, and only that |
| TerminalUi.RefererOriginUpdate | m3u8_terminal_ui.py:96-100 | after a job the headers carry the URL's `Referer` and `Origin`, other headers keep their values, and the key set is unchanged |
| TerminalUi.Downloader.constructor | m3u8_terminal_ui.py:52-61 | the downloader keeps the directory, thread count, headers, timeout and retry count it is given |
| TerminalUi.Downloader.ProcessM3u8 | m3u8_terminal_ui.py:88-162 | the outcome is the one `Processed` describes, the headers are updated as above, and the temp directory is gone afterwards with everything outside it untouched |
| TerminalUi.Downloader.DownloadM3u8 | m3u8_terminal_ui.py:164-175 | the job runs under the generated or given output name |
| TerminalUi.Downloader.Convert | m3u8_terminal_ui.py:112-157 | reading, rewriting and converting the playlist produce the outcome `Processed` describes and touch only the playlist file |
| TerminalUi.StopIndex | m3u8_terminal_ui.py:323-332 | input stops at the first Enter or Escape key, and at no earlier key |
| TerminalUi.TypedPrintable | m3u8_terminal_ui.py:333-337 | the input field only ever holds printable characters |
| TerminalUi.TypedCodes | m3u8_terminal_ui.py:336-337 | typing a printable string yields that string |
| TerminalUi.TypedBackspace | m3u8_terminal_ui.py:333-335 | backspace removes the last character, and does nothing on an empty field |
| TerminalUi.InputPrintable | m3u8_terminal_ui.py:317-337 | entered text is printable |
| TerminalUi.CompletionLogs | m3u8_terminal_ui.py:396-408 | one log line per completion, in completion order |
| TerminalUi.EarlyStartEndsSession | m3u8_terminal_ui.py:361-377 | starting with no URLs, or without ffmpeg, returns None (falsy) and so ends the program |
| TerminalUi.ThreadsSetBounds | m3u8_terminal_ui.py:355-360 | the thread count is never set negative, and typing `0` sets it to 0 |
| TerminalUi.App.constructor | m3u8_terminal_ui.py:181-194 | the application starts with no URLs, the default settings, an empty log and an idle input field |
| TerminalUi.App.AddLog | m3u8_terminal_ui.py:216-221 | the log keeps the last 20 entries |
| TerminalUi.App.GetUserInput | m3u8_terminal_ui.py:317-337 | the edited field, the input mode and the result follow the key sequence up to Enter or Escape |
| TerminalUi.App.StartDownload | m3u8_terminal_ui.py:361-416 | with URLs and ffmpeg, the counts are the batch's successes and failures and add up to the URL count; the logs are the start, completion and summary lines |
| TerminalUi.App.CountCompletions | m3u8_terminal_ui.py:396-414 | the loop counts successes and failures and logs one line per completion |
| TerminalUi.App.AddUrl | m3u8_terminal_ui.py:341-346 | a non-blank entry is appended to the URL list, stripped, and logged; otherwise nothing changes |
| TerminalUi.App.SetOutputDir | m3u8_terminal_ui.py:347-354 | a non-blank entry replaces the output directory, stripped; a blank or cancelled one only logs that the default is used |
| TerminalUi.App.SetThreadNum | m3u8_terminal_ui.py:355-360 | an entered run of digits, 0 included, replaces the thread count and is logged; anything else changes nothing |
| TerminalUi.App.HandleMenu | m3u8_terminal_ui.py:339-424 | each menu choice changes only its own setting; choice 4 starts the batch as `StartDownload` says; choice 6 logs and quits; any other choice changes nothing |
| WebUi.RefererOnlyUpdate | m3u8_web_ui.py:128-132 | the web downloader sets only `Referer`; other headers keep their values |
| WebUi.NoOriginSent | m3u8_web_ui.py:30-37 | the web downloader never sends an `Origin` header |
| WebUi.RetryLogsFailing | m3u8_web_ui.py:100-119 | each failed attempt logs "downloading", then its error with its attempt number |
| WebUi.RetryLogsAt | m3u8_web_ui.py:100-119 | after `k` failed attempts, entry `2j` is the "downloading" line and entry `2j+1` is attempt `j`'s failure |
| WebUi.RetryLogsAllFail | m3u8_web_ui.py:110-118 | when all attempts fail, only the last entry is at error level, and it names the last error and the URL |
| WebUi.RetryLogsSucceed | m3u8_web_ui.py:100-109 | a download that succeeds on attempt `i` logs `2i+1` entries and no error |
| WebUi.RetryLogsNoSuccess | m3u8_web_ui.py:100-119 | the retry loop never logs at success level |
| WebUi.JobLogsShowOutcome | m3u8_web_ui.py:121-200 | a job succeeds iff its last log entry is at success level |
| WebUi.RaisedLogsCounted | m3u8_web_ui.py:240-250 | jobs that raised are logged at error level, and there are no more of them than failures |
| WebUi.LogConvert | m3u8_web_ui.py:183-195 | the conversion's log calls add exactly its three or four entries |
| WebUi.StartDownload | m3u8_web_ui.py:278-312 | a download starts iff URLs were given; the new downloader takes the request's settings or the defaults |
| WebUi.WebDownloader.constructor | m3u8_web_ui.py:56-70 | the downloader keeps the settings it is given |
| WebUi.WebDownloader.Reset | m3u8_web_ui.py:72-78 | progress, status, logs and counts return to their initial values |
| WebUi.WebDownloader.AddLog | m3u8_web_ui.py:89-98 | the log keeps the last 50 entries |
| WebUi.WebDownloader.DownloadFile | m3u8_web_ui.py:100-119 | the outcome and the file written are as `Expected`, and the logs are the retry logs |
| WebUi.WebDownloader.ProcessM3u8 | m3u8_web_ui.py:121-200 | the outcome is the one `Processed` describes, with the job's logs, and the temp directory is gone afterwards |
| WebUi.WebDownloader.DownloadM3u8 | m3u8_web_ui.py:202-213 | the job runs under the generated or given output name |
| WebUi.WebDownloader.Convert | m3u8_web_ui.py:143-195 | reading, rewriting and converting produce the outcome `Processed` describes, and the logs are the job's logs |
| WebUi.WebDownloader.RunFfmpeg | m3u8_web_ui.py:164-195 | the playlist is rewritten to absolute URLs in place, ffmpeg runs once with the header block and the rewritten playlist, and its result is reported and logged |
| WebUi.WebDownloader.BatchDownload | m3u8_web_ui.py:215-259 | without ffmpeg the batch fails with no counts; otherwise progress ends at 100% and the counts are the successes and failures, adding up to the URL count |
| WebUi.WebDownloader.RunBatch | m3u8_web_ui.py:223-259 | without ffmpeg the batch stops with one error entry; a pool that cannot start logs its error; otherwise the counts are the successes and failures and add up to the URL count |
| WebUi.WebDownloader.CountCompletions | m3u8_web_ui.py:240-254 | the loop counts successes and failures and logs only the raised jobs |
| WebUi.WebDownloader.CountOne | m3u8_web_ui.py:240-250 | one completion advances exactly one count |
| WebUi.WebDownloader.Observe | m3u8_web_ui.py:252-254 | progress is the completed share times 100, and the status names the counts |
| GuiDownloader.PlainProcessedSucceedsIff | m3u8_gui_downloader.py:83-119 | the Tk job succeeds iff ffmpeg returns 0 on the fetched playlist as it is; a failure shows the full stderr |
| GuiDownloader.Downloader.constructor | m3u8_gui_downloader.py:48-57 | the downloader keeps the settings it is given |
| GuiDownloader.Downloader.ProcessM3u8 | m3u8_gui_downloader.py:83-119 | the outcome is the one `PlainProcessed` describes, and the temp directory is gone afterwards |
| GuiDownloader.Downloader.DownloadM3u8 | m3u8_gui_downloader.py:121-132 | the job runs under the generated or given output name |
| GuiDownloader.NonBlankStripped | m3u8_gui_downloader.py:314 | every URL kept is stripped and non-empty |
| GuiDownloader.NonBlankHas | m3u8_gui_downloader.py:314 | a non-blank line always yields a URL |
| GuiDownloader.UrlListNonEmpty | m3u8_gui_downloader.py:308-317 | non-blank text always yields a URL, so the second empty-list check never fires |
| GuiDownloader.StartGuards | m3u8_gui_downloader.py:300-361 | a start goes ahead only when idle, with ffmpeg and a non-empty URL list; it is refused as busy exactly when a download is running |
| GuiDownloader.CompletionLines | m3u8_gui_downloader.py:379-391 | one log line per completion, in completion order |
| GuiDownloader.Stamped | m3u8_gui_downloader.py:281-286 | every log line carries its time stamp and message |
| GuiDownloader.GuiApp.constructor | m3u8_gui_downloader.py:138-165 | the window starts idle, with the default settings and an empty log |
| GuiDownloader.GuiApp.AddLog | m3u8_gui_downloader.py:281-286 | a time-stamped line is appended to the log |
| GuiDownloader.GuiApp.ResetState | m3u8_gui_downloader.py:415-420 | the window returns to idle, with start enabled and stop disabled |
| GuiDownloader.GuiApp.StartDownload | m3u8_gui_downloader.py:300-361 | each guard's dialog, the output directory created when missing, a bad configuration resetting the window, and a start creating a downloader with the configured settings |
| GuiDownloader.GuiApp.Proceed | m3u8_gui_downloader.py:319-361 | after the URL checks: the directory is created when missing, a bad configuration resets the window, and a start creates a downloader with the parsed settings |
| GuiDownloader.GuiApp.EnsureOutputDir | m3u8_gui_downloader.py:320-326 | the directory is ready iff it existed or could be created |
| GuiDownloader.GuiApp.Launch | m3u8_gui_downloader.py:333-357 | a start either resets on a bad configuration or creates a downloader with the parsed settings |
| GuiDownloader.GuiApp.DownloadTask | m3u8_gui_downloader.py:363-405 | the window always ends idle; the counts are the batch's, adding up to the URL count, unless the pool raised |
| GuiDownloader.GuiApp.RunPool | m3u8_gui_downloader.py:369-398 | a bad thread count logs the error with no counts; otherwise every completion is counted and logged |
| GuiDownloader.GuiApp.CountCompletions | m3u8_gui_downloader.py:379-396 | the loop counts successes and failures and logs one line per completion |
| GuiDownloader.GuiApp.StopDownload | m3u8_gui_downloader.py:407-413 | a confirmed stop logs and resets the window; otherwise nothing changes |
| Xiaoe.AttemptLinesReport | xiaoe_downloader.py:67-81 | at most three attempt lines, three exactly when every attempt failed, each naming its attempt's error; a full failure sleeps twice |
| Xiaoe.ReportedSucceedsIff | xiaoe_downloader.py:83-128 | a job succeeds iff the playlist was fetched and accepted and ffmpeg returned 0; its last line starts with ✓ exactly then |
| Xiaoe.Downloader.constructor | xiaoe_downloader.py:51-56 | the downloader takes the directory and thread count and the script's headers |
| Xiaoe.Downloader.DownloadFile | xiaoe_downloader.py:67-81 | the outcome, the printed attempt lines and the sleeps are as the retry model predicts |
| Xiaoe.Downloader.ProcessM3u8 | xiaoe_downloader.py:83-128 | the outcome and the printed lines are the ones `Reported` describes, and the temp directory is gone afterwards |
| Xiaoe.Downloader.DownloadM3u8 | xiaoe_downloader.py:130-141 | the job runs under the generated output name |
| Xiaoe.Downloader.BatchDownload | xiaoe_downloader.py:143-189 | a non-positive thread count raises after the banner; otherwise the counts add up and an empty batch raises a division by zero; the main thread prints the banner, one progress line per completion and the summary |
| Xiaoe.Downloader.CountCompletions | xiaoe_downloader.py:161-175 | the loop counts successes and failures and prints the progress lines |
| Xiaoe.ProgressOutCounts | xiaoe_downloader.py:161-175 | every progress line's counts add up to its completed number, and the last one reports the final counts |
| Xiaoe.Pad2Value | xiaoe_downloader.py:185 | `{n:02d}` gives at least two digits that read back as `n` |
| Xiaoe.ClockReadBack | xiaoe_downloader.py:181-185 | the `mm:ss` elapsed time reads back as the elapsed seconds |
| Xiaoe.BatchEndCounts | xiaoe_downloader.py:177-187 | a non-empty batch reports counts that add up to its size, and prints the success rate |
| Xiaoe.ParseUrlListShape | xiaoe_downloader.py:210 | a comma list yields one stripped URL per comma-separated piece |
| Xiaoe.FirstChoiceNonEmpty | xiaoe_downloader.py:203-218 | the URL list chosen is never empty |
| Xiaoe.FirstChoiceSettles | xiaoe_downloader.py:204-213 | the first non-blank input line decides the URL list |
| Xiaoe.ReadUrls | xiaoe_downloader.py:203-218 | the input loop returns the first valid choice and prints one complaint per rejected line |
| Xiaoe.Run | xiaoe_downloader.py:192-228 | when a URL list is chosen the batch always reports counts that add up to its size, so the division by zero cannot happen from `main`; the main thread prints the opening banner, one complaint per refused line, then, once a list is chosen, the batch's main-thread output and the closing lines |
| DownloaderTest.FileCheckImpliesContentCheck | test_m3u8_downloader.py:35-41 | whatever the downloaders accept as a playlist, the test's content check accepts too |
| DownloaderTest.ContentCheckIsWider | test_m3u8_downloader.py:35-41 | the content check also accepts a late marker and an undecodable body, which the downloaders reject |
| DownloaderTest.SentHeadersShape | test_m3u8_downloader.py:49-53 | the copied headers keep their keys, take the URL's `Referer` and `Origin`, and keep every other value |
| DownloaderTest.TestDownloadFile | test_m3u8_downloader.py:44-71 | success iff the request succeeded; the body is written and tagged `m3u8` or `other` by the content check; a failure returns the error text |
| DownloaderTest.SaveResponse | test_m3u8_downloader.py:56-71 | a successful answer is written to the output path and tagged `m3u8` or `other` by the content check, leaving every other file and directory as it was; a failed one writes nothing and returns its error text |
| DownloaderTest.FetchedCount | test_m3u8_downloader.py:87-99 | the success count is at most the number of URLs |
| DownloaderTest.FetchedCountAll | test_m3u8_downloader.py:87-99 | the success count equals the number of URLs iff every request succeeded, and is 0 iff every request failed |
| DownloaderTest.SavedFilesWithin | test_m3u8_downloader.py:90-95 | every file the sequential test saves lies in the test directory |
| DownloaderTest.SequentialTest | test_m3u8_downloader.py:87-101 | the counts are the successful requests and add up to the URL count; exactly the successful bodies are saved |
| DownloaderTest.ThreadedTest | test_m3u8_downloader.py:127-147 | the threaded counts are the completions' successes and failures and add up to twice the URL count |
| DownloaderTest.RunTests | test_m3u8_downloader.py:74-154 | the script stops in test 2 exactly when a listed `.m3u8` file is not UTF-8; otherwise the totals are the sums of tests 1 and 3 and add up to six downloads |
| DownloaderTest.DecodableRunPasses | test_m3u8_downloader.py:106-121 | when the files already there and every fetched body decode, test 2 reads everything it lists without raising |
| DownloaderTest.UndecodableLastStops | test_m3u8_downloader.py:106-121 | a body that is not UTF-8, saved under a `.m3u8` name, makes test 2 raise |

## Left out

- HTTP itself is an oracle of outcomes: `requests` sessions, TLS with `verify=False`, timeouts and status codes. The timeout is stored but has no effect in the model.
- A body counts as decodable as a whole. `f.read(100)` decoding only a prefix is not modelled.
- Exceptions raised inside `process_m3u8` by file writes are not modelled. A failing write, or a rewritten playlist that cannot be re-read, never happens in the model.
- What ffmpeg writes to the output file, and whether it accepts the header block, are outside the model. The block follows the code's `\\r\\n` string: four literal characters, not CR LF.
- Concurrency is reduced to a completion order, so these races are not modelled:
  - the shared headers race between pool threads;
  - the same-second temp directories that collide;
  - job logs interleaving with counting logs.
- WebUi.WebDownloader.BatchDownload: models the logs of the counting loop and the batch frame only. The jobs' own log entries, which pool threads add concurrently, are left out.
- Xiaoe.Downloader.BatchDownload: `out` holds only what the main thread prints. Each job's own lines are left out of it: the opening line, one line per failed attempt, and the verdict lines. They are stated per job by `Reported`, but their interleaving with the batch's lines is not modelled.
- Xiaoe.Run: `printed` likewise leaves out the lines the pool jobs print.
- URL parsing does not lower-case the scheme and does not strip control characters as `urlsplit` does.
- Urls.UrlJoin: resolves by section 5.2.2 of RFC 3986, which differs from CPython's `urljoin` on four kinds of input a playlist can hold:
  - CPython drops empty middle segments of the merged path. Base `https://h/a//b/i.m3u8` with line `x.ts` gives `https://h/a/b/x.ts` there; the model keeps `a//b`.
  - CPython returns a network-path reference such as `//cdn/a/../b.ts` with its dot segments in place. The model removes them and gives `https://cdn/b.ts`.
  - CPython drops an empty query or fragment (`a.ts?`, `a.ts#`). The model keeps the `?` or `#`. A line that is only `?` has an empty path and an empty query, so CPython takes the base's query instead: base `https://h/a/i.m3u8?t=1` with line `?` gives `https://h/a/i.m3u8?t=1` there, and `https://h/a/i.m3u8?` in the model.
  - CPython raises `ValueError` for an invalid bracketed IPv6 netloc. The model has no such error.
- Paths are POSIX strings. `makedirs` adds only the named directory, not its parents.
- Progress in the web service is an exact real, not a float. The script's percentage and success rate are printed as counts (`Progress`, `Rate`), without float formatting.
- Drawing is left out: curses screens, Tk widgets and Flask templates. Message boxes appear as `Dialog` values.
- The terminal `run` loop and `show_logs_screen` are left out. The result that decides whether the loop continues is modelled.
- The web routes `get_status`, `/api/reset` and `get_files` are left out. They read state, or list files, which the model does not represent.
- Test 2's printed lines are left out: the count of `.m3u8` files, each file's name and size, and a ✓/✗ line saying whether `#EXTM3U` is in its first 100 characters. Its strict UTF-8 read, which can end the script, is modelled (`Test2Raises`). A subdirectory whose name ends in `.m3u8`, which `open` would also refuse, is not.
- The test script's banners and timing lines are left out.
- The threaded test's `thread_test_<i>.m3u8` files are left out.
- The model's `ParseInt` accepts surrounding whitespace and an optional sign, as `int()` does, but only ASCII digits. It rejects digit-group underscores (`1_0`) and non-ASCII decimal digits such as full-width `８`, both of which `int()` accepts. Error texts do not reproduce Python's quoting.
- GuiDownloader.GuiApp.StartDownload and GuiDownloader.GuiApp.RunPool: a settings box holding full-width or other non-ASCII digits, or underscores, gives `BadConfig` or the pool error in the model, where the source parses the number and goes on.
- Each operation reads the clock once: the seconds for names and temp directories and the `HH:MM:SS` stamp are parameters. The elapsed time is given as whole seconds.
- The end of `input()` is the end of the given input lines. `EOFError` is not modelled.
- The prompt text `input()` writes before each line is not part of `Xiaoe.Run`'s printed output.
- DownloaderTest.ThreadedTest: requires every pool job to return. A job that raised would propagate out of `future.result()` in the script, and that is not modelled.
