/**
 * What every variant of `process_m3u8` shares: the temporary directory a
 * job works in, the path of the downloaded playlist, the two early
 * failures (nothing fetched, or not a playlist) and their messages, and
 * the ffmpeg run as an oracle.
 */
module Job {
  import opened Wrappers
  import opened Text
  import opened Playlist
  import opened Fetch
  import opened Workspace
  import opened Remux
  import opened Headers

  /** ffmpeg as an oracle: its argv and the playlist file it reads decide how it ends. */
  type Ffmpeg = (seq<string>, Payload) -> ToolResult

  /** The name the fetched playlist is stored under. */
  const PlaylistFile: string := "playlist.m3u8"

  /** `os.path.join(output_dir, f"temp_{int(time.time())}")`. */
  function TempDir(outputDir: string, now: int): string {
    PathJoin(outputDir, "temp_" + IntToString(now))
  }

  /** `os.path.join(temp_dir, "playlist.m3u8")`. */
  function PlaylistPath(temp: string): string {
    PathJoin(temp, PlaylistFile)
  }

  /** The playlist is stored inside the temporary directory, so removing that removes it. */
  lemma PlaylistInTemp(temp: string)
    ensures Within(PlaylistPath(temp), temp)
  {
    JoinedWithin(temp, PlaylistFile);
  }

  /** How far a job gets before ffmpeg: nothing fetched, not a playlist, or a playlist body. */
  datatype Stage = NotFetched | NotPlaylist | Ready(body: Payload)

  /**
   * The stage a job reaches given the retry budget: it has a body exactly
   * when some allowed attempt succeeds, and it goes on only when that body
   * passes the marker check.
   */
  function Prepare(server: Server, retryCount: int): (s: Stage)
    ensures s.NotFetched? <==> forall i :: 0 <= i < Attempts(retryCount) ==> server(i).FetchFailed?
    ensures s.Ready? ==> IsM3u8File(s.body) && exists i :: 0 <= i < Attempts(retryCount) && server(i) == Fetched(s.body)
    ensures s.NotPlaylist? ==> exists i :: 0 <= i < Attempts(retryCount) && server(i).Fetched? && !IsM3u8File(server(i).body)
  {
    var r := Expected(server, retryCount);
    match r.body
    case None => NotFetched
    case Some(b) => if IsM3u8File(b) then Ready(b) else NotPlaylist
  }

  /** The message of a job whose playlist could not be fetched. */
  function NotFetchedMessage(url: string): string {
    "无法下载M3U8文件: " + url
  }

  /** The message of a job whose download is not a playlist. */
  function NotPlaylistMessage(url: string): string {
    "下载的文件不是有效的M3U8格式: " + url
  }

  /** The files that survive removing `d`: all those outside it, unchanged. */
  function Pruned(files: map<string, Payload>, d: string): (r: map<string, Payload>)
    ensures forall p :: p in r <==> p in files && !Within(p, d)
    ensures forall p :: p in r ==> r[p] == files[p]
  {
    map x | x in files && !Within(x, d) :: files[x]
  }

  /** The directories that survive removing `d`. */
  function PrunedDirs(dirs: set<string>, d: string): (r: set<string>)
    ensures forall p :: p in r <==> p in dirs && !Within(p, d)
  {
    set x | x in dirs && !Within(x, d)
  }

  /** Whatever a job wrote inside `d` is gone once `d` is removed. */
  lemma PrunedOverwrite(files: map<string, Payload>, d: string, p: string, body: Payload)
    requires Within(p, d)
    ensures Pruned(files[p := body], d) == Pruned(files, d)
  {
  }

  /** `a` and `b` agree on every path except possibly `p`. */
  ghost predicate SameOutside(a: map<string, Payload>, b: map<string, Payload>, p: string) {
    forall q :: q != p ==> (q in a <==> q in b) && (q in a ==> a[q] == b[q])
  }

  /** Files that differ only at a path inside `d` agree once `d` is removed. */
  lemma PrunedSameOutside(a: map<string, Payload>, b: map<string, Payload>, p: string, d: string)
    requires SameOutside(a, b, p) && Within(p, d)
    ensures Pruned(a, d) == Pruned(b, d)
  {
  }

  /** Creating `d` and then removing it leaves the other directories as they were. */
  lemma PrunedDirsCreate(dirs: set<string>, d: string)
    ensures PrunedDirs(dirs + {d}, d) == PrunedDirs(dirs, d)
  {
  }

  /**
   * How `process_m3u8` ends, given the headers after its update: the two
   * early failures run nothing; otherwise ffmpeg runs once on the
   * rewritten playlist and its exit status decides the report.
   */
  predicate Processed(url: string, outputFilename: string, outputDir: string, h: Entries, server: Server,
                      retryCount: int, ffmpeg: Ffmpeg, playlistPath: string, ok: bool, message: string, ran: Option<seq<string>>)
  {
    match Prepare(server, retryCount)
    case NotFetched => !ok && message == NotFetchedMessage(url) && ran == None
    case NotPlaylist => !ok && message == NotPlaylistMessage(url) && ran == None
    case Ready(body) =>
      var argv := FfmpegArgs(HeaderBlock(h), playlistPath, Get(h, "User-Agent", ""),
                             PathJoin(outputDir, outputFilename));
      ran == Some(argv)
      && (ok, message) == Report(ffmpeg(argv, Payload(Rewrite(url, ReadText(body).value), true)), outputFilename)
  }

  /**
   * A job succeeds exactly when the playlist was fetched within the retry
   * budget, passed the marker check, and ffmpeg exited with status 0.
   */
  lemma ProcessedSucceedsIff(url: string, outputFilename: string, outputDir: string, h: Entries, server: Server,
                             retryCount: int, ffmpeg: Ffmpeg, playlistPath: string, ok: bool, message: string, ran: Option<seq<string>>)
    requires Processed(url, outputFilename, outputDir, h, server, retryCount, ffmpeg, playlistPath, ok, message, ran)
    ensures ok <==> Prepare(server, retryCount).Ready? && ran.Some? && ffmpeg(ran.value, Payload(Rewrite(url, ReadText(Prepare(server, retryCount).body).value), true)).returnCode == 0
  {
    match Prepare(server, retryCount)
    case NotFetched =>
    case NotPlaylist =>
    case Ready(body) =>
      var argv := ran.value;
      ReportShape(ffmpeg(argv, Payload(Rewrite(url, ReadText(body).value), true)), outputFilename);
  }
}
