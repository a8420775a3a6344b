/**
 * The ffmpeg invocation: the header block handed to `-headers`, the two
 * argument lists (with and without request headers), and the messages a
 * finished run is reported with.
 */
module Remux {
  import opened Wrappers
  import opened Text
  import opened Headers

  /**
   * The terminator written after each header: a backslash, `r`, a
   * backslash and `n` (four characters, not a carriage return and a line
   * feed).
   */
  const Terminator: string := "\\r\\n"

  /** One header as `f'{key}: {value}\\r\\n'` renders it. */
  function RenderHeader(key: string, value: string): string {
    key + ": " + value + Terminator
  }

  /** The header block: every entry rendered, in insertion order. */
  function HeaderBlock(h: Entries): string {
    if h == [] then [] else HeaderBlock(h[..|h| - 1]) + RenderHeader(h[|h| - 1].0, h[|h| - 1].1)
  }

  /** The `headers_str += …` loop over `self.headers.items()`. */
  method BuildHeaderBlock(h: Entries) returns (block: string)
    ensures block == HeaderBlock(h)
  {
    block := "";
    var i := 0;
    while i < |h|
      invariant 0 <= i <= |h|
      invariant block == HeaderBlock(h[..i])
    {
      var (key, value) := h[i];
      block := block + RenderHeader(key, value);
      assert h[..i + 1][..i] == h[..i];
      i := i + 1;
    }
    assert h[..|h|] == h;
  }

  /** The block of a concatenation is the concatenation of the blocks. */
  lemma {:induction false} HeaderBlockAppend(h1: Entries, h2: Entries)
    ensures HeaderBlock(h1 + h2) == HeaderBlock(h1) + HeaderBlock(h2)
    decreases |h2|
  {
    if h2 == [] {
      assert h1 + h2 == h1;
    } else {
      var h2' := h2[..|h2| - 1];
      var e := h2[|h2| - 1];
      assert (h1 + h2)[..|h1 + h2| - 1] == h1 + h2';
      assert (h1 + h2)[|h1 + h2| - 1] == e;
      HeaderBlockAppend(h1, h2');
      assert HeaderBlock(h1 + h2) == HeaderBlock(h1) + HeaderBlock(h2') + RenderHeader(e.0, e.1);
      assert HeaderBlock(h2) == HeaderBlock(h2') + RenderHeader(e.0, e.1);
    }
  }

  /** The block of one entry is that entry rendered. */
  lemma HeaderBlockSingle(key: string, value: string)
    ensures HeaderBlock([(key, value)]) == RenderHeader(key, value)
  {
    assert [(key, value)][..0] == [];
  }

  /**
   * When no name or value holds a line break, neither does the block: the
   * terminator is written as an escape, never as CR LF.
   */
  lemma {:induction false} HeaderBlockHasNoLineBreak(h: Entries, c: char)
    requires c == '\r' || c == '\n'
    requires forall i :: 0 <= i < |h| ==> c !in h[i].0 && c !in h[i].1
    ensures c !in HeaderBlock(h)
    decreases |h|
  {
    if h != [] {
      HeaderBlockHasNoLineBreak(h[..|h| - 1], c);
    }
  }

  /** Each rendered entry ends with the four-character terminator. */
  lemma HeaderBlockEndsWithTerminator(h: Entries)
    requires h != []
    ensures |HeaderBlock(h)| >= 4 && HeaderBlock(h)[|HeaderBlock(h)| - 4..] == Terminator
  {
    var last := RenderHeader(h[|h| - 1].0, h[|h| - 1].1);
    assert HeaderBlock(h) == HeaderBlock(h[..|h| - 1]) + last;
  }

  // ---------------------------------------------------------------------
  // Argument lists

  /** The ffmpeg argv of the header-sending downloaders (terminal and web). */
  function FfmpegArgs(headerBlock: string, playlistPath: string, userAgent: string, outputPath: string): (argv: seq<string>)
    ensures |argv| == 15
  {
    ["ffmpeg", "-headers", headerBlock, "-i", playlistPath, "-c", "copy", "-bsf:a", "aac_adtstoasc",
     "-y", "-timeout", "60", "-user_agent", userAgent, outputPath]
  }

  /** The ffmpeg argv of the plain downloaders (desktop window and command prompt). */
  function PlainFfmpegArgs(playlistPath: string, outputPath: string): (argv: seq<string>)
    ensures |argv| == 9
  {
    ["ffmpeg", "-i", playlistPath, "-c", "copy", "-bsf:a", "aac_adtstoasc", "-y", outputPath]
  }

  /** The argument following the first occurrence of `flag`, as an option parser reads it. */
  function OptionValue(argv: seq<string>, flag: string): Option<string> {
    if |argv| < 2 then None
    else if argv[0] == flag then Some(argv[1])
    else OptionValue(argv[1..], flag)
  }

  /** Skipping a prefix that does not hold the flag leaves the lookup unchanged. */
  lemma {:induction false} OptionValueSkip(argv: seq<string>, flag: string, k: nat)
    requires k + 2 <= |argv|
    requires forall j :: 0 <= j < k ==> argv[j] != flag
    ensures OptionValue(argv, flag) == OptionValue(argv[k..], flag)
  {
    if k > 0 {
      OptionValueSkip(argv[1..], flag, k - 1);
      assert argv[1..][k - 1..] == argv[k..];
    }
  }

  /**
   * The argv reads back as intended: `-headers` carries the block, `-i` the
   * playlist, `-user_agent` the agent, and the output path comes last.
   * Only the block could shadow a later flag, and a non-empty block ends
   * with the terminator, so it cannot.
   */
  lemma FfmpegArgsReadBack(h: Entries, playlistPath: string, userAgent: string, outputPath: string)
    requires playlistPath != "-user_agent"
    ensures var argv := FfmpegArgs(HeaderBlock(h), playlistPath, userAgent, outputPath);
      OptionValue(argv, "-headers") == Some(HeaderBlock(h))
      && OptionValue(argv, "-i") == Some(playlistPath)
      && OptionValue(argv, "-user_agent") == Some(userAgent)
      && argv[|argv| - 1] == outputPath
  {
    var block := HeaderBlock(h);
    var argv := FfmpegArgs(block, playlistPath, userAgent, outputPath);
    if h != [] {
      HeaderBlockEndsWithTerminator(h);
    }
    assert block != "-i" && block != "-user_agent";
    OptionValueSkip(argv, "-i", 3);
    assert argv[3..][0] == "-i";
    OptionValueSkip(argv, "-user_agent", 12);
    assert argv[12..][0] == "-user_agent";
  }

  // ---------------------------------------------------------------------
  // Reporting the run

  /** What a finished ffmpeg run reports: its exit status and its stderr text. */
  datatype ToolResult = ToolResult(returnCode: int, stderr: string)

  /** How much of stderr a failure message keeps. */
  const StderrTail: nat := 500

  /**
   * The terminal and web report: success names the output file; failure
   * gives the exit status and the last 500 characters of stderr.
   */
  function Report(r: ToolResult, outputFilename: string): (bool, string) {
    if r.returnCode == 0 then (true, "转换成功: " + outputFilename)
    else (false, "转换失败 (返回码: " + IntToString(r.returnCode) + "): " + Tail(r.stderr, StderrTail))
  }

  /** The desktop report: failure carries the whole stderr. */
  function PlainReport(r: ToolResult, outputFilename: string): (bool, string) {
    if r.returnCode == 0 then (true, "转换成功: " + outputFilename)
    else (false, "转换失败: " + r.stderr)
  }

  /**
   * A run succeeds exactly on exit status 0; a failure message carries the
   * status (which reads back as the status) and exactly the last
   * `min(500, |stderr|)` characters of stderr.
   */
  lemma ReportShape(r: ToolResult, outputFilename: string)
    ensures Report(r, outputFilename).0 <==> r.returnCode == 0
    ensures r.returnCode == 0 ==> Report(r, outputFilename).1 == "转换成功: " + outputFilename
    ensures r.returnCode != 0 ==> exists code, tail ::
      Report(r, outputFilename).1 == "转换失败 (返回码: " + code + "): " + tail
      && ParseInt(code) == Some(r.returnCode)
      && |tail| == (if |r.stderr| < StderrTail then |r.stderr| else StderrTail)
      && r.stderr == r.stderr[..|r.stderr| - |tail|] + tail
  {
    if r.returnCode != 0 {
      IntToStringRoundTrip(r.returnCode);
      var tail := Tail(r.stderr, StderrTail);
      assert Report(r, outputFilename).1 == "转换失败 (返回码: " + IntToString(r.returnCode) + "): " + tail;
    }
  }

  /** The desktop failure message ends with the complete stderr, however long. */
  lemma PlainReportKeepsStderr(r: ToolResult, outputFilename: string)
    ensures PlainReport(r, outputFilename).0 <==> r.returnCode == 0
    ensures r.returnCode != 0 ==>
      (|PlainReport(r, outputFilename).1| == |"转换失败: "| + |r.stderr|
       && PlainReport(r, outputFilename).1[|"转换失败: "|..] == r.stderr)
  {
  }
}
