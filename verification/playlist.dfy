/**
 * The playlist itself: what a fetched body is, the validity check the
 * downloaders apply to it (`is_m3u8_file`), and the rewrite that turns
 * relative segment references into absolute URLs before the playlist is
 * handed to ffmpeg.
 */
module Playlist {
  import opened Wrappers
  import opened Text
  import opened Urls

  /**
   * A fetched body, abstracted from its bytes: the text a UTF-8 decode that
   * skips undecodable bytes yields, and whether a strict UTF-8 decode
   * succeeds (it then yields the same text).
   */
  datatype Payload = Payload(lenient: string, decodes: bool)

  /** The tag every playlist must carry near its start. */
  const Marker: string := "#EXTM3U"

  /** How many characters `is_m3u8_file` reads before looking for the tag. */
  const MarkerWindow: nat := 100

  /**
   * `open(path, 'r', encoding='utf-8').read()`: the strictly decoded text
   * with universal newlines, or `None` when decoding raises.
   */
  function ReadText(p: Payload): (r: Option<string>)
    ensures r.Some? <==> p.decodes
    ensures r.Some? ==> '\r' !in r.value
  {
    if p.decodes then Some(TranslateNewlines(p.lenient)) else None
  }

  /**
   * `is_m3u8_file`: the first 100 characters read in text mode hold the
   * tag; a file that cannot be decoded is not a playlist.
   */
  predicate IsM3u8File(p: Payload) {
    match ReadText(p)
    case Some(text) => Contains(Take(text, MarkerWindow), Marker)
    case None => false
  }

  /** The check reads no further than the window: a tag after it does not count. */
  lemma MarkerBeyondWindowIgnored()
    ensures var p := Payload(seq(MarkerWindow, _ => 'x') + Marker, true);
      !IsM3u8File(p) && Contains(p.lenient, Marker)
  {
    var p := Payload(seq(MarkerWindow, _ => 'x') + Marker, true);
    var filler := seq(MarkerWindow, _ => 'x');
    assert '\r' !in p.lenient by {
      assert forall k :: 0 <= k < |p.lenient| ==> p.lenient[k] != '\r';
    }
    TranslateNewlinesIdentity(p.lenient);
    assert Take(p.lenient, MarkerWindow) == filler;
    assert !Contains(filler, Marker) by {
      forall i | 0 <= i <= |filler| - |Marker|
        ensures !OccursAt(filler, Marker, i)
      {
        assert filler[i] != Marker[0];
      }
    }
    assert OccursAt(p.lenient, Marker, MarkerWindow) by {
      assert p.lenient[MarkerWindow..MarkerWindow + |Marker|] == Marker;
    }
  }

  /** A playlist whose first line is the tag passes the check. */
  lemma MarkerFirstAccepted(rest: string)
    ensures IsM3u8File(Payload(Marker + "\n" + rest, true))
  {
    var s := Marker + "\n" + rest;
    TranslateNewlinesPrefix(Marker + "\n", rest);
    var text := TranslateNewlines(s);
    assert text[..|Marker|] == Marker;
    assert OccursAt(Take(text, MarkerWindow), Marker, 0);
  }

  /** Universal-newline translation leaves a carriage-return-free prefix in place. */
  lemma {:induction false} TranslateNewlinesPrefix(a: string, b: string)
    requires '\r' !in a
    ensures TranslateNewlines(a + b) == a + TranslateNewlines(b)
  {
    if a != [] {
      assert a[0] in a;
      assert (a + b)[0] == a[0] && a[0] != '\r';
      assert (a + b)[1..] == a[1..] + b;
      assert TranslateNewlines(a + b) == [a[0]] + TranslateNewlines(a[1..] + b);
      assert '\r' !in a[1..];
      TranslateNewlinesPrefix(a[1..], b);
      assert a + TranslateNewlines(b) == [a[0]] + (a[1..] + TranslateNewlines(b));
    } else {
      assert a + b == b;
    }
  }

  /**
   * The check is decided by the first 100 characters alone: once they are
   * free of carriage returns, the file is a playlist exactly when they hold
   * the tag, whatever follows them.
   */
  lemma WindowDecides(head: string, rest: string)
    requires |head| == MarkerWindow && '\r' !in head
    ensures IsM3u8File(Payload(head + rest, true)) <==> Contains(head, Marker)
  {
    TranslateNewlinesPrefix(head, rest);
    var text := TranslateNewlines(head + rest);
    assert text == head + TranslateNewlines(rest);
    assert Take(text, MarkerWindow) == head;
  }

  /** A carriage-return-free text no longer than the window is a playlist exactly when it holds the tag. */
  lemma ShortTextDecides(s: string)
    requires |s| <= MarkerWindow && '\r' !in s
    ensures IsM3u8File(Payload(s, true)) <==> Contains(s, Marker)
  {
    TranslateNewlinesIdentity(s);
  }

  // ---------------------------------------------------------------------
  // Rewriting relative segment references

  /**
   * A stripped line left as it is: empty, a tag or comment (`#`), or
   * already an `http…` URL.
   */
  predicate KeepsLine(line: string) {
    line == [] || line[0] == '#' || "http" <= line
  }

  /** One line of the rewritten playlist. */
  function RewriteLine(base: string, raw: string): string {
    var line := Strip(raw);
    if KeepsLine(line) then line else UrlJoin(base, line)
  }

  /** The rewritten lines, one per input line. */
  function RewriteLines(base: string, lines: seq<string>): (out: seq<string>)
    ensures |out| == |lines|
    ensures forall k :: 0 <= k < |lines| ==> out[k] == RewriteLine(base, lines[k])
  {
    seq(|lines|, k requires 0 <= k < |lines| => RewriteLine(base, lines[k]))
  }

  /** The rewritten playlist: its `'\n'`-separated lines rewritten and rejoined. */
  function Rewrite(base: string, content: string): string {
    Join(RewriteLines(base, Split(content, '\n')), "\n")
  }

  /**
   * The rewrite loop of `process_m3u8`: split the text on `'\n'`, strip each
   * line, resolve the relative ones against the playlist URL, and join the
   * collected lines with `'\n'`.
   */
  method RewritePlaylist(base: string, content: string) returns (updated: string)
    ensures updated == Rewrite(base, content)
  {
    var lines := Split(content, '\n');
    ghost var rewritten := RewriteLines(base, lines);
    var updatedLines: seq<string> := [];
    var i := 0;
    while i < |lines|
      invariant 0 <= i <= |lines|
      invariant updatedLines == rewritten[..i]
    {
      var kept := RewriteOne(base, lines[i]);
      PrefixSnoc(rewritten, i);
      updatedLines := updatedLines + [kept];
      i := i + 1;
    }
    assert updatedLines == rewritten;
    updated := Join(updatedLines, "\n");
  }

  /** The loop body for one line: strip it and resolve it unless it is kept as it is. */
  method RewriteOne(base: string, raw: string) returns (kept: string)
    ensures kept == RewriteLine(base, raw)
  {
    var line := Strip(raw);
    kept := line;
    if !KeepsLine(line) {
      kept := UrlJoin(base, line);
    }
  }

  /** No rewritten line holds a newline when the playlist URL holds none. */
  lemma RewriteLineNoNewline(base: string, raw: string)
    requires '\n' !in base && '\n' !in raw
    ensures '\n' !in RewriteLine(base, raw)
  {
    var line := Strip(raw);
    assert forall c :: c in line ==> c in raw;
    if !KeepsLine(line) {
      UrlJoinChars(base, line, '\n');
    }
  }

  /**
   * The rewrite keeps the line structure: its `'\n'`-separated lines are
   * exactly the rewritten input lines, one for one.
   */
  lemma RewriteLineStructure(base: string, content: string)
    requires '\n' !in base
    ensures Split(Rewrite(base, content), '\n') == RewriteLines(base, Split(content, '\n'))
    ensures |Split(Rewrite(base, content), '\n')| == |Split(content, '\n')|
  {
    var lines := Split(content, '\n');
    var out := RewriteLines(base, lines);
    forall x | x in out
      ensures '\n' !in x
    {
      var k :| 0 <= k < |out| && out[k] == x;
      assert lines[k] in lines;
      RewriteLineNoNewline(base, lines[k]);
    }
    SplitJoin(out, '\n');
  }

  /**
   * Against an `http`/`https` playlist URL every rewritten line is stripped
   * and is left alone by a second rewrite.
   */
  lemma RewriteLineFixed(base: string, raw: string)
    requires IsHttpScheme(Parse(base).scheme)
    ensures Stripped(RewriteLine(base, raw))
    ensures RewriteLine(base, RewriteLine(base, raw)) == RewriteLine(base, raw)
  {
    var line := Strip(raw);
    if KeepsLine(line) {
      StripStripped(line);
    } else {
      UrlJoinShape(base, line);
      var t := UrlJoin(base, line);
      if t == line {
        StripStripped(line);
      } else {
        StripStripped(t);
        assert KeepsLine(t);
      }
    }
  }

  /**
   * Every line of a rewritten playlist is stripped (for an `http`/`https`
   * playlist URL without newlines).
   */
  lemma RewriteLinesStripped(base: string, content: string)
    requires IsHttpScheme(Parse(base).scheme) && '\n' !in base
    ensures forall x :: x in Split(Rewrite(base, content), '\n') ==> Stripped(x)
  {
    var lines := Split(content, '\n');
    RewriteLineStructure(base, content);
    forall k | 0 <= k < |lines|
      ensures Stripped(RewriteLine(base, lines[k]))
    {
      RewriteLineFixed(base, lines[k]);
    }
  }

  /**
   * Rewriting is idempotent when the playlist URL is `http`/`https`: every
   * resolved line then starts with `http`, so a second pass keeps it.
   */
  lemma RewriteFixpoint(base: string, content: string)
    requires IsHttpScheme(Parse(base).scheme) && '\n' !in base
    ensures Rewrite(base, Rewrite(base, content)) == Rewrite(base, content)
  {
    var lines := Split(content, '\n');
    var out := RewriteLines(base, lines);
    RewriteLineStructure(base, content);
    forall k | 0 <= k < |out|
      ensures RewriteLine(base, out[k]) == out[k]
    {
      RewriteLineFixed(base, lines[k]);
    }
    assert RewriteLines(base, out) == out;
  }
}
