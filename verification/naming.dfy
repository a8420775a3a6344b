/**
 * Output file names: the name `download_m3u8` derives from the playlist URL
 * with the pattern `([^/]+)\.m3u8`, with its timestamp fallback, and the
 * simpler last-segment rule of the test script.
 */
module Naming {
  import opened Wrappers
  import opened Text

  /** The literal suffix the pattern looks for. */
  const Extension: string := ".m3u8"

  /**
   * `([^/]+)\.m3u8` matches with its group spanning `u[s..e]`: a non-empty,
   * slash-free run directly followed by `.m3u8`.
   */
  predicate StemAt(u: string, s: nat, e: nat) {
    s < e && OccursAt(u, Extension, e) && forall k :: s <= k < e ==> u[k] != '/'
  }

  /** The end of the slash-free run that starts at `s`. */
  function RunEnd(u: string, s: nat): (n: nat)
    requires s <= |u|
    ensures s <= n <= |u|
    ensures forall k :: s <= k < n ==> u[k] != '/'
    ensures n < |u| ==> u[n] == '/'
    decreases |u| - s
  {
    if s == |u| || u[s] == '/' then s else RunEnd(u, s + 1)
  }

  /** The largest end in `(s, e]` at which `.m3u8` occurs: greedy backtracking. */
  function BestEnd(u: string, s: nat, e: nat): (r: Option<nat>)
    ensures r.Some? ==> s < r.value <= e && OccursAt(u, Extension, r.value)
    ensures r.Some? ==> forall e' :: r.value < e' <= e ==> !OccursAt(u, Extension, e')
    ensures r.None? ==> forall e' :: s < e' <= e ==> !OccursAt(u, Extension, e')
    decreases e
  {
    if e <= s then None
    else if OccursAt(u, Extension, e) then Some(e)
    else BestEnd(u, s, e - 1)
  }

  /** The longest group that starts at `s`, if the pattern matches there. */
  function MatchAt(u: string, s: nat): (r: Option<nat>)
    requires s <= |u|
    ensures r.Some? ==> StemAt(u, s, r.value) && forall e' :: r.value < e' ==> !StemAt(u, s, e')
    ensures r.None? ==> forall e' :: !StemAt(u, s, e')
  {
    var n := RunEnd(u, s);
    var r := BestEnd(u, s, n);
    assert forall e': nat :: StemAt(u, s, e') ==> e' <= n by {
      forall e': nat | StemAt(u, s, e')
        ensures e' <= n
      {
      }
    }
    r
  }

  /**
   * `re.search(r'([^/]+)\.m3u8', u)`: the leftmost start at which the
   * pattern matches, and there the longest group.
   */
  function Search(u: string, from: nat): (r: Option<(nat, nat)>)
    requires from <= |u|
    ensures r.Some? ==> from <= r.value.0 && StemAt(u, r.value.0, r.value.1)
    ensures r.Some? ==> forall s, e :: from <= s < r.value.0 ==> !StemAt(u, s, e)
    ensures r.Some? ==> forall e :: r.value.1 < e ==> !StemAt(u, r.value.0, e)
    ensures r.None? ==> forall s, e :: from <= s ==> !StemAt(u, s, e)
    decreases |u| - from
  {
    match MatchAt(u, from)
    case Some(e) => Some((from, e))
    case None =>
      if from == |u| then
        assert forall s, e :: from <= s ==> !StemAt(u, s, e) by {
          forall s: nat, e: nat | from <= s && StemAt(u, s, e)
            ensures false
          {
          }
        }
        None
      else Search(u, from + 1)
  }

  /**
   * `download_m3u8`'s name: the one given when it is non-empty; otherwise
   * the first pattern match's group plus `.mp4`, or `video_<now>.mp4` when
   * the URL has no match (`now` is `int(time.time())`).
   */
  function OutputName(url: string, given: Option<string>, now: int): string {
    if given.Some? && given.value != [] then given.value
    else
      match Search(url, 0)
      case Some((s, e)) => url[s..e] + ".mp4"
      case None => "video_" + IntToString(now) + ".mp4"
  }

  /**
   * A derived name names a file directly inside the output directory: it
   * ends in `.mp4` and holds no `/`.
   */
  lemma OutputNameShape(url: string, now: int)
    ensures var name := OutputName(url, None, now);
      |name| > 4 && name[|name| - 4..] == ".mp4" && '/' !in name
  {
    var name := OutputName(url, None, now);
    match Search(url, 0)
    case Some((s, e)) =>
      assert name == url[s..e] + ".mp4";
      assert forall k :: 0 <= k < e - s ==> name[k] == url[s + k];
      assert name[|name| - 4..] == ".mp4";
    case None =>
      var digits := IntToString(now);
      assert name == "video_" + digits + ".mp4";
      IntToStringChars(now);
      assert name[|name| - 4..] == ".mp4";
  }

  /** The characters of a decimal numeral: digits and a sign. */
  lemma IntToStringChars(i: int)
    ensures forall c :: c in IntToString(i) ==> c == '-' || IsDigit(c)
  {
  }

  /** An occurrence of `.m3u8` that ends inside a prefix of `u` is an occurrence in that prefix. */
  lemma ExtensionInPrefix(u: string, prefix: string, e: nat)
    ensures |prefix| <= |u| && u[..|prefix|] == prefix && OccursAt(u, Extension, e) && e + |Extension| <= |prefix|
      ==> OccursAt(prefix, Extension, e) && Contains(prefix, Extension)
  {
    if |prefix| <= |u| && u[..|prefix|] == prefix && OccursAt(u, Extension, e) && e + |Extension| <= |prefix| {
      forall k | e <= k < e + |Extension|
        ensures prefix[k] == u[k]
      {
        assert prefix[k] == u[..|prefix|][k];
      }
      assert prefix[e..e + |Extension|] == u[e..e + |Extension|] == Extension;
      assert OccursAt(prefix, Extension, e);
      assert 0 <= e <= |prefix| - |Extension|;
    }
  }

  /**
   * For a URL whose last segment is `<name>.m3u8` and whose earlier part
   * holds no `.m3u8`, the derived name is the playlist's own base name
   * with `.mp4`.
   */
  lemma BaseNameExtracted(prefix: string, name: string, now: int)
    requires name != [] && '/' !in name && !Contains(prefix, Extension)
    ensures OutputName(prefix + "/" + name + Extension, None, now) == name + ".mp4"
  {
    var u := prefix + "/" + name + Extension;
    var p := |prefix| + 1;
    var e0 := p + |name|;
    assert u[p..e0] == name;
    assert u[e0..] == Extension;
    assert StemAt(u, p, e0) by {
      assert OccursAt(u, Extension, e0);
      forall k | p <= k < e0
        ensures u[k] != '/'
      {
        assert u[k] == name[k - p];
      }
    }
    assert u[|prefix|] == '/';
    assert u[..|prefix|] == prefix;
    forall s: nat, e: nat | s < p
      ensures !StemAt(u, s, e)
    {
      ExtensionInPrefix(u, prefix, e);
    }
    match Search(u, 0)
    case Some((s, e)) =>
      assert s == p;
      assert e == e0;
    case None =>
      assert false;
  }

  /**
   * The test script's name: the URL's last `/`-separated segment when it
   * contains a `.`, otherwise `test_<now>.m3u8`.
   */
  function TestFileName(url: string, now: int): string {
    var parts := Split(url, '/');
    var last := parts[|parts| - 1];
    if '.' in last then last else "test_" + IntToString(now) + ".m3u8"
  }

  /** The test name is slash-free, and is the URL's own tail when it is not the fallback. */
  lemma TestFileNameShape(url: string, now: int)
    ensures '/' !in TestFileName(url, now)
    ensures var name := TestFileName(url, now);
      name == "test_" + IntToString(now) + ".m3u8" || ('.' in name && |name| <= |url| && url[|url| - |name|..] == name)
  {
    var parts := Split(url, '/');
    var last := parts[|parts| - 1];
    var name := TestFileName(url, now);
    if '.' in last {
      assert name == last;
      assert last in parts;
      SplitLastIsSuffix(url, '/');
      assert url == url[..|url| - |last|] + last;
      assert url[|url| - |last|..] == last;
    } else {
      var digits := IntToString(now);
      assert name == "test_" + digits + ".m3u8";
      IntToStringChars(now);
      assert '/' !in digits;
      assert '/' !in "test_" && '/' !in ".m3u8";
    }
  }
}
