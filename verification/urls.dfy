/**
 * URL handling the downloaders delegate to `urllib.parse`: splitting a URL
 * into its components (`urlparse`), deriving `scheme://netloc`, and
 * resolving a relative reference against a base URL (`urljoin`).
 *
 * Resolution follows section 5.2 of RFC 3986: the transformation of
 * section 5.2.2 in its non-strict form (a reference whose scheme equals the
 * base's is treated as relative), the merge of section 5.2.3 and the
 * removal of dot segments of section 5.2.4. In front of it sits the guard
 * `urljoin` applies first: a reference with a different scheme, or a base
 * whose scheme does not take relative references, is returned unchanged.
 */
module Urls {
  import opened Wrappers
  import opened Text

  /**
   * The components of a URI reference (section 3 of RFC 3986); an absent
   * component is `None`, which is not the same as an empty one.
   */
  datatype Url = Url(scheme: Option<string>, authority: Option<string>, path: string,
                     query: Option<string>, fragment: Option<string>)

  predicate IsAsciiLetter(c: char) {
    ('a' <= c <= 'z') || ('A' <= c <= 'Z')
  }

  predicate IsSchemeChar(c: char) {
    IsAsciiLetter(c) || ('0' <= c <= '9') || c == '+' || c == '-' || c == '.'
  }

  function SchemePart(u: Url): string {
    if u.scheme.Some? then u.scheme.value + ":" else ""
  }

  function AuthorityPart(u: Url): string {
    if u.authority.Some? then "//" + u.authority.value else ""
  }

  function QueryPart(u: Url): string {
    if u.query.Some? then "?" + u.query.value else ""
  }

  function FragmentPart(u: Url): string {
    if u.fragment.Some? then "#" + u.fragment.value else ""
  }

  /** Component recomposition, section 5.3 of RFC 3986. */
  function Recompose(u: Url): string {
    SchemePart(u) + AuthorityPart(u) + u.path + QueryPart(u) + FragmentPart(u)
  }

  // ---------------------------------------------------------------------
  // Parsing, the way `urlsplit` cuts a string

  /**
   * A scheme is the text before the first `':'` when it starts with an ASCII
   * letter and consists of letters, digits, `+`, `-` and `.` only.
   */
  function SplitScheme(s: string): (r: (Option<string>, string))
    ensures (if r.0.Some? then r.0.value + ":" else "") + r.1 == s
    ensures r.0.Some? ==> r.0.value != [] && forall k :: 0 <= k < |r.0.value| ==> IsSchemeChar(r.0.value[k])
  {
    match IndexOf(s, ':')
    case Some(i) =>
      if i > 0 && IsAsciiLetter(s[0]) && forall k :: 0 <= k < i ==> IsSchemeChar(s[k]) then
        assert s == s[..i] + ":" + s[i + 1..];
        (Some(s[..i]), s[i + 1..])
      else (None, s)
    case None => (None, s)
  }

  /** Index of the first character of `s` in `delims`, or `|s|`. */
  function DelimiterIndex(s: string, delims: set<char>): (n: nat)
    ensures n <= |s|
    ensures forall k :: 0 <= k < n ==> s[k] !in delims
    ensures n < |s| ==> s[n] in delims
  {
    if s == [] || s[0] in delims then 0 else 1 + DelimiterIndex(s[1..], delims)
  }

  /** After a leading `"//"` the authority runs up to the first `/`, `?` or `#`. */
  function SplitAuthority(s: string): (r: (Option<string>, string))
    ensures (if r.0.Some? then "//" + r.0.value else "") + r.1 == s
    ensures r.0.Some? ==> r.1 == [] || r.1[0] in {'/', '?', '#'}
  {
    if |s| >= 2 && s[..2] == "//" then
      var j := 2 + DelimiterIndex(s[2..], {'/', '?', '#'});
      assert s == s[..2] + s[2..j] + s[j..];
      (Some(s[2..j]), s[j..])
    else (None, s)
  }

  /** The fragment is everything after the first `'#'`. */
  function SplitFragment(s: string): (r: (string, Option<string>))
    ensures r.0 + (if r.1.Some? then "#" + r.1.value else "") == s
    ensures '#' !in r.0
  {
    match IndexOf(s, '#')
    case Some(k) =>
      assert s == s[..k] + "#" + s[k + 1..];
      (s[..k], Some(s[k + 1..]))
    case None => (s, None)
  }

  /** The query is everything after the first `'?'` (the fragment already cut off). */
  function SplitQuery(s: string): (r: (string, Option<string>))
    ensures r.0 + (if r.1.Some? then "?" + r.1.value else "") == s
    ensures '?' !in r.0
  {
    match IndexOf(s, '?')
    case Some(k) =>
      assert s == s[..k] + "?" + s[k + 1..];
      (s[..k], Some(s[k + 1..]))
    case None => (s, None)
  }

  /** `urlsplit(s)`: scheme, then authority, then fragment, then query. */
  function Parse(s: string): Url {
    var (scheme, afterScheme) := SplitScheme(s);
    var (authority, afterAuthority) := SplitAuthority(afterScheme);
    var (beforeFragment, fragment) := SplitFragment(afterAuthority);
    var (path, query) := SplitQuery(beforeFragment);
    Url(scheme, authority, path, query, fragment)
  }

  /**
   * Parsing loses nothing: recomposing the components gives the string back.
   * A path that follows an authority is empty or starts with `'/'`.
   */
  lemma ParseRecompose(s: string)
    ensures Recompose(Parse(s)) == s
    ensures Parse(s).authority.Some? ==> Parse(s).path == [] || Parse(s).path[0] == '/'
  {
    var sc := SplitScheme(s);
    var au := SplitAuthority(sc.1);
    var fr := SplitFragment(au.1);
    var qu := SplitQuery(fr.0);
    var u := Url(sc.0, au.0, qu.0, qu.1, fr.1);
    assert Parse(s) == u;
    Regroup(SchemePart(u), AuthorityPart(u), u.path, QueryPart(u), FragmentPart(u));
    if au.0.Some? && qu.0 != [] {
      assert qu.0[0] == fr.0[0] == au.1[0];
    }
  }

  /** Regrouping a five-part concatenation. */
  lemma Regroup(s: string, a: string, p: string, q: string, f: string)
    ensures s + a + p + q + f == s + (a + ((p + q) + f))
  {
  }

  /** A character absent from `s` is absent from every component of `Parse(s)`. */
  lemma ParseCharsFrom(s: string, c: char)
    requires c !in s
    ensures Avoids(Parse(s), c)
  {
    ParseRecompose(s);
  }

  // ---------------------------------------------------------------------
  // scheme://netloc

  /** `f"{p.scheme}://{p.netloc}"` for `p = urlparse(url)`. */
  function Origin(url: string): string {
    var u := Parse(url);
    u.scheme.GetOr("") + "://" + u.authority.GetOr("")
  }

  /** `f"{p.scheme}://{p.netloc}/"`: the origin followed by a slash. */
  function Referer(url: string): string {
    Origin(url) + "/"
  }

  /**
   * For a URL with a scheme and an authority, the origin is exactly the
   * URL's leading part, and what follows it is path, query and fragment.
   */
  lemma OriginIsPrefix(url: string)
    requires Parse(url).scheme.Some? && Parse(url).authority.Some?
    ensures var u := Parse(url);
      url == Origin(url) + u.path + QueryPart(u) + FragmentPart(u)
  {
    ParseRecompose(url);
    var u := Parse(url);
    OriginSpelling(u.scheme.value, u.authority.value);
    assert SchemePart(u) + AuthorityPart(u) == Origin(url);
  }

  lemma OriginSpelling(scheme: string, authority: string)
    ensures scheme + ":" + ("//" + authority) == scheme + "://" + authority
  {
  }

  // ---------------------------------------------------------------------
  // Dot-segment removal, section 5.2.4 of RFC 3986

  /**
   * Processes path segments left to right over a stack of output segments:
   * `"."` is dropped, `".."` pops one segment (none when the stack is empty),
   * anything else is pushed; a final `"."` or `".."` leaves a trailing slash.
   */
  function ResolveSegments(stack: seq<string>, segs: seq<string>): seq<string>
    decreases |segs|
  {
    if segs == [] then stack
    else
      var seg := segs[0];
      var popped := if stack == [] then [] else stack[..|stack| - 1];
      if seg == "." then
        if |segs| == 1 then stack + [""] else ResolveSegments(stack, segs[1..])
      else if seg == ".." then
        if |segs| == 1 then popped + [""] else ResolveSegments(popped, segs[1..])
      else ResolveSegments(stack + [seg], segs[1..])
  }

  /** Resolution never pushes a dot segment. */
  lemma {:induction false} ResolveSegmentsDotFree(stack: seq<string>, segs: seq<string>)
    requires forall x :: x in stack ==> x != "." && x != ".."
    ensures forall x :: x in ResolveSegments(stack, segs) ==> x != "." && x != ".."
    decreases |segs|
  {
    if segs != [] {
      var seg, rest := segs[0], segs[1..];
      var popped := if stack == [] then [] else stack[..|stack| - 1];
      assert forall x :: x in popped ==> x in stack;
      if |segs| > 1 {
        if seg == "." {
          ResolveSegmentsDotFree(stack, rest);
        } else if seg == ".." {
          ResolveSegmentsDotFree(popped, rest);
        } else {
          assert forall x :: x in stack + [seg] ==> x in stack || x == seg;
          ResolveSegmentsDotFree(stack + [seg], rest);
        }
      }
    }
  }

  /** Resolution only keeps segments it was given, or the empty one it adds for a trailing slash. */
  lemma {:induction false} ResolveSegmentsFrom(stack: seq<string>, segs: seq<string>)
    ensures forall x :: x in ResolveSegments(stack, segs) ==> x in stack || x in segs || x == ""
    decreases |segs|
  {
    if segs != [] {
      var seg, rest := segs[0], segs[1..];
      var popped := if stack == [] then [] else stack[..|stack| - 1];
      assert forall x :: x in popped ==> x in stack;
      assert forall x :: x in rest ==> x in segs;
      if |segs| > 1 {
        if seg == "." {
          ResolveSegmentsFrom(stack, rest);
        } else if seg == ".." {
          ResolveSegmentsFrom(popped, rest);
        } else {
          assert forall x :: x in stack + [seg] ==> x in stack || x == seg;
          ResolveSegmentsFrom(stack + [seg], rest);
        }
      }
    }
  }

  /** Resolution ends with the last segment it was given, or with the empty one. */
  lemma {:induction false} ResolveSegmentsLast(stack: seq<string>, segs: seq<string>)
    requires segs != []
    ensures var out := ResolveSegments(stack, segs);
      |out| > 0 && (out[|out| - 1] == "" || out[|out| - 1] == segs[|segs| - 1])
    decreases |segs|
  {
    if |segs| > 1 {
      var seg, rest := segs[0], segs[1..];
      var popped := if stack == [] then [] else stack[..|stack| - 1];
      assert rest[|rest| - 1] == segs[|segs| - 1];
      if seg == "." {
        ResolveSegmentsLast(stack, rest);
      } else if seg == ".." {
        ResolveSegmentsLast(popped, rest);
      } else {
        ResolveSegmentsLast(stack + [seg], rest);
      }
    }
  }

  /** `remove_dot_segments` on a path. */
  function RemoveDotSegments(path: string): (r: string)
    ensures path != [] && path[0] == '/' ==> r != [] && r[0] == '/'
  {
    if path != [] && path[0] == '/' then "/" + Join(ResolveSegments([], Split(path[1..], '/')), "/")
    else Join(ResolveSegments([], Split(path, '/')), "/")
  }

  /** Resolving `'/'`-free pieces from an empty stack gives `'/'`-free, dot-free pieces, at least one. */
  lemma ResolvedPieces(segs: seq<string>)
    requires segs != [] && forall p :: p in segs ==> '/' !in p
    ensures var out := ResolveSegments([], segs);
      |out| >= 1 && forall x :: x in out ==> '/' !in x && x != "." && x != ".."
  {
    ResolveSegmentsDotFree([], segs);
    ResolveSegmentsFrom([], segs);
    ResolveSegmentsLast([], segs);
  }

  /** A rooted join splits back into an empty first piece followed by the pieces. */
  lemma SplitRooted(out: seq<string>)
    requires |out| >= 1 && forall x :: x in out ==> '/' !in x
    ensures Split("/" + Join(out, "/"), '/') == [""] + out
  {
    var all := [""] + out;
    assert all[1..] == out;
    assert Join(all, "/") == "" + "/" + Join(out, "/");
    forall x | x in all ensures '/' !in x {
      var i :| 0 <= i < |all| && all[i] == x;
      if i > 0 { assert x == out[i - 1]; }
    }
    SplitJoin(all, '/');
  }

  /**
   * Dot-segment removal does what it is named for: no `'/'`-separated
   * segment of the result is `"."` or `".."`.
   */
  lemma RemoveDotSegmentsIsDotFree(path: string)
    ensures forall x :: x in Split(RemoveDotSegments(path), '/') ==> x != "." && x != ".."
  {
    if path != [] && path[0] == '/' {
      var out := ResolveSegments([], Split(path[1..], '/'));
      ResolvedPieces(Split(path[1..], '/'));
      SplitRooted(out);
      assert RemoveDotSegments(path) == "/" + Join(out, "/");
    } else {
      var out := ResolveSegments([], Split(path, '/'));
      ResolvedPieces(Split(path, '/'));
      SplitJoin(out, '/');
      assert RemoveDotSegments(path) == Join(out, "/");
    }
  }

  /** Removing dot segments keeps a clean end. */
  lemma RemoveDotSegmentsEndsClean(path: string)
    requires EndsClean(path)
    ensures EndsClean(RemoveDotSegments(path))
  {
    if path != [] && path[0] == '/' {
      var x := path[1..];
      assert path == [path[0]] + x;
      EndsCleanSuffix([path[0]], x);
      ResolvedEndsClean(x);
      EndsCleanAppend("/", Join(ResolveSegments([], Split(x, '/')), "/"));
    } else {
      ResolvedEndsClean(path);
    }
  }

  /** The resolved segments of a clean-ended path join to a clean-ended string. */
  lemma ResolvedEndsClean(x: string)
    requires EndsClean(x)
    ensures EndsClean(Join(ResolveSegments([], Split(x, '/')), "/"))
  {
    var segs := Split(x, '/');
    LastSegmentEndsClean(x);
    ResolveSegmentsLast([], segs);
    JoinEndsClean(ResolveSegments([], segs), segs[|segs| - 1]);
  }

  lemma LastSegmentEndsClean(x: string)
    requires EndsClean(x)
    ensures var segs := Split(x, '/'); EndsClean(segs[|segs| - 1])
  {
    var segs := Split(x, '/');
    if |segs| >= 2 {
      JoinLast(segs, "/");
      EndsCleanSuffix(Join(segs[..|segs| - 1], "/") + "/", segs[|segs| - 1]);
    }
  }

  /** A join whose last piece is empty or clean-ended is clean-ended. */
  lemma JoinEndsClean(out: seq<string>, last: string)
    requires |out| > 0 && EndsClean(last)
    requires out[|out| - 1] == [] || out[|out| - 1] == last
    ensures EndsClean(Join(out, "/"))
  {
    var tail := out[|out| - 1];
    assert EndsClean(tail);
    if |out| >= 2 {
      var front := Join(out[..|out| - 1], "/");
      JoinLast(out, "/");
      assert Join(out, "/") == front + ("/" + tail);
      EndsCleanAppend("/", tail);
      EndsCleanAppend(front, "/" + tail);
    } else {
      assert Join(out, "/") == tail;
    }
  }

  /** Removing dot segments introduces no character other than `'/'`. */
  lemma RemoveDotSegmentsChars(path: string, c: char)
    requires c !in path && c != '/'
    ensures c !in RemoveDotSegments(path)
  {
    var x := if path != [] && path[0] == '/' then path[1..] else path;
    assert forall ch :: ch in x ==> ch in path;
    var segs := Split(x, '/');
    var out := ResolveSegments([], segs);
    ResolveSegmentsFrom([], segs);
    forall k | 0 <= k < |segs|
      ensures c !in segs[k]
    {
      if c in segs[k] {
        JoinHasPartChars(segs, "/", k, c);
      }
    }
    assert forall k :: 0 <= k < |out| ==> c !in out[k] by {
      forall k | 0 <= k < |out|
        ensures c !in out[k]
      {
        assert out[k] in out;
      }
    }
    if c in Join(out, "/") {
      JoinChars(out, "/", c);
    }
  }

  // ---------------------------------------------------------------------
  // Reference resolution, section 5.2 of RFC 3986

  /** The directory part of a path: up to and including its last `'/'`. */
  function DirectoryOf(p: string): (d: string)
    ensures d <= p
    ensures d == [] ==> '/' !in p
    ensures d != [] ==> d[|d| - 1] == '/'
  {
    if p == [] then []
    else if p[|p| - 1] == '/' then p
    else
      assert p == p[..|p| - 1] + [p[|p| - 1]];
      DirectoryOf(p[..|p| - 1])
  }

  /** Merging a relative path with the base's, section 5.2.3 of RFC 3986. */
  function Merge(base: Url, refPath: string): string {
    if base.authority.Some? && base.path == [] then "/" + refPath
    else DirectoryOf(base.path) + refPath
  }

  /** Schemes for which `urljoin` resolves relative references. */
  const UsesRelative: set<string> := {"", "ftp", "http", "gopher", "nntp", "imap", "wais", "file",
    "https", "shttp", "mms", "prospero", "rtsp", "rtsps", "rtspu", "sftp", "svn", "svn+ssh", "ws", "wss"}

  /**
   * The target of a scheme-less reference `r` against base `b`: the
   * transformation of section 5.2.2 of RFC 3986.
   */
  function Resolve(b: Url, r: Url): Url {
    if r.authority.Some? then Url(b.scheme, r.authority, RemoveDotSegments(r.path), r.query, r.fragment)
    else if r.path == [] then Url(b.scheme, b.authority, b.path, if r.query.Some? then r.query else b.query, r.fragment)
    else if r.path[0] == '/' then Url(b.scheme, b.authority, RemoveDotSegments(r.path), r.query, r.fragment)
    else Url(b.scheme, b.authority, RemoveDotSegments(Merge(b, r.path)), r.query, r.fragment)
  }

  /** `urljoin(base, ref)`. */
  function UrlJoin(base: string, ref: string): string {
    if base == [] then ref
    else if ref == [] then base
    else
      var b := Parse(base);
      var r := Parse(ref);
      var scheme := b.scheme.GetOr("");
      if r.scheme.GetOr(scheme) != scheme || scheme !in UsesRelative then ref
      else Recompose(Resolve(b, r))
  }

  predicate IsHttpScheme(scheme: Option<string>) {
    scheme == Some("http") || scheme == Some("https")
  }

  /** A merged path against a base with an authority is absolute. */
  lemma MergeIsAbsolute(b: Url, refPath: string)
    requires b.authority.Some? && (b.path == [] || b.path[0] == '/')
    ensures Merge(b, refPath) != [] && Merge(b, refPath)[0] == '/'
  {
    if b.path != [] {
      var d := DirectoryOf(b.path);
      assert b.path[0] in b.path;
      assert d != [] && d[0] == b.path[0];
    }
  }

  /** The last component a URL has: the one its recomposition ends with. */
  function LastPart(u: Url): string {
    if u.fragment.Some? then FragmentPart(u)
    else if u.query.Some? then QueryPart(u)
    else if u.path != [] then u.path
    else if u.authority.Some? then AuthorityPart(u)
    else SchemePart(u)
  }

  /** A recomposed URL ends cleanly exactly when its last component does. */
  lemma LastPartEndsClean(u: Url)
    ensures EndsClean(Recompose(u)) <==> EndsClean(LastPart(u))
  {
    var s, a, p, q, f := SchemePart(u), AuthorityPart(u), u.path, QueryPart(u), FragmentPart(u);
    var all := Recompose(u);
    var last := LastPart(u);
    if f != [] {
      assert all == (s + a + p + q) + f;
    } else if q != [] {
      assert all == (s + a + p) + q;
    } else if p != [] {
      assert all == (s + a) + p;
    } else if a != [] {
      assert all == s + a;
    } else {
      assert all == s;
    }
    assert last != [] ==> all[|all| - 1] == last[|last| - 1];
  }

  /** The path of a URL with an authority is empty or absolute, as `Parse` produces. */
  predicate PathFitsAuthority(u: Url) {
    u.authority.Some? ==> u.path == [] || u.path[0] == '/'
  }

  /**
   * Resolving a non-empty, clean-ended, scheme-less reference against a base
   * with a scheme gives a clean-ended URL.
   */
  lemma ResolveEndsClean(b: Url, r: Url)
    requires b.scheme.Some? && r.scheme.None?
    requires PathFitsAuthority(b) && PathFitsAuthority(r)
    requires Recompose(r) != [] && EndsClean(Recompose(r))
    ensures EndsClean(Recompose(Resolve(b, r)))
  {
    LastPartEndsClean(r);
    if r.fragment.Some? || r.query.Some? {
      var t := Resolve(b, r);
      LastPartEndsClean(t);
      assert LastPart(t) == LastPart(r);
    } else if r.authority.Some? {
      AuthorityRefEndsClean(b, r);
    } else {
      PathRefEndsClean(b, r);
    }
  }

  /** `ResolveEndsClean` for a reference that ends with its authority or path. */
  lemma AuthorityRefEndsClean(b: Url, r: Url)
    requires r.fragment.None? && r.query.None? && r.authority.Some?
    requires PathFitsAuthority(r) && EndsClean(LastPart(r))
    ensures EndsClean(Recompose(Resolve(b, r)))
  {
    var t := Resolve(b, r);
    LastPartEndsClean(t);
    if r.path == [] {
      assert Split([], '/') == [[]];
      assert RemoveDotSegments([]) == [];
      assert LastPart(t) == LastPart(r);
    } else {
      RemoveDotSegmentsEndsClean(r.path);
    }
  }

  /** `ResolveEndsClean` for a reference that is a bare non-empty path. */
  lemma PathRefEndsClean(b: Url, r: Url)
    requires b.scheme.Some? && PathFitsAuthority(b)
    requires r.fragment.None? && r.query.None? && r.authority.None?
    requires r.path != [] && EndsClean(r.path)
    ensures EndsClean(Recompose(Resolve(b, r)))
  {
    var t := Resolve(b, r);
    LastPartEndsClean(t);
    var merged := if r.path[0] == '/' then r.path else Merge(b, r.path);
    assert EndsClean(merged) by {
      if r.path[0] != '/' {
        if b.authority.Some? && b.path == [] {
          EndsCleanAppend("/", r.path);
        } else {
          EndsCleanAppend(DirectoryOf(b.path), r.path);
        }
      }
    }
    RemoveDotSegmentsEndsClean(merged);
    if b.authority.Some? {
      MergeIsAbsolute(b, r.path);
    } else if t.path == [] {
      assert LastPart(t) == SchemePart(t);
      assert SchemePart(t)[|SchemePart(t)| - 1] == ':';
    }
  }

  /**
   * Against an `http`/`https` base, a stripped reference that does not
   * itself start with `"http"` resolves either to itself (a reference with a
   * foreign scheme) or to a stripped URL that starts with `"http"`.
   */
  lemma UrlJoinShape(base: string, ref: string)
    requires IsHttpScheme(Parse(base).scheme)
    requires ref != [] && Stripped(ref) && !("http" <= ref)
    ensures var t := UrlJoin(base, ref); t == ref || ("http" <= t && Stripped(t))
  {
    var r := Parse(ref);
    if base != [] && r.scheme.None? {
      RelativeJoinShape(base, ref);
    } else if base != [] && r.scheme.value == Parse(base).scheme.value {
      ParseRecompose(ref);
      HttpPrefix(r);
      assert false;
    } else if base != [] {
      assert r.scheme.GetOr(Parse(base).scheme.GetOr("")) != Parse(base).scheme.GetOr("");
      assert UrlJoin(base, ref) == ref;
    }
  }

  /** The relative case of `UrlJoinShape`: the reference is resolved against the base. */
  lemma RelativeJoinShape(base: string, ref: string)
    requires IsHttpScheme(Parse(base).scheme) && base != []
    requires ref != [] && Stripped(ref) && Parse(ref).scheme.None?
    ensures "http" <= UrlJoin(base, ref) && Stripped(UrlJoin(base, ref))
  {
    var b, r := Parse(base), Parse(ref);
    HttpUsesRelative();
    assert b.scheme.GetOr("") in UsesRelative && r.scheme.GetOr(b.scheme.GetOr("")) == b.scheme.GetOr("");
    assert UrlJoin(base, ref) == Recompose(Resolve(b, r));
    ParseRecompose(base);
    ParseRecompose(ref);
    ResolvedShape(b, r);
  }

  /** Both web schemes resolve relative references. */
  lemma HttpUsesRelative()
    ensures "http" in UsesRelative && "https" in UsesRelative
  {
  }

  /** Resolving a clean-ended, scheme-less reference against an `http`/`https` base gives a stripped `http` URL. */
  lemma ResolvedShape(b: Url, r: Url)
    requires IsHttpScheme(b.scheme) && r.scheme.None?
    requires PathFitsAuthority(b) && PathFitsAuthority(r)
    requires Recompose(r) != [] && Stripped(Recompose(r))
    ensures "http" <= Recompose(Resolve(b, r)) && Stripped(Recompose(Resolve(b, r)))
  {
    var t := Resolve(b, r);
    ResolveEndsClean(b, r);
    HttpPrefix(t);
    HttpStripped(Recompose(t));
  }

  /** A clean-ended string that starts with `"http"` is stripped. */
  lemma HttpStripped(t: string)
    requires "http" <= t && EndsClean(t)
    ensures Stripped(t)
  {
    assert t[0] == 'h';
  }

  /** A URL with an `http` or `https` scheme starts with `"http"`. */
  lemma HttpPrefix(u: Url)
    requires IsHttpScheme(u.scheme)
    ensures "http" <= Recompose(u)
  {
    var rest := AuthorityPart(u) + u.path + QueryPart(u) + FragmentPart(u);
    assert Recompose(u) == u.scheme.value + ":" + rest;
  }

  /** No component of `u` holds `c`. */
  predicate Avoids(u: Url, c: char) {
    (u.scheme.Some? ==> c !in u.scheme.value) && (u.authority.Some? ==> c !in u.authority.value)
    && c !in u.path && (u.query.Some? ==> c !in u.query.value) && (u.fragment.Some? ==> c !in u.fragment.value)
  }

  /** Recomposition adds only the delimiters `':'`, `'/'`, `'?'` and `'#'`. */
  lemma RecomposeChars(u: Url, c: char)
    requires Avoids(u, c)
    requires c != ':' && c != '/' && c != '?' && c != '#'
    ensures c !in Recompose(u)
  {
  }

  /** Resolution takes its components from the base and the reference. */
  lemma ResolveChars(b: Url, r: Url, c: char)
    requires Avoids(b, c) && Avoids(r, c) && c != '/'
    ensures Avoids(Resolve(b, r), c)
  {
    if r.authority.Some? || (r.path != [] && r.path[0] == '/') {
      RemoveDotSegmentsChars(r.path, c);
    } else if r.path != [] {
      assert c !in DirectoryOf(b.path) by {
        assert forall ch :: ch in DirectoryOf(b.path) ==> ch in b.path;
      }
      RemoveDotSegmentsChars(Merge(b, r.path), c);
    }
  }

  /**
   * Resolution introduces no character other than the delimiters
   * `':'`, `'/'`, `'?'` and `'#'`.
   */
  lemma UrlJoinChars(base: string, ref: string, c: char)
    requires c !in base && c !in ref
    requires c != ':' && c != '/' && c != '?' && c != '#'
    ensures c !in UrlJoin(base, ref)
  {
    if base != [] && ref != [] {
      var b, r := Parse(base), Parse(ref);
      ParseCharsFrom(base, c);
      ParseCharsFrom(ref, c);
      ResolveChars(b, r, c);
      RecomposeChars(Resolve(b, r), c);
    }
  }
}
