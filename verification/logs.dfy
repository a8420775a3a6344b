/**
 * The bounded log buffers of the terminal (20 entries) and web (50 entries)
 * front-ends: `logs.append(x)` followed by one `logs.pop(0)` when the list
 * has grown past its capacity.
 */
module Logs {

  /** One `add_log`: append, then drop the oldest entry if over capacity. */
  function Push<T>(buf: seq<T>, x: T, cap: nat): seq<T> {
    var b := buf + [x];
    if |b| > cap then b[1..] else b
  }

  /** A sequence of `add_log` calls, oldest first. */
  function PushAll<T>(buf: seq<T>, xs: seq<T>, cap: nat): seq<T>
    decreases |xs|
  {
    if xs == [] then buf else PushAll(Push(buf, xs[0], cap), xs[1..], cap)
  }

  /** Logging one entry is one push. */
  lemma PushAllSingle<T>(buf: seq<T>, x: T, cap: nat)
    ensures PushAll(buf, [x], cap) == Push(buf, x, cap)
  {
    assert [x][1..] == [];
  }

  /** Logging `xs` and then `ys` is logging `xs + ys`. */
  lemma {:induction false} PushAllAppend<T>(buf: seq<T>, xs: seq<T>, ys: seq<T>, cap: nat)
    ensures PushAll(buf, xs + ys, cap) == PushAll(PushAll(buf, xs, cap), ys, cap)
    decreases |xs|
  {
    if xs == [] {
      assert xs + ys == ys;
    } else {
      assert (xs + ys)[0] == xs[0] && (xs + ys)[1..] == xs[1..] + ys;
      PushAllAppend(Push(buf, xs[0], cap), xs[1..], ys, cap);
    }
  }

  /** Logging `xs` and then `x` is one more push after `xs`. */
  lemma PushAllSnoc<T>(buf: seq<T>, xs: seq<T>, x: T, cap: nat)
    ensures PushAll(buf, xs + [x], cap) == Push(PushAll(buf, xs, cap), x, cap)
  {
    PushAllAppend(buf, xs, [x], cap);
    PushAllSingle(PushAll(buf, xs, cap), x, cap);
  }

  /** The most recent `n` entries of `s`, in order. */
  function LastN<T>(s: seq<T>, n: nat): (r: seq<T>)
    ensures |r| == if |s| < n then |s| else n
    ensures r == s[|s| - |r|..]
  {
    if |s| <= n then s else s[|s| - n..]
  }

  /** Within capacity, one push keeps the buffer the newest entries of the history. */
  lemma PushIsLastN<T>(buf: seq<T>, x: T, cap: nat)
    requires |buf| <= cap
    ensures Push(buf, x, cap) == LastN(buf + [x], cap)
    ensures |Push(buf, x, cap)| <= cap
  {
  }

  /**
   * Starting within capacity, the buffer after any run of `add_log` calls
   * holds exactly the most recent `cap` messages of everything logged, in
   * order, so it never exceeds the capacity and drops the oldest first.
   */
  lemma {:induction false} PushAllIsLastN<T>(buf: seq<T>, xs: seq<T>, cap: nat)
    requires |buf| <= cap
    ensures PushAll(buf, xs, cap) == LastN(buf + xs, cap)
    decreases |xs|
  {
    if xs != [] {
      var b := Push(buf, xs[0], cap);
      PushIsLastN(buf, xs[0], cap);
      PushAllIsLastN(b, xs[1..], cap);
      var h := buf + [xs[0]];
      assert buf + xs == h + xs[1..];
      LastNAppend(h, xs[1..], cap);
    }
  }

  /** Trimming to the last `n` entries before appending more does not change the last `n` after. */
  lemma LastNAppend<T>(h: seq<T>, t: seq<T>, n: nat)
    ensures LastN(LastN(h, n) + t, n) == LastN(h + t, n)
  {
    if |h| > n {
      var p := h[..|h| - n];
      var s := h[|h| - n..] + t;
      assert h + t == p + s;
      LastNOfLonger(p, s, n);
    }
  }

  /** The last `n` entries lie entirely in a suffix of length at least `n`. */
  lemma LastNOfLonger<T>(p: seq<T>, s: seq<T>, n: nat)
    requires |s| >= n
    ensures LastN(p + s, n) == LastN(s, n)
  {
    var m := |s| - n;
    assert (p + s)[|p| + m..] == s[m..];
  }
}
