/**
 * Batch aggregation. Each submitted URL becomes one job; the pool hands
 * the finished jobs back in whatever order they complete
 * (`as_completed`), and the front-ends count successes and failures as
 * they arrive. A job that raised counts as a failure.
 */
module Batch {

  /** The error `ThreadPoolExecutor` raises for a worker count below one. */
  const MaxWorkersError: string := "max_workers must be greater than 0"

  /** How a job ended: it returned `(success, message)`, or it raised. */
  datatype JobOutcome = Returned(ok: bool, message: string) | Raised(error: string)

  /** A finished job: the URL it was submitted for and its outcome. */
  type Completion = (string, JobOutcome)

  /** A job counts as a success only when it returned a true flag. */
  predicate Succeeded(o: JobOutcome) {
    o.Returned? && o.ok
  }

  /** The successes among finished jobs. */
  function Successes(cs: seq<Completion>): nat {
    if cs == [] then 0
    else Successes(cs[..|cs| - 1]) + (if Succeeded(cs[|cs| - 1].1) then 1 else 0)
  }

  /** The failures among finished jobs: false returns and exceptions. */
  function Failures(cs: seq<Completion>): nat {
    if cs == [] then 0
    else Failures(cs[..|cs| - 1]) + (if Succeeded(cs[|cs| - 1].1) then 0 else 1)
  }

  /** The URLs of finished jobs, in completion order. */
  function UrlsOf(cs: seq<Completion>): (us: seq<string>)
    ensures |us| == |cs| && forall k :: 0 <= k < |cs| ==> us[k] == cs[k].0
  {
    seq(|cs|, k requires 0 <= k < |cs| => cs[k].0)
  }

  /** Every submitted URL's job completes exactly once. */
  predicate CompletesAll(cs: seq<Completion>, urls: seq<string>) {
    multiset(UrlsOf(cs)) == multiset(urls)
  }

  /** Every finished job is counted exactly once, as a success or a failure. */
  lemma {:induction false} TallyTotal(cs: seq<Completion>)
    ensures Successes(cs) + Failures(cs) == |cs|
  {
    if cs != [] {
      TallyTotal(cs[..|cs| - 1]);
    }
  }

  /** Counting two batches of completions one after the other adds their counts. */
  lemma {:induction false} TallyAppend(a: seq<Completion>, b: seq<Completion>)
    ensures Successes(a + b) == Successes(a) + Successes(b)
    ensures Failures(a + b) == Failures(a) + Failures(b)
    decreases |b|
  {
    if b == [] {
      assert a + b == a;
    } else {
      var b' := b[..|b| - 1];
      assert (a + b)[..|a + b| - 1] == a + b';
      TallyAppend(a, b');
    }
  }

  /** One more completion advances exactly one of the two counts. */
  lemma TallySnoc(cs: seq<Completion>, c: Completion)
    ensures Successes(cs + [c]) == Successes(cs) + (if Succeeded(c.1) then 1 else 0)
    ensures Failures(cs + [c]) == Failures(cs) + (if Succeeded(c.1) then 0 else 1)
  {
    assert (cs + [c])[..|cs|] == cs;
  }

  /** Taking the `j`-th completion out of `b` removes it from the multiset and from exactly one count. */
  lemma TallyRemove(b: seq<Completion>, j: nat)
    requires j < |b|
    ensures var rest := b[..j] + b[j + 1..];
      multiset(rest) == multiset(b) - multiset{b[j]}
      && Successes(b) == Successes(rest) + (if Succeeded(b[j].1) then 1 else 0)
      && Failures(b) == Failures(rest) + (if Succeeded(b[j].1) then 0 else 1)
  {
    var x := b[j];
    var rest := b[..j] + b[j + 1..];
    assert b == b[..j] + [x] + b[j + 1..];
    assert multiset(rest) == multiset(b) - multiset{x} by {
      assert multiset(b) == multiset(b[..j]) + multiset{x} + multiset(b[j + 1..]);
      assert multiset(rest) == multiset(b[..j]) + multiset(b[j + 1..]);
    }
    TallySnoc(b[..j], x);
    TallyAppend(b[..j] + [x], b[j + 1..]);
    TallyAppend(b[..j], b[j + 1..]);
  }

  /**
   * The counts do not depend on the completion order: any two orders of
   * the same finished jobs give the same totals.
   */
  lemma {:induction false} TallyOrderFree(a: seq<Completion>, b: seq<Completion>)
    requires multiset(a) == multiset(b)
    ensures Successes(a) == Successes(b) && Failures(a) == Failures(b)
    decreases |a|
  {
    if a != [] {
      var x := a[|a| - 1];
      var a' := a[..|a| - 1];
      assert a == a' + [x];
      TallySnoc(a', x);
      assert multiset(a') == multiset(a) - multiset{x} by {
        assert multiset(a) == multiset(a') + multiset{x};
      }
      assert x in multiset(b);
      var j :| 0 <= j < |b| && b[j] == x;
      TallyRemove(b, j);
      TallyOrderFree(a', b[..j] + b[j + 1..]);
    }
  }

  /** Completing every submitted job accounts for every URL. */
  lemma CompletesAllCount(cs: seq<Completion>, urls: seq<string>)
    requires CompletesAll(cs, urls)
    ensures |cs| == |urls| && Successes(cs) + Failures(cs) == |urls|
  {
    TallyTotal(cs);
    assert |multiset(UrlsOf(cs))| == |multiset(urls)|;
  }
}
