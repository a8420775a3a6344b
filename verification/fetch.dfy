/**
 * `download_file`: up to `retry_count` attempts at one URL, stopping at the
 * first success and pausing two seconds after every failure but the last.
 * The network is an oracle: the answer the server gives to each attempt.
 */
module Fetch {
  import opened Wrappers
  import opened Playlist
  import opened Workspace

  /** What one attempt yields: the response body, or the text of the exception raised. */
  datatype FetchOutcome = Fetched(body: Payload) | FetchFailed(error: string)

  /** The outcome of attempt `i` (counting from 0) of one `download_file` call. */
  type Server = nat -> FetchOutcome

  /** Seconds slept after a failed attempt that is not the last. */
  const RetryDelay: nat := 2

  /** How many iterations `range(retry_count)` has: none for a count of zero or less. */
  function Attempts(retryCount: int): nat {
    if retryCount < 0 then 0 else retryCount
  }

  /** The first of the first `n` attempts that succeeds, if any. */
  function FirstSuccess(server: Server, n: nat): (r: Option<nat>)
    ensures r.Some? ==> r.value < n && server(r.value).Fetched?
    ensures r.Some? ==> forall j :: 0 <= j < r.value ==> server(j).FetchFailed?
    ensures r.None? ==> forall j :: 0 <= j < n ==> server(j).FetchFailed?
  {
    if n == 0 then None
    else
      match FirstSuccess(server, n - 1)
      case Some(i) => Some(i)
      case None => if server(n - 1).Fetched? then Some(n - 1) else None
  }

  /** The first success is the only success that follows nothing but failures. */
  lemma FirstSuccessUnique(server: Server, n: nat, i: nat)
    requires i < n && server(i).Fetched?
    requires forall j :: 0 <= j < i ==> server(j).FetchFailed?
    ensures FirstSuccess(server, n) == Some(i)
  {
    var r := FirstSuccess(server, n);
    if r.Some? {
      assert !(r.value < i) && !(i < r.value);
    }
  }

  /**
   * What a call did: the body it stored (if any), how many attempts it
   * made, the errors of its failed attempts in order, and how many times
   * it slept.
   */
  datatype Retry = Retry(body: Option<Payload>, attempts: nat, errors: seq<string>, sleeps: nat)

  /** The errors of the first `k` attempts, all of which failed. */
  function ErrorsOf(server: Server, k: nat): (es: seq<string>)
    requires forall j :: 0 <= j < k ==> server(j).FetchFailed?
    ensures |es| == k && forall j :: 0 <= j < k ==> server(j) == FetchFailed(es[j])
  {
    seq(k, j requires 0 <= j < k => server(j).error)
  }

  /**
   * What `download_file` does against `server`: it stops at the first
   * success, makes every allowed attempt when all fail, sleeps only
   * between two attempts, and returns a body exactly when some allowed
   * attempt succeeds.
   */
  function Expected(server: Server, retryCount: int): (r: Retry)
    ensures r.attempts <= Attempts(retryCount)
    ensures r.body.Some? <==> exists i :: 0 <= i < Attempts(retryCount) && server(i).Fetched?
    ensures r.body.Some? ==> 0 < r.attempts && server(r.attempts - 1) == Fetched(r.body.value)
    ensures r.body.None? ==> r.attempts == Attempts(retryCount)
    ensures |r.errors| == (if r.body.Some? then r.attempts - 1 else r.attempts)
    ensures forall j :: 0 <= j < |r.errors| ==> server(j) == FetchFailed(r.errors[j])
    ensures r.sleeps == (if r.attempts == 0 then 0 else r.attempts - 1)
  {
    var n := Attempts(retryCount);
    match FirstSuccess(server, n)
    case Some(i) => Retry(Some(server(i).body), i + 1, ErrorsOf(server, i), i)
    case None => Retry(None, n, ErrorsOf(server, n), if n == 0 then 0 else n - 1)
  }

  /** A call whose attempt `i` is the first to succeed makes `i + 1` attempts and returns that body. */
  lemma StopsAt(server: Server, retryCount: int, i: nat)
    requires i < Attempts(retryCount) && server(i).Fetched?
    requires forall j :: 0 <= j < i ==> server(j).FetchFailed?
    ensures Expected(server, retryCount).body == Some(server(i).body)
    ensures Expected(server, retryCount).attempts == i + 1
  {
    FirstSuccessUnique(server, Attempts(retryCount), i);
  }

  /** A count of zero or less makes no attempt at all and reports failure. */
  lemma NoAttemptsWithoutCount(server: Server, retryCount: int)
    requires retryCount <= 0
    ensures Expected(server, retryCount) == Retry(None, 0, [], 0)
  {
  }

  /** When every attempt fails, all `n` are made and `n - 1` pauses separate them. */
  lemma AllFailures(server: Server, retryCount: int)
    requires retryCount > 0
    requires forall j :: 0 <= j < retryCount ==> server(j).FetchFailed?
    ensures Expected(server, retryCount).body.None?
    ensures Expected(server, retryCount).attempts == retryCount
    ensures Expected(server, retryCount).sleeps == retryCount - 1
  {
  }

  /**
   * The retry loop of `download_file` in the terminal and desktop
   * downloaders (which log nothing while retrying): the first successful
   * attempt's body is written to `path` and the call reports success.
   */
  method DownloadFile(fs: FileSystem, path: string, server: Server, retryCount: int)
    returns (ok: bool, attempts: nat, errors: seq<string>, sleeps: nat)
    modifies fs
    ensures var r := Expected(server, retryCount);
      ok == r.body.Some? && attempts == r.attempts && errors == r.errors && sleeps == r.sleeps
    ensures fs.dirs == old(fs.dirs)
    ensures fs.files == if ok then old(fs.files)[path := Expected(server, retryCount).body.value] else old(fs.files)
  {
    attempts, errors, sleeps := 0, [], 0;
    var i := 0;
    while i < retryCount
      invariant 0 <= i <= Attempts(retryCount)
      invariant 0 < retryCount ==> i < retryCount
      invariant attempts == i && sleeps == i
      invariant |errors| == i && forall j :: 0 <= j < i ==> server(j) == FetchFailed(errors[j])
      invariant fs.dirs == old(fs.dirs) && fs.files == old(fs.files)
    {
      attempts := attempts + 1;
      match server(i)
      case Fetched(b) =>
        FirstSuccessUnique(server, Attempts(retryCount), i);
        fs.WriteFile(path, b);
        return true, attempts, errors, sleeps;
      case FetchFailed(e) =>
        errors := errors + [e];
        if i == retryCount - 1 {
          assert FirstSuccess(server, Attempts(retryCount)).None?;
          return false, attempts, errors, sleeps;
        }
        sleeps := sleeps + 1;
      i := i + 1;
    }
    return false, attempts, errors, sleeps;
  }
}
