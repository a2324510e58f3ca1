/**
  `download_files`: every URL of a completed job is fetched up to three times,
  stopping at the first 200; the body is saved to a path built from the
  organization and the chunk's dates alone, and that path is appended once per
  URL that succeeded.

  The network is an oracle: `fetch(j, a)` is the response to attempt `a`
  (1-based) on the j-th URL. The raw files of the report directory are a map
  from path to bytes.
 */
module Downloader {
  import opened Wrappers
  import opened ReportFiles

  const MaxRetries: nat := 3
  const HttpOk: int := 200

  datatype Response = Response(status: int, content: seq<byte>)

  type FetchOracle = (nat, nat) -> Response

  /** One fetch: the URL's index and the attempt number. */
  datatype Request = Request(url: int, attempt: int)

  /** What `download_files` leaves behind: the returned list, the raw files and the fetches made. */
  datatype Downloaded = Downloaded(files: seq<Path>, raw: map<Path, seq<byte>>, requests: seq<Request>)

  predicate Succeeds(fetch: FetchOracle, j: nat, a: nat)
  {
    fetch(j, a).status == HttpOk
  }

  /** The first attempt from `a` on that returns 200 for URL `j`, if any within the budget. */
  function FirstSuccessFrom(fetch: FetchOracle, j: nat, a: nat): (r: Option<nat>)
    requires 1 <= a <= MaxRetries + 1
    ensures r.Some? ==> a <= r.value <= MaxRetries && Succeeds(fetch, j, r.value)
    ensures r.Some? ==> forall b :: a <= b < r.value ==> !Succeeds(fetch, j, b)
    ensures r.None? ==> forall b :: a <= b <= MaxRetries ==> !Succeeds(fetch, j, b)
    decreases MaxRetries + 1 - a
  {
    if a > MaxRetries then None
    else if Succeeds(fetch, j, a) then Some(a)
    else FirstSuccessFrom(fetch, j, a + 1)
  }

  function FirstSuccess(fetch: FetchOracle, j: nat): Option<nat>
  {
    FirstSuccessFrom(fetch, j, 1)
  }

  /** How many times URL `j` is fetched: up to its first 200, or the whole budget. */
  function Attempts(fetch: FetchOracle, j: nat): (n: nat)
    ensures 1 <= n <= MaxRetries
    ensures n < MaxRetries ==> Succeeds(fetch, j, n)
    ensures forall b :: 1 <= b < n ==> !Succeeds(fetch, j, b)
  {
    match FirstSuccess(fetch, j)
    case Some(a) => a
    case None => MaxRetries
  }

  /** How many of the first `n` URLs succeed within the budget. */
  function SuccessCount(fetch: FetchOracle, n: nat): (c: nat)
    ensures c <= n
  {
    if n == 0 then 0
    else SuccessCount(fetch, n - 1) + (if FirstSuccess(fetch, n - 1).Some? then 1 else 0)
  }

  /** The last of the first `n` URLs that succeeds: its body is what stays on disk. */
  function LastSuccess(fetch: FetchOracle, n: nat): (r: Option<nat>)
    ensures r.Some? ==> r.value < n && FirstSuccess(fetch, r.value).Some?
    ensures r.Some? ==> forall j :: r.value < j < n ==> FirstSuccess(fetch, j).None?
    ensures r.None? ==> forall j :: 0 <= j < n ==> FirstSuccess(fetch, j).None?
  {
    if n == 0 then None
    else if FirstSuccess(fetch, n - 1).Some? then Some(n - 1)
    else LastSuccess(fetch, n - 1)
  }

  /** The raw files once the first `n` URLs are done: each success overwrites `path`. */
  function StoredAfter(raw: map<Path, seq<byte>>, path: Path, fetch: FetchOracle, n: nat): map<Path, seq<byte>>
  {
    match LastSuccess(fetch, n)
    case None => raw
    case Some(j) => raw[path := fetch(j, FirstSuccess(fetch, j).value).content]
  }

  /** The fetches made for URL `j`: attempts 1, 2, ... up to `Attempts(fetch, j)`. */
  function Tried(fetch: FetchOracle, j: nat): seq<Request>
  {
    seq(Attempts(fetch, j), a => Request(j, a + 1))
  }

  /** The fetches made for the first `n` URLs, in order. */
  function RequestLog(fetch: FetchOracle, n: nat): seq<Request>
  {
    if n == 0 then [] else RequestLog(fetch, n - 1) + Tried(fetch, n - 1)
  }

  /** `download_files` as a function of the oracle. */
  function DownloadSpec(urlCount: nat, start: string, end: string, org: string,
                        fetch: FetchOracle, raw: map<Path, seq<byte>>): Downloaded
  {
    var path := RawPath(org, start, end);
    Downloaded(seq(SuccessCount(fetch, urlCount), _ => path),
               StoredAfter(raw, path, fetch, urlCount),
               RequestLog(fetch, urlCount))
  }

  /** A URL that succeeds adds the path once, overwrites the file and logs its attempts. */
  lemma StepOnSuccess(raw: map<Path, seq<byte>>, path: Path, fetch: FetchOracle, j: nat)
    requires FirstSuccess(fetch, j).Some?
    ensures seq(SuccessCount(fetch, j + 1), _ => path) == seq(SuccessCount(fetch, j), _ => path) + [path]
    ensures StoredAfter(raw, path, fetch, j + 1)
         == StoredAfter(raw, path, fetch, j)[path := fetch(j, FirstSuccess(fetch, j).value).content]
    ensures RequestLog(fetch, j + 1)
         == RequestLog(fetch, j) + seq(FirstSuccess(fetch, j).value, a => Request(j, a + 1))
  {
  }

  /** A URL that fails every attempt adds nothing, changes no file and logs three attempts. */
  lemma StepOnFailure(raw: map<Path, seq<byte>>, path: Path, fetch: FetchOracle, j: nat)
    requires FirstSuccess(fetch, j).None?
    ensures SuccessCount(fetch, j + 1) == SuccessCount(fetch, j)
    ensures StoredAfter(raw, path, fetch, j + 1) == StoredAfter(raw, path, fetch, j)
    ensures RequestLog(fetch, j + 1) == RequestLog(fetch, j) + seq(MaxRetries, a => Request(j, a + 1))
  {
  }

  /**
    The retry loop for one URL (lines 62-78): fetch until the first 200, at
    most `MaxRetries` times; the body of that 200, if any, and the fetches made.
   */
  method FetchWithRetries(fetch: FetchOracle, j: nat) returns (body: Option<seq<byte>>, tried: seq<Request>)
    ensures tried == Tried(fetch, j)
    ensures body.Some? <==> FirstSuccess(fetch, j).Some?
    ensures body.Some? ==> body.value == fetch(j, FirstSuccess(fetch, j).value).content
  {
    body, tried := None, [];
    for attempt := 1 to MaxRetries + 1
      invariant forall b :: 1 <= b < attempt ==> !Succeeds(fetch, j, b)
      invariant tried == seq(attempt - 1, a => Request(j, a + 1))
      invariant body.None?
    {
      var response := fetch(j, attempt);
      tried := tried + [Request(j, attempt)];
      if response.status == HttpOk {
        assert FirstSuccess(fetch, j) == Some(attempt);
        body := Some(response.content);
        return;
      }
    }
    assert FirstSuccess(fetch, j).None?;
  }

  /** `download_files` (lines 56-80). */
  method DownloadFiles(urls: seq<string>, start: string, end: string, org: string,
                       fetch: FetchOracle, raw: map<Path, seq<byte>>)
    returns (files: seq<Path>, raw': map<Path, seq<byte>>, requests: seq<Request>)
    ensures Downloaded(files, raw', requests) == DownloadSpec(|urls|, start, end, org, fetch, raw)
  {
    var path := RawPath(org, start, end);
    files, raw', requests := [], raw, [];
    for j := 0 to |urls|
      invariant files == seq(SuccessCount(fetch, j), _ => path)
      invariant raw' == StoredAfter(raw, path, fetch, j)
      invariant requests == RequestLog(fetch, j)
    {
      var body, tried := FetchWithRetries(fetch, j);
      requests := requests + tried;
      if body.Some? {
        StepOnSuccess(raw, path, fetch, j);
        files := files + [path];
        raw' := raw'[path := body.value];
      } else {
        StepOnFailure(raw, path, fetch, j);
      }
    }
  }

  /** Number of fetches in `log` made for URL `j`. */
  function CountFor(log: seq<Request>, j: int): nat
  {
    if log == [] then 0
    else CountFor(log[..|log| - 1], j) + (if log[|log| - 1].url == j then 1 else 0)
  }

  lemma {:induction false} CountForAppend(a: seq<Request>, b: seq<Request>, j: int)
    ensures CountFor(a + b, j) == CountFor(a, j) + CountFor(b, j)
    decreases |b|
  {
    if b == [] {
      assert a + b == a;
    } else {
      var b' := b[..|b| - 1];
      assert (a + b)[..|a + b| - 1] == a + b';
      CountForAppend(a, b', j);
    }
  }

  lemma {:induction false} CountForUniform(log: seq<Request>, k: int, j: int)
    requires forall i :: 0 <= i < |log| ==> log[i].url == k
    ensures CountFor(log, j) == if k == j then |log| else 0
    decreases |log|
  {
    if log != [] {
      CountForUniform(log[..|log| - 1], k, j);
    }
  }

  lemma CountForTried(fetch: FetchOracle, k: nat, j: int)
    ensures CountFor(Tried(fetch, k), j) == if k == j then Attempts(fetch, k) else 0
  {
    CountForUniform(Tried(fetch, k), k, j);
  }

  /**
    Each URL is fetched exactly `Attempts(fetch, j)` times (between one and
    three, three when it never answers 200), whatever happened to the URLs
    before it; URLs beyond the list are never fetched.
   */
  lemma {:induction false} RequestsPerUrl(fetch: FetchOracle, n: nat, j: nat)
    ensures CountFor(RequestLog(fetch, n), j) == if j < n then Attempts(fetch, j) else 0
  {
    if n > 0 {
      RequestsPerUrl(fetch, n - 1, j);
      CountForAppend(RequestLog(fetch, n - 1), Tried(fetch, n - 1), j);
      CountForTried(fetch, n - 1, j);
    }
  }

  /** A URL whose three attempts all fail is fetched exactly three times. */
  lemma AlwaysFailingUrlTriedThreeTimes(fetch: FetchOracle, n: nat, j: nat)
    requires j < n
    requires forall a :: 1 <= a <= MaxRetries ==> !Succeeds(fetch, j, a)
    ensures CountFor(RequestLog(fetch, n), j) == MaxRetries
  {
    RequestsPerUrl(fetch, n, j);
  }

  /**
    The returned list has at most one entry per URL, every entry is the same
    path built from the organization and the dates, and only that path of the
    raw files changes.
   */
  lemma DownloadedShape(urlCount: nat, start: string, end: string, org: string,
                        fetch: FetchOracle, raw: map<Path, seq<byte>>)
    ensures var d := DownloadSpec(urlCount, start, end, org, fetch, raw);
      |d.files| <= urlCount &&
      (forall i :: 0 <= i < |d.files| ==> d.files[i] == RawPath(org, start, end)) &&
      (forall p :: p != RawPath(org, start, end) ==> Lookup(d.raw, p) == Lookup(raw, p))
  {
  }

  /**
    When two URLs succeed, the list names the same file twice and the file
    holds only the body of the later one.
   */
  lemma TwoSuccessesShareOneFile(urlCount: nat, start: string, end: string, org: string,
                                 fetch: FetchOracle, raw: map<Path, seq<byte>>, j1: nat, j2: nat)
    requires j1 < j2 < urlCount
    requires FirstSuccess(fetch, j1).Some? && FirstSuccess(fetch, j2).Some?
    requires forall j :: j2 < j < urlCount ==> FirstSuccess(fetch, j).None?
    ensures var d := DownloadSpec(urlCount, start, end, org, fetch, raw);
      |d.files| >= 2 && d.files[0] == d.files[1] &&
      d.raw[RawPath(org, start, end)] == fetch(j2, FirstSuccess(fetch, j2).value).content
  {
    SuccessCountAtLeastTwo(fetch, urlCount, j1, j2);
  }

  lemma {:induction false} SuccessCountMonotone(fetch: FetchOracle, m: nat, n: nat)
    requires m <= n
    ensures SuccessCount(fetch, m) <= SuccessCount(fetch, n)
    decreases n - m
  {
    if m < n {
      SuccessCountMonotone(fetch, m, n - 1);
    }
  }

  /** The list is full exactly when every URL succeeds, and empty exactly when none does. */
  lemma {:induction false} SuccessCountExtremes(fetch: FetchOracle, n: nat)
    ensures SuccessCount(fetch, n) == n <==> forall j :: 0 <= j < n ==> FirstSuccess(fetch, j).Some?
    ensures SuccessCount(fetch, n) == 0 <==> forall j :: 0 <= j < n ==> FirstSuccess(fetch, j).None?
  {
    if n > 0 {
      SuccessCountExtremes(fetch, n - 1);
    }
  }

  lemma SuccessCountAtLeastTwo(fetch: FetchOracle, n: nat, j1: nat, j2: nat)
    requires j1 < j2 < n
    requires FirstSuccess(fetch, j1).Some? && FirstSuccess(fetch, j2).Some?
    ensures SuccessCount(fetch, n) >= 2
  {
    assert SuccessCount(fetch, j1 + 1) >= 1;
    SuccessCountMonotone(fetch, j1 + 1, j2);
    assert SuccessCount(fetch, j2 + 1) == SuccessCount(fetch, j2) + 1;
    SuccessCountMonotone(fetch, j2 + 1, n);
  }
}
