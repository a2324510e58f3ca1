/**
  `process_date_range` and the script's main loop: each chunk's export job is
  created, polled and, only when its final state is exactly "completed",
  downloaded and decompressed; the chunks' CSV paths are collected in chunk
  order with a ten-second pause between chunks, and merged at the end when
  there is anything to merge.

  The API of chunk `i` is `server(i)`: the job-creation answer, the status
  oracle and the download oracle. The report directory is threaded through as
  a value.
 */
module Orchestrator {
  import opened Wrappers
  import opened Text
  import opened ReportFiles
  import opened DateRanges
  import opened JobPoller
  import opened Downloader
  import opened Artifacts
  import opened ReportMerger

  /**
    What the API does for one chunk: `created` is the `usage_export_job_id` of
    a 201 answer (None for any other status or a missing key), then the status
    replies and the download responses.
   */
  datatype Api = Api(created: Option<string>, status: StatusOracle, fetch: FetchOracle)

  /** The report directory: raw downloads and decompressed tables. */
  datatype Dir = Dir(raw: map<Path, seq<byte>>, csv: map<Path, seq<Line>>)

  /** What one call of `process_date_range` returns, sleeps and leaves on disk. */
  datatype ChunkOutcome = ChunkOutcome(result: Option<seq<Path>>, sleeps: seq<nat>, dir: Dir)

  /** Line 247-249: the pause between two chunks. */
  const InterChunkDelay: nat := 10

  /** `if not job_id` (line 177): a missing or empty identifier means the job was not created. */
  predicate JobCreated(created: Option<string>)
  {
    created.Some? && created.value != ""
  }

  /** Decompression never produces an empty file (the merge's `next(f)` needs a first line). */
  ghost predicate NonEmptyOutputs(gunzip: Gunzip)
  {
    forall b :: gunzip(b).Some? ==> |gunzip(b).value| > 0
  }

  /** `process_date_range` (lines 171-221) as a function of the API. */
  function RangeSpec(range: DateRange, org: string, api: Api, gunzip: Gunzip, dir: Dir): ChunkOutcome
  {
    if !JobCreated(api.created) then
      ChunkOutcome(None, [], dir)
    else
      var poll := PollSpec(api.status);
      if poll.state != Some(CompletedState) then
        ChunkOutcome(None, poll.waits, dir)
      else
        var urls := DownloadUrls(poll);
        var d := DownloadSpec(|urls|, range.start, range.end, org, api.fetch, dir.raw);
        var u := UnzipAll(d.files, |d.files|, d.raw, dir.csv, range.start, range.end, org, gunzip);
        ChunkOutcome(Some(u.paths), poll.waits, Dir(d.raw, u.csv))
  }

  /** `process_date_range` (lines 171-221). */
  method ProcessDateRange(range: DateRange, org: string, api: Api, gunzip: Gunzip, dir: Dir)
    returns (result: Option<seq<Path>>, sleeps: seq<nat>, dir': Dir)
    ensures ChunkOutcome(result, sleeps, dir') == RangeSpec(range, org, api, gunzip, dir)
  {
    if !JobCreated(api.created) {
      return None, [], dir;
    }
    var poll := Poll(api.status);
    sleeps := poll.waits;
    if poll.state == Some(CompletedState) {
      var urls := DownloadUrls(poll);
      var files, raw', _ := DownloadFiles(urls, range.start, range.end, org, api.fetch, dir.raw);
      var csvFiles, csv' := UnzipDownloaded(files, raw', dir.csv, range.start, range.end, org, gunzip);
      result, dir' := Some(csvFiles), Dir(raw', csv');
    } else {
      result, dir' := None, dir;
    }
  }

  /**
    The download gate: a chunk yields a list (possibly empty) exactly when its
    job was created and polling ended on "completed"; every other outcome —
    creation failure, a failed query, any other state, twenty "processing"
    replies — yields None and leaves the directory as it was. The chunk sleeps
    only the poll's waits.
   */
  lemma DownloadGate(range: DateRange, org: string, api: Api, gunzip: Gunzip, dir: Dir)
    ensures var c := RangeSpec(range, org, api, gunzip, dir);
      (c.result.Some? <==> JobCreated(api.created) && PollSpec(api.status).state == Some(CompletedState)) &&
      (c.result.None? ==> c.dir == dir) &&
      c.sleeps == (if JobCreated(api.created) then PollSpec(api.status).waits else [])
  {
  }

  /**
    A chunk's list holds the chunk's CSV path only, at most once per URL of
    the completed job, and the raw and decompressed files change only at the
    chunk's two paths.
   */
  lemma ChunkResultShape(range: DateRange, org: string, api: Api, gunzip: Gunzip, dir: Dir)
    ensures var c := RangeSpec(range, org, api, gunzip, dir);
      (c.result.Some? ==> |c.result.value| <= |DownloadUrls(PollSpec(api.status))|) &&
      (c.result.Some? ==> forall i :: 0 <= i < |c.result.value| ==>
                            c.result.value[i] == CsvPath(range.start, range.end, org)) &&
      (forall p :: p != RawPath(org, range.start, range.end) ==> Lookup(c.dir.raw, p) == Lookup(dir.raw, p)) &&
      (forall p :: p != CsvPath(range.start, range.end, org) ==> Lookup(c.dir.csv, p) == Lookup(dir.csv, p))
  {
    var c := RangeSpec(range, org, api, gunzip, dir);
    if c.result.Some? {
      var urls := DownloadUrls(PollSpec(api.status));
      var d := DownloadSpec(|urls|, range.start, range.end, org, api.fetch, dir.raw);
      DownloadedShape(|urls|, range.start, range.end, org, api.fetch, dir.raw);
      UnzipAllShape(d.files, |d.files|, d.raw, dir.csv, range.start, range.end, org, gunzip);
    }
  }

  /**
    With decompression that never yields an empty file, a chunk keeps every
    non-empty decompressed file non-empty, and every path it returns names a
    non-empty file.
   */
  lemma ChunkKeepsFilesReadable(range: DateRange, org: string, api: Api, gunzip: Gunzip, dir: Dir)
    requires NonEmptyOutputs(gunzip)
    ensures var c := RangeSpec(range, org, api, gunzip, dir);
      (forall p :: p in dir.csv && |dir.csv[p]| > 0 ==> p in c.dir.csv && |c.dir.csv[p]| > 0) &&
      (c.result.Some? ==> forall p :: p in c.result.value ==> p in c.dir.csv && |c.dir.csv[p]| > 0)
  {
    var c := RangeSpec(range, org, api, gunzip, dir);
    if c.result.Some? {
      var urls := DownloadUrls(PollSpec(api.status));
      var d := DownloadSpec(|urls|, range.start, range.end, org, api.fetch, dir.raw);
      forall p | p in dir.csv && |dir.csv[p]| > 0
        ensures p in c.dir.csv && |c.dir.csv[p]| > 0
      {
        UnzipAllKeepsNonEmpty(d.files, |d.files|, d.raw, dir.csv, range.start, range.end, org, gunzip, p);
      }
      UnzipAllShape(d.files, |d.files|, d.raw, dir.csv, range.start, range.end, org, gunzip);
      UnzipAllOutputNonEmpty(d.files, |d.files|, d.raw, dir.csv, range.start, range.end, org, gunzip);
    }
  }

  /**
    A completed chunk lists its CSV path once per successful download when the
    raw file left on disk is a valid archive that decompresses, and lists
    nothing (an empty list, not None) otherwise.
   */
  lemma ChunkResultCount(range: DateRange, org: string, api: Api, gunzip: Gunzip, dir: Dir)
    requires JobCreated(api.created) && PollSpec(api.status).state == Some(CompletedState)
    ensures var c := RangeSpec(range, org, api, gunzip, dir);
      var urls := DownloadUrls(PollSpec(api.status));
      var d := DownloadSpec(|urls|, range.start, range.end, org, api.fetch, dir.raw);
      var p := RawPath(org, range.start, range.end);
      var good := ValidateFile(Lookup(d.raw, p)) && gunzip(d.raw[p]).Some?;
      c.result.Some? && |c.result.value| == if good then SuccessCount(api.fetch, |urls|) else 0
  {
    var urls := DownloadUrls(PollSpec(api.status));
    var d := DownloadSpec(|urls|, range.start, range.end, org, api.fetch, dir.raw);
    var p := RawPath(org, range.start, range.end);
    UnzipAllSameFile(d.files, |d.files|, d.raw, dir.csv, range.start, range.end, org, gunzip, p);
  }

  /**
    Two successful downloads of a completed job whose later body decompresses
    put the chunk's CSV path into the list twice.
   */
  lemma SharedDownloadListedTwice(range: DateRange, org: string, api: Api, gunzip: Gunzip, dir: Dir,
                                  j1: nat, j2: nat)
    requires JobCreated(api.created) && PollSpec(api.status).state == Some(CompletedState)
    requires j1 < j2 < |DownloadUrls(PollSpec(api.status))|
    requires FirstSuccess(api.fetch, j1).Some? && FirstSuccess(api.fetch, j2).Some?
    requires forall j :: j2 < j < |DownloadUrls(PollSpec(api.status))| ==> FirstSuccess(api.fetch, j).None?
    requires var body := api.fetch(j2, FirstSuccess(api.fetch, j2).value).content;
      ValidateFile(Some(body)) && gunzip(body).Some?
    ensures var c := RangeSpec(range, org, api, gunzip, dir);
      c.result.Some? && |c.result.value| >= 2 &&
      c.result.value[0] == c.result.value[1] == CsvPath(range.start, range.end, org)
  {
    var urls := DownloadUrls(PollSpec(api.status));
    TwoSuccessesShareOneFile(|urls|, range.start, range.end, org, api.fetch, dir.raw, j1, j2);
    ChunkResultCount(range, org, api, gunzip, dir);
    ChunkResultShape(range, org, api, gunzip, dir);
  }

  /** What the main loop has built after some chunks: `all_csv_files`, the sleeps and the files. */
  datatype RunState = RunState(allCsv: seq<Path>, sleeps: seq<nat>, dir: Dir)

  /**
    One iteration of the main loop (lines 240-249) after `process_date_range`
    returned `c`: a non-empty list extends `all_csv_files`, and the
    ten-second pause follows every chunk but the last.
   */
  function Advance(prev: RunState, c: ChunkOutcome, pause: bool): RunState
  {
    var found := if c.result.Some? && c.result.value != [] then c.result.value else [];
    RunState(prev.allCsv + found, prev.sleeps + c.sleeps + (if pause then [InterChunkDelay] else []), c.dir)
  }

  /**
    The loop over `n` chunks, stopped after the first `k`, where `step(i, d)`
    is what chunk `i` does to the directory `d` left by the chunks before it.
   */
  function Run(step: (nat, Dir) -> ChunkOutcome, n: nat, k: nat, dir: Dir): RunState
    requires k <= n
  {
    if k == 0 then RunState([], [], dir)
    else
      var prev := Run(step, n, k - 1, dir);
      Advance(prev, step(k - 1, prev.dir), k < n)
  }

  /** Chunk `i` of `ranges` run against `server(i)`. */
  function ChunkStep(ranges: seq<DateRange>, org: string, server: nat -> Api, gunzip: Gunzip): (nat, Dir) -> ChunkOutcome
  {
    (i: nat, d: Dir) =>
      if i < |ranges| then RangeSpec(ranges[i], org, server(i), gunzip, d) else ChunkOutcome(None, [], d)
  }

  /** The main loop (lines 239-249) over the first `k` of the chunks `ranges`. */
  function RunChunks(ranges: seq<DateRange>, k: nat, org: string, server: nat -> Api,
                     gunzip: Gunzip, dir: Dir): RunState
    requires k <= |ranges|
  {
    Run(ChunkStep(ranges, org, server, gunzip), |ranges|, k, dir)
  }

  /**
    Lines 242-249, after `process_date_range` returned `csvFiles` and slept
    `chunkSleeps`: extend `all_csv_files` with a non-empty list, then pause
    unless this was the last chunk.
   */
  method Accumulate(allCsv: seq<Path>, sleeps: seq<nat>, csvFiles: Option<seq<Path>>, chunkSleeps: seq<nat>,
                    pause: bool)
    returns (allCsv': seq<Path>, sleeps': seq<nat>)
    ensures allCsv' == allCsv + (if csvFiles.Some? && csvFiles.value != [] then csvFiles.value else [])
    ensures sleeps' == sleeps + chunkSleeps + (if pause then [InterChunkDelay] else [])
  {
    allCsv', sleeps' := allCsv, sleeps + chunkSleeps;
    if csvFiles.Some? && csvFiles.value != [] {
      allCsv' := allCsv' + csvFiles.value;
    }
    if pause {
      sleeps' := sleeps' + [InterChunkDelay];
    }
  }

  /** The state after chunk `k` is the state before it advanced by chunk `k`'s outcome. */
  lemma RunStep(step: (nat, Dir) -> ChunkOutcome, n: nat, k: nat, dir: Dir)
    requires k < n
    ensures var prev := Run(step, n, k, dir);
      Run(step, n, k + 1, dir) == Advance(prev, step(k, prev.dir), k + 1 < n)
  {
  }

  /** The main loop of lines 239-249. */
  method ProcessChunks(ranges: seq<DateRange>, org: string, server: nat -> Api, gunzip: Gunzip, dir: Dir)
    returns (allCsv: seq<Path>, sleeps: seq<nat>, dir': Dir)
    ensures RunState(allCsv, sleeps, dir') == RunChunks(ranges, |ranges|, org, server, gunzip, dir)
  {
    ghost var step := ChunkStep(ranges, org, server, gunzip);
    allCsv, sleeps, dir' := [], [], dir;
    for i := 0 to |ranges|
      invariant RunState(allCsv, sleeps, dir') == Run(step, |ranges|, i, dir)
    {
      ghost var prev := RunState(allCsv, sleeps, dir');
      var csvFiles, chunkSleeps, next := ProcessDateRange(ranges[i], org, server(i), gunzip, dir');
      ghost var c := ChunkOutcome(csvFiles, chunkSleeps, next);
      assert c == step(i, prev.dir);
      allCsv, sleeps := Accumulate(allCsv, sleeps, csvFiles, chunkSleeps, i < |ranges| - 1);
      dir' := next;
      assert RunState(allCsv, sleeps, dir') == Advance(prev, c, i + 1 < |ranges|);
      RunStep(step, |ranges|, i, dir);
    }
  }

  /** How often `x` occurs in `s`. */
  function Occurrences(s: seq<nat>, x: nat): nat
  {
    if s == [] then 0 else Occurrences(s[..|s| - 1], x) + (if s[|s| - 1] == x then 1 else 0)
  }

  lemma {:induction false} OccurrencesAppend(a: seq<nat>, b: seq<nat>, x: nat)
    ensures Occurrences(a + b, x) == Occurrences(a, x) + Occurrences(b, x)
    decreases |b|
  {
    if b == [] {
      assert a + b == a;
    } else {
      assert (a + b)[..|a + b| - 1] == a + b[..|b| - 1];
      OccurrencesAppend(a, b[..|b| - 1], x);
    }
  }

  lemma {:induction false} OccurrencesAbsent(s: seq<nat>, x: nat)
    requires forall i :: 0 <= i < |s| ==> s[i] != x
    ensures Occurrences(s, x) == 0
    decreases |s|
  {
    if s != [] {
      OccurrencesAbsent(s[..|s| - 1], x);
    }
  }

  /** Every sleep of a chunk is a poll wait: between thirty and three hundred seconds. */
  lemma ChunkSleepsAreBackoffs(range: DateRange, org: string, api: Api, gunzip: Gunzip, dir: Dir)
    ensures var c := RangeSpec(range, org, api, gunzip, dir);
      forall i :: 0 <= i < |c.sleeps| ==> BackoffStep <= c.sleeps[i] <= MaxWait
  {
    DownloadGate(range, org, api, gunzip, dir);
    var o := PollSpec(api.status);
    PollSpecFacts(api.status);
    ScheduleShape(|o.waits|);
  }

  /** None of `sleeps` is an inter-chunk pause. */
  ghost predicate NoPause(sleeps: seq<nat>)
  {
    forall i :: 0 <= i < |sleeps| ==> sleeps[i] != InterChunkDelay
  }

  /** One iteration adds one pause, or none after the last chunk, when the chunk's own sleeps are not pauses. */
  lemma AdvancePauses(prev: RunState, c: ChunkOutcome, pause: bool)
    requires NoPause(c.sleeps)
    ensures Occurrences(Advance(prev, c, pause).sleeps, InterChunkDelay)
         == Occurrences(prev.sleeps, InterChunkDelay) + (if pause then 1 else 0)
  {
    var tail: seq<nat> := if pause then [InterChunkDelay] else [];
    OccurrencesAbsent(c.sleeps, InterChunkDelay);
    OccurrencesAppend(prev.sleeps, c.sleeps, InterChunkDelay);
    OccurrencesAppend(prev.sleeps + c.sleeps, tail, InterChunkDelay);
    assert Occurrences(tail, InterChunkDelay) == if pause then 1 else 0 by {
      if pause { assert tail[..0] == []; }
    }
  }

  /** Over any chunks whose own sleeps are never pauses, the loop pauses once between two chunks. */
  lemma {:induction false} RunPauses(step: (nat, Dir) -> ChunkOutcome, n: nat, k: nat, dir: Dir)
    requires k <= n
    requires forall i: nat, d: Dir :: NoPause(step(i, d).sleeps)
    ensures k < n ==> Occurrences(Run(step, n, k, dir).sleeps, InterChunkDelay) == k
    ensures 0 < k == n ==> Occurrences(Run(step, n, k, dir).sleeps, InterChunkDelay) == k - 1
  {
    if k > 0 {
      RunPauses(step, n, k - 1, dir);
      var prev := Run(step, n, k - 1, dir);
      AdvancePauses(prev, step(k - 1, prev.dir), k < n);
    }
  }

  /**
    After `k` chunks the ten-second pause has occurred once per chunk that is
    not the last one: `n - 1` pauses for `n` chunks. The poll's waits are at
    least thirty seconds, so they are never mistaken for a pause.
   */
  lemma InterChunkPauses(ranges: seq<DateRange>, k: nat, org: string,
                         server: nat -> Api, gunzip: Gunzip, dir: Dir)
    requires k <= |ranges|
    ensures k < |ranges| ==> Occurrences(RunChunks(ranges, k, org, server, gunzip, dir).sleeps, InterChunkDelay) == k
    ensures 0 < k == |ranges| ==> Occurrences(RunChunks(ranges, k, org, server, gunzip, dir).sleeps, InterChunkDelay) == k - 1
  {
    var step := ChunkStep(ranges, org, server, gunzip);
    forall i: nat, d: Dir
      ensures NoPause(step(i, d).sleeps)
    {
      if i < |ranges| {
        ChunkSleepsAreBackoffs(ranges[i], org, server(i), gunzip, d);
      }
    }
    RunPauses(step, |ranges|, k, dir);
  }

  /**
    Later chunks only append: the state after `j` chunks is a prefix of the
    state after `k >= j` chunks, for `all_csv_files` and for the sleeps.
   */
  lemma {:induction false} RunPrefix(step: (nat, Dir) -> ChunkOutcome, n: nat, j: nat, k: nat, dir: Dir)
    requires j <= k <= n
    ensures Run(step, n, j, dir).allCsv <= Run(step, n, k, dir).allCsv
    ensures Run(step, n, j, dir).sleeps <= Run(step, n, k, dir).sleeps
    decreases k - j
  {
    if j < k {
      RunPrefix(step, n, j, k - 1, dir);
    }
  }

  /**
    A path is in `all_csv_files` exactly when some chunk before `k` returned a
    list holding it.
   */
  lemma {:induction false} RunCollects(step: (nat, Dir) -> ChunkOutcome, n: nat, k: nat, dir: Dir, p: Path)
    requires k <= n
    ensures p in Run(step, n, k, dir).allCsv <==>
      exists i: nat :: i < k && var c := step(i, Run(step, n, i, dir).dir); c.result.Some? && p in c.result.value
  {
    if k > 0 {
      RunCollects(step, n, k - 1, dir, p);
      var prev := Run(step, n, k - 1, dir);
      var c := step(k - 1, prev.dir);
      if c.result.Some? && p in c.result.value {
        assert p in Run(step, n, k, dir).allCsv;
      }
    }
  }

  /** Every collected path is the CSV path of one of the chunks processed so far. */
  lemma CollectedPathsNameChunks(ranges: seq<DateRange>, k: nat, org: string,
                                 server: nat -> Api, gunzip: Gunzip, dir: Dir, p: Path)
    requires k <= |ranges|
    requires p in RunChunks(ranges, k, org, server, gunzip, dir).allCsv
    ensures exists i :: 0 <= i < k && p == CsvPath(ranges[i].start, ranges[i].end, org)
  {
    var step := ChunkStep(ranges, org, server, gunzip);
    RunCollects(step, |ranges|, k, dir, p);
    var i: nat :| i < k && var c := step(i, Run(step, |ranges|, i, dir).dir); c.result.Some? && p in c.result.value;
    var d := Run(step, |ranges|, i, dir).dir;
    ChunkResultShape(ranges[i], org, server(i), gunzip, d);
    var found := RangeSpec(ranges[i], org, server(i), gunzip, d).result.value;
    var m :| 0 <= m < |found| && found[m] == p;
  }

  /** Chunks that find nothing and write nothing leave `all_csv_files` empty and the directory as it was. */
  lemma {:induction false} RunNothingFound(step: (nat, Dir) -> ChunkOutcome, n: nat, k: nat, dir: Dir)
    requires k <= n
    requires forall i: nat, d: Dir :: step(i, d).result.None? && step(i, d).dir == d
    ensures Run(step, n, k, dir).allCsv == [] && Run(step, n, k, dir).dir == dir
  {
    if k > 0 {
      RunNothingFound(step, n, k - 1, dir);
    }
  }

  /**
    When no export job can be created, no chunk yields anything: no CSV path
    is collected, no file is written, and only the `n - 1` pauses are slept.
   */
  lemma NoJobsNoFiles(ranges: seq<DateRange>, org: string, server: nat -> Api, gunzip: Gunzip, dir: Dir)
    requires forall i: nat :: !JobCreated(server(i).created)
    ensures var s := RunChunks(ranges, |ranges|, org, server, gunzip, dir);
      s.allCsv == [] && s.dir == dir && s.sleeps == seq(if |ranges| == 0 then 0 else |ranges| - 1, _ => InterChunkDelay)
  {
    var step := ChunkStep(ranges, org, server, gunzip);
    forall i: nat, d: Dir
      ensures step(i, d).result.None? && step(i, d).dir == d && step(i, d).sleeps == []
    {
      if i < |ranges| {
        assert !JobCreated(server(i).created);
      }
    }
    RunNothingFound(step, |ranges|, |ranges|, dir);
    RunOnlyPauses(step, |ranges|, |ranges|, dir);
  }

  /** Chunks that never sleep leave only the pauses: `k` of them before the last chunk, `n - 1` after it. */
  lemma {:induction false} RunOnlyPauses(step: (nat, Dir) -> ChunkOutcome, n: nat, k: nat, dir: Dir)
    requires k <= n
    requires forall i: nat, d: Dir :: step(i, d).sleeps == []
    ensures Run(step, n, k, dir).sleeps == seq(if k == n && k > 0 then k - 1 else k, _ => InterChunkDelay)
  {
    if k > 0 {
      RunOnlyPauses(step, n, k - 1, dir);
    }
  }

  /**
    A job that answers "processing" twenty times is given up: the chunk
    yields None, writes nothing, and has slept 30, 60, ..., 300 and then 300
    ten more times, 4650 seconds in all.
   */
  lemma StuckJobSkipped(range: DateRange, org: string, api: Api, gunzip: Gunzip, dir: Dir)
    requires JobCreated(api.created)
    requires forall n: nat :: n < MaxAttempts ==> StillProcessing(api.status(n))
    ensures var c := RangeSpec(range, org, api, gunzip, dir);
      c.result.None? && c.dir == dir && c.sleeps == Schedule(MaxAttempts) && Total(c.sleeps) == 4650
  {
    NeverTerminalExhaustsBudget(api.status);
    ExhaustedPollSleeps4650();
  }

  /** Every path of `paths` names an existing, non-empty decompressed file. */
  ghost predicate Readable(paths: seq<Path>, csv: map<Path, seq<Line>>)
  {
    forall p :: p in paths ==> p in csv && |csv[p]| > 0
  }

  /** A chunk keeps non-empty files non-empty and returns only paths of non-empty files. */
  ghost predicate KeepsReadable(d: Dir, c: ChunkOutcome)
  {
    (forall p :: p in d.csv && |d.csv[p]| > 0 ==> p in c.dir.csv && |c.dir.csv[p]| > 0) &&
    (c.result.Some? ==> Readable(c.result.value, c.dir.csv))
  }

  /** Over chunks that keep files readable, every collected path stays readable. */
  lemma {:induction false} RunReadable(step: (nat, Dir) -> ChunkOutcome, n: nat, k: nat, dir: Dir)
    requires k <= n
    requires forall i: nat, d: Dir :: KeepsReadable(d, step(i, d))
    ensures var s := Run(step, n, k, dir);
      Readable(s.allCsv, s.dir.csv)
  {
    if k > 0 {
      RunReadable(step, n, k - 1, dir);
      var prev := Run(step, n, k - 1, dir);
      assert KeepsReadable(prev.dir, step(k - 1, prev.dir));
    }
  }

  /**
    With decompression that never yields an empty file, every path collected
    names an existing, non-empty decompressed file: the final merge can open
    each and skip its header.
   */
  lemma CollectedFilesReadable(ranges: seq<DateRange>, k: nat, org: string,
                               server: nat -> Api, gunzip: Gunzip, dir: Dir)
    requires k <= |ranges|
    requires NonEmptyOutputs(gunzip)
    ensures var s := RunChunks(ranges, k, org, server, gunzip, dir);
      forall p :: p in s.allCsv ==> p in s.dir.csv && |s.dir.csv[p]| > 0
  {
    var step := ChunkStep(ranges, org, server, gunzip);
    forall i: nat, d: Dir
      ensures KeepsReadable(d, step(i, d))
    {
      if i < |ranges| {
        ChunkKeepsFilesReadable(ranges[i], org, server(i), gunzip, d);
      }
    }
    RunReadable(step, |ranges|, k, dir);
  }

  /**
    The script's `__main__` (lines 224-257) after configuration: chunk the
    window, process every chunk, and merge only when some CSV file was
    produced.
   */
  method RunReport(windowStart: Timestamp, windowEnd: Timestamp, dateOf: Timestamp -> Date,
                   org: string, server: nat -> Api, gunzip: Gunzip, dir: Dir, runDate: string)
    returns (ranges: seq<DateRange>, allCsv: seq<Path>, sleeps: seq<nat>, dir': Dir,
             merged: Option<MergedReport>)
    requires NonEmptyOutputs(gunzip)
    ensures |ranges| == |Chunks(windowStart, windowEnd)|
    ensures forall i :: 0 <= i < |ranges| ==> ranges[i] == Stamped(Chunks(windowStart, windowEnd)[i], dateOf)
    ensures RunState(allCsv, sleeps, dir') == RunChunks(ranges, |ranges|, org, server, gunzip, dir)
    ensures forall p :: p in allCsv ==> p in dir'.csv && |dir'.csv[p]| > 0
    ensures merged.Some? <==> allCsv != []
    ensures merged.Some? ==> merged.value == MergedReport(MergedPath(runDate), MergedLines(Contents(allCsv, dir'.csv)))
  {
    ranges := GenerateDateRanges(windowStart, windowEnd, dateOf);
    allCsv, sleeps, dir' := ProcessChunks(ranges, org, server, gunzip, dir);
    CollectedFilesReadable(ranges, |ranges|, org, server, gunzip, dir);
    if allCsv != [] {
      merged := MergeCsvFiles(allCsv, dir'.csv, runDate);
    } else {
      merged := None;
    }
  }
}
