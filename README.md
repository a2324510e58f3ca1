# CircleCI 12-month usage report, modelled in Dafny

`circleci_12month_report.py` collects twelve months of CircleCI usage data
for one organization. It cuts the window into chunks of at most thirty days.
For each chunk it does five things in turn:

1. It creates a usage export job.
2. It polls the job with a capped, growing backoff.
3. It downloads the job's files, trying each URL up to three times.
4. It checks that each download starts with the gzip magic number, and
   decompresses it if so.
5. It adds the chunk's CSV files to a running list.

The script pauses ten seconds between chunks. At the end it merges all CSV
files into one report: one header line, then every file's data rows.

The model is plain Dafny, one module per part of the script:

| module | part of the script |
|---|---|
| `DateRanges` | `generate_date_ranges` |
| `JobPoller` | the polling loop of `process_date_range` |
| `Downloader` | `download_files` |
| `Artifacts` | `validate_file`, `unzip_files` and the unzip loop of `process_date_range` |
| `ReportMerger` | `merge_csv_files` |
| `Orchestrator` | `process_date_range` and the `__main__` loop |
| `ReportFiles` | the report directory and the three file names |
| `Text` | `str.strip()` and `s[:10]` |
| `Wrappers` | `Option` |

Every loop of the script is a Dafny method with loop invariants. Each method
is proved equal to a specification function:

| method | specification function |
|---|---|
| `GenerateDateRanges` | `Chunks` (recursive) |
| `Poll` | `PollSpec`, built on the recursive `FirstStop` |
| `FetchWithRetries` | `Tried` and `FirstSuccess` |
| `DownloadFiles` | `DownloadSpec` |
| `UnzipDownloaded` | `UnzipAll` (recursive) |
| `CopyAfterHeader` | `f[1..]`, the lines of one file after its first |
| `MergeCsvFiles` | `MergedLines`, built on the recursive `DataRows` |
| `Accumulate` | the terms of one `Advance` step |
| `ProcessChunks` | `Run` (recursive) |

The properties are then proved about those functions as lemmas.

The outside world enters as parameters:

- **The job API** is an `Api` value. It holds three things:
  - the job-creation answer;
  - a status oracle, where `status(n)` is the reply to the n-th query. None
    stands for a non-200 answer, and also for a 200 answer whose JSON body is
    `null`. Both make the loop break at line 191;
  - a download oracle, where `fetch(j, a)` is the response to attempt `a` on
    URL `j`.
- **Decompression** is a function from bytes to lines. It returns None where
  `gzip.open` or `copyfileobj` raises. On None the model leaves the directory
  as it was. The script does not do this: it has already truncated the output
  path (see "## Left out").
- **The report directory** is two maps: raw files as bytes, and decompressed
  files as lines.
- **Clock and calendar:**
  - The window bounds are integer seconds.
  - `dateOf` maps a timestamp to its `YYYY-MM-DD` date.
  - The run date `YYYYMMDD` names the merged report.
- **Sleeps** are recorded in order instead of being slept.

The proofs also pin down some behaviours of the script as written:

- Consecutive chunks share their boundary day. That day is requested in both
  chunks (`DateRanges.SharedBoundaryDate`).
- Only the exact state "processing" keeps polling. A "queued" reply ends it
  (`JobPoller.QueuedStopsPolling`). A failed status query keeps the state that
  was read before it (`JobPoller.FailedQueryKeepsState`).
- Every URL of a job is saved under the same file name. When two URLs
  succeed, the list names that file twice and it holds only the later body
  (`Downloader.TwoSuccessesShareOneFile`). When that later body is a valid
  archive that decompresses, the chunk's CSV path is listed twice as well
  (`Orchestrator.SharedDownloadListedTwice`). When it is not, the chunk
  returns an empty list (`Orchestrator.ChunkResultCount`).

## Model

| member | source | states |
|---|---|---|
| DateRanges.GenerateDateRanges | circleci_12month_report.py:122-137 | the loop returns one start/end pair per chunk of `Chunks(start, end)`, in order, stamped `<date>T00:00:00Z` / `<date>T23:59:59Z` |
| DateRanges.ChunksTile | circleci_12month_report.py:125-135 | no chunks iff `start >= end`; the first starts at `start`, the last ends at `end`, each ends where the next starts, each is non-empty and at most 30 days, all but the last exactly 30 days |
| DateRanges.ChunkCount | circleci_12month_report.py:125-126 | the number of chunks is the window width over 30 days, rounded up (0 for an empty window) |
| DateRanges.TwelveMonthsFitThirteenChunks | circleci_12month_report.py:117-126 | a window of at most 366 days gives at most 13 chunks |
| DateRanges.ChunksOrdered | circleci_12month_report.py:125-135 | a later chunk never starts before an earlier one ends |
| DateRanges.ChunksCover | circleci_12month_report.py:125-135 | every instant of the window lies in some chunk (no gaps) |
| DateRanges.SharedBoundaryDate | circleci_12month_report.py:129-135 | the end stamp of chunk i and the start stamp of chunk i+1 carry the same date |
| DateRanges.WindowDates | circleci_12month_report.py:122-130 | the first stamp carries the window's start date and the last stamp its end date |
| Text.StripSpec | circleci_12month_report.py:151 | `strip()` returns a slice of the line that neither starts nor ends with whitespace; everything cut before and after it is whitespace |
| Text.DatePart | circleci_12month_report.py:66 | `s[:10]` is the prefix of `s` of length min(\|s\|, 10) |
| Text.DatePartOfStamp | circleci_12month_report.py:66 | `[:10]` of a stamp built from a 10-character date gives back that date |
| ReportFiles.Join | circleci_12month_report.py:67 | `os.path.join` ends with the file name and, for a relative name, is `dir + "/" + name` |
| ReportFiles.JoinReportDirInjective | circleci_12month_report.py:67 | two different names never join to the same path in the report directory |
| ReportFiles.CsvPathInjective | circleci_12month_report.py:100-101 | two chunks' decompressed files share a path only if their start dates and their end dates agree |
| ReportFiles.LookupUpdate | circleci_12month_report.py:70-71 | after a file is written, its path reads back the new contents and every other path reads as before |
| JobPoller.Schedule | circleci_12month_report.py:197-200 | one wait per "processing" reply |
| JobPoller.ScheduleShape | circleci_12month_report.py:198 | the n-th wait is `min(30n, 300)`: 30, 60, ..., 300, then 300; every wait lies in 30..300 and the waits never decrease |
| JobPoller.FirstStopSpec | circleci_12month_report.py:188-197 | all replies before the first stopping one say "processing"; the stopping one does not |
| JobPoller.FirstStopAt | circleci_12month_report.py:188-197 | the first stop is the first reply that is not "processing", or 20 |
| JobPoller.PollSpecFacts | circleci_12month_report.py:184-202 | 1 to 20 queries; every query before the last read "processing"; the loop stops early only on a reply that is not "processing"; `job_status` is the last reply; `job_state` is its state, or stays "processing" after a failed query; one wait follows each "processing" reply |
| JobPoller.Poll | circleci_12month_report.py:184-202 | the loop's state, last reply, query count and waits are those of `PollSpec` |
| JobPoller.NeverTerminalExhaustsBudget | circleci_12month_report.py:188-202 | twenty "processing" replies use up all 20 queries, leave the state "processing" and produce twenty waits |
| JobPoller.QueuedStopsPolling | circleci_12month_report.py:188-197 | a first reply of "queued" ends polling after one query with no wait |
| JobPoller.FailedQueryKeepsState | circleci_12month_report.py:189-194 | a failed query after n "processing" replies stops polling with the state still "processing" and n waits |
| JobPoller.TotalSchedule | circleci_12month_report.py:198-200 | the total wait after k "processing" replies is 15k(k+1) for k <= 10, and 1650 + 300(k-10) seconds after that |
| JobPoller.ExhaustedPollSleeps4650 | circleci_12month_report.py:184-202 | a poll that uses up its budget sleeps 4650 seconds in all |
| Downloader.FirstSuccessFrom | circleci_12month_report.py:62-74 | the first attempt from `a` that returns 200 is within the budget, and every attempt before it fails |
| Downloader.Attempts | circleci_12month_report.py:62-78 | a URL is fetched 1 to 3 times, up to its first 200; every attempt before the last failed |
| Downloader.LastSuccess | circleci_12month_report.py:70-71 | the file on disk holds the body of the last URL that succeeded; no later one succeeded |
| Downloader.SuccessCount | circleci_12month_report.py:73 | at most one list entry per URL |
| Downloader.StepOnSuccess | circleci_12month_report.py:64-74 | a URL that succeeds appends the path once, overwrites the file with its body and logs its attempts up to the 200 |
| Downloader.StepOnFailure | circleci_12month_report.py:75-78 | a URL that fails three times adds nothing, changes no file, logs three attempts, and the loop goes on to the next URL |
| Downloader.FetchWithRetries | circleci_12month_report.py:62-78 | the retry loop fetches attempts 1, 2, ... up to the first 200 (at most 3) and returns the body of that 200 iff there is one |
| Downloader.DownloadFiles | circleci_12month_report.py:56-80 | the returned list, the raw files and the fetches made are those of `DownloadSpec` |
| Downloader.CountForTried | circleci_12month_report.py:62-63 | the retry loop of one URL logs `Attempts` fetches of that URL and none of any other |
| Downloader.RequestsPerUrl | circleci_12month_report.py:60-78 | each URL is fetched exactly `Attempts` times, whatever happened to the URLs before it; URLs beyond the list are never fetched |
| Downloader.AlwaysFailingUrlTriedThreeTimes | circleci_12month_report.py:62-78 | a URL whose three attempts all fail is fetched exactly three times |
| Downloader.DownloadedShape | circleci_12month_report.py:56-80 | at most one entry per URL; every entry is `{org}_{start[:10]}_{end[:10]}.csv.gz` in the report directory; no other raw file changes |
| Downloader.TwoSuccessesShareOneFile | circleci_12month_report.py:66-73 | when two URLs succeed, the list names the same file twice and it holds the later body |
| Downloader.SuccessCountMonotone | circleci_12month_report.py:60-73 | more URLs never give a shorter list |
| Downloader.SuccessCountExtremes | circleci_12month_report.py:60-80 | the list is full iff every URL succeeds, and empty iff none does |
| Downloader.SuccessCountAtLeastTwo | circleci_12month_report.py:60-73 | two succeeding URLs give at least two entries |
| Artifacts.Read | circleci_12month_report.py:87 | `read(n)` returns the first min(\|file\|, n) bytes |
| Artifacts.ValidateFile | circleci_12month_report.py:83-93 | true iff the file can be opened, holds at least two bytes, and begins with 0x1F 0x8B; a missing or short file gives false |
| Artifacts.ValidationSeesOnlyTheMagic | circleci_12month_report.py:87 | a file that starts with 1F 8B validates, and a file of the same length with any other first two bytes does not |
| Artifacts.InvalidFileNotDecompressed | circleci_12month_report.py:96-110 | a file that fails validation yields None and no new file, whatever the decompressor would do |
| Artifacts.UnzipOutcome | circleci_12month_report.py:96-110 | a path comes back iff the file is valid and decompression does not raise; it is `{start[:10]}_to_{end[:10]}_{org}.csv` and holds the decompressed lines; no other file changes |
| Artifacts.UnzipDownloaded | circleci_12month_report.py:210-214 | the loop's paths and files are those of `UnzipAll` |
| Artifacts.UnzipAllShape | circleci_12month_report.py:210-214 | at most one path per download; every path is the chunk's CSV path; only that file changes |
| Artifacts.UnzipAllSameFile | circleci_12month_report.py:210-214 | downloads that all name one raw file give one path each when that file is a valid archive that decompresses, and none otherwise |
| Artifacts.UnzipAllKeepsNonEmpty | circleci_12month_report.py:210-214 | if decompression never gives an empty file, a non-empty file stays non-empty |
| Artifacts.UnzipAllOutputNonEmpty | circleci_12month_report.py:210-214 | ... and the chunk's CSV file is non-empty once some download decompressed |
| ReportMerger.MergeCsvFiles | circleci_12month_report.py:140-168 | None iff there are no files; otherwise the report is saved as `merged_12_months_{date}.csv` in the report directory, and its lines are the first file's stripped header plus one newline, then every file's lines after its first, in file order |
| ReportMerger.CopyAfterHeader | circleci_12month_report.py:160-165 | copying one file writes all its lines but the first, in order |
| ReportMerger.DataRowsAppend | circleci_12month_report.py:159-165 | one more file adds exactly its lines after the first at the end |
| ReportMerger.MergedLength | circleci_12month_report.py:150-165 | the report has 1 + sum(\|f\| - 1) lines |
| ReportMerger.DataRowsLength | circleci_12month_report.py:159-165 | the data rows number sum(\|f\| - 1) |
| ReportMerger.DataRowsAt | circleci_12month_report.py:159-165 | line j >= 1 of file i is written at the offset after all earlier files' data rows: order is kept |
| ReportMerger.LaterHeadersIgnored | circleci_12month_report.py:160-162 | files that differ only in their first lines give the same data rows |
| ReportMerger.Contents | circleci_12month_report.py:159-160 | the files are read in list order |
| Orchestrator.ProcessDateRange | circleci_12month_report.py:171-221 | the result, sleeps and files are those of `RangeSpec` |
| Orchestrator.DownloadGate | circleci_12month_report.py:175-221 | a list comes back iff the job was created and polling ended on "completed"; otherwise None, no file changes, and only the poll's waits are slept |
| Orchestrator.ChunkResultShape | circleci_12month_report.py:205-216 | a list holds at most one entry per download URL, every entry is the chunk's CSV path, and the chunk changes only its own raw and CSV files |
| Orchestrator.ChunkKeepsFilesReadable | circleci_12month_report.py:210-216 | if decompression never gives an empty file, non-empty files stay non-empty and every returned path names a non-empty file |
| Orchestrator.ChunkResultCount | circleci_12month_report.py:205-216 | a completed chunk returns a list, never None; it holds one entry per successful download when the saved raw file validates and decompresses, and is empty otherwise |
| Orchestrator.SharedDownloadListedTwice | circleci_12month_report.py:205-216 | when two downloads succeed and the later body decompresses, the chunk lists its CSV path at least twice |
| Orchestrator.ChunkSleepsAreBackoffs | circleci_12month_report.py:197-200 | a chunk's own sleeps are all between 30 and 300 seconds |
| Orchestrator.StuckJobSkipped | circleci_12month_report.py:184-221 | a job that says "processing" twenty times gives None, writes nothing, and sleeps `Schedule(20)`, 4650 seconds |
| Orchestrator.Accumulate | circleci_12month_report.py:242-249 | a non-empty list extends `all_csv_files`; a pause of 10 follows unless this is the last chunk |
| Orchestrator.ProcessChunks | circleci_12month_report.py:239-249 | the collected paths, sleeps and files are those of `RunChunks` |
| Orchestrator.AdvancePauses | circleci_12month_report.py:247-249 | one iteration adds one pause of 10, or none after the last chunk |
| Orchestrator.RunPauses | circleci_12month_report.py:239-249 | over chunks whose own sleeps are never 10, the loop pauses once after each chunk but the last |
| Orchestrator.InterChunkPauses | circleci_12month_report.py:239-249 | with n chunks, exactly n - 1 waits of 10 seconds happen, one after each chunk but the last |
| Orchestrator.RunPrefix | circleci_12month_report.py:239-249 | later chunks only append to `all_csv_files` and to the sleeps |
| Orchestrator.RunCollects | circleci_12month_report.py:242-244 | a path is collected iff some chunk returned a list holding it |
| Orchestrator.CollectedPathsNameChunks | circleci_12month_report.py:239-244 | every collected path is the CSV path of one of the chunks |
| Orchestrator.RunNothingFound | circleci_12month_report.py:242-244 | chunks that find nothing leave `all_csv_files` empty and the files unchanged |
| Orchestrator.RunOnlyPauses | circleci_12month_report.py:247-249 | chunks that never sleep leave only the pauses of 10 |
| Orchestrator.NoJobsNoFiles | circleci_12month_report.py:175-249 | when no job can be created, nothing is collected, no file changes, and only the n - 1 pauses are slept |
| Orchestrator.RunReadable | circleci_12month_report.py:239-244 | over chunks that keep files readable, every collected path names a non-empty file |
| Orchestrator.CollectedFilesReadable | circleci_12month_report.py:239-244 | if decompression never gives an empty file, every collected path names an existing non-empty file, so the merge can skip each header |
| Orchestrator.RunReport | circleci_12month_report.py:234-257 | the chunks are those of `GenerateDateRanges`, the loop is `RunChunks`, and the merge happens iff `all_csv_files` is non-empty, with the merged lines of the collected files in order |

## Left out

- HTTP: `create_usage_export_job` and `check_job_status` (lines 22-53) become the `Api` oracles, so the request URLs, headers, body and JSON decoding are not modelled. A 201 answer whose JSON has no `usage_export_job_id` is the same as a failed creation.
- URLs: `download_files` sees URL j only as its index j. `requests.get(url)` becomes `fetch(j, attempt)`, and a network exception is not modelled.
- JSON values: a status reply's `download_urls` is a list of strings, or empty when the key is absent. A `null` value, which would make the loop at line 60 raise, is not modelled.
- Bootstrap: environment loading, `os.makedirs` and the exit checks (lines 11-19, 224-232) are left out.
- Clock and calendar: `datetime.now()`, `relativedelta(months=12)` and `strftime` (lines 117, 120, 129-130, 146) become parameters. These are the window bounds, `dateOf`, and the run date.
- Sleeping: `time.sleep` (lines 200, 249) is recorded, not performed.
- Logging: `print` is left out.
- Decompression: `gzip.open` and `shutil.copyfileobj` (lines 103-105) are an opaque function. This hides a truncation. `gzip.open` reads nothing, and `open(output_path, 'wb')` at line 104 empties the CSV path before `copyfileobj` reads the archive at line 105. Any decompression error on a file that passed the magic check therefore leaves an empty or partial file at the CSV path. That includes a file holding only `1F 8B`, and it wipes a non-empty file already there. The model keeps the old contents of the CSV path instead.
- Artifacts.UnzipAllKeepsNonEmpty: "a non-empty file stays non-empty" holds only because a failed decompression writes nothing. The script would truncate the CSV path (line 104).
- Orchestrator.ChunkKeepsFilesReadable: its first clause, that non-empty files stay non-empty, rests on the same non-truncating model of a failed decompression.
- Orchestrator.RunReadable: its assumption that each chunk keeps files readable, and through it `Orchestrator.CollectedFilesReadable`, rests on the same non-truncating model of a failed decompression.
- Encoding: files are read as lines of characters. UTF-8 decoding and its errors are left out.
- ReportMerger.MergeCsvFiles: requires every file to exist and hold at least one line. The script raises on a missing file at lines 150/160 and on an empty one at line 162; those crash paths are not modelled. `Orchestrator.CollectedFilesReadable` shows the requirement holds when decompression never produces an empty file.
- ReportMerger.MergeCsvFiles: returns the report's path and its lines but does not add the merged file to the directory. The lines are the strings written in order, so a data file whose last line has no newline runs into the next file's first data row in the written file.
- Orchestrator.RunReport: requires a decompressor that never yields an empty table. Real gzip breaks this for an archive of an empty file, and the script then raises at line 162. The contract leaves that crash out instead of modelling it.
