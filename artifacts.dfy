/**
  `validate_file` and `unzip_files`: a download is decompressed only when its
  first two bytes are the gzip magic number (ID1 = 0x1F, ID2 = 0x8B, section
  2.3.1 of RFC 1952), and the decompressed table is written to a path built
  from the chunk's dates and the organization.

  Decompression is a parameter: `gunzip(bytes)` is the lines of the
  decompressed file, or None when `gzip.open` / `copyfileobj` raises. On None
  the decompressed files are left as they were; the truncation of the output
  path that line 104 performs before the archive is read is not modelled.
 */
module Artifacts {
  import opened Wrappers
  import opened Text
  import opened ReportFiles

  const Id1: byte := 0x1F
  const Id2: byte := 0x8B
  const GzipMagic: seq<byte> := [Id1, Id2]

  type Gunzip = seq<byte> -> Option<seq<Line>>

  /** `file.read(n)`: at most the first `n` bytes. */
  function Read(file: seq<byte>, n: nat): (r: seq<byte>)
    ensures |r| == if |file| < n then |file| else n
    ensures r <= file
  {
    if |file| <= n then file else file[..n]
  }

  /**
    `validate_file`: the file could be opened (Some) and the two bytes read
    from it equal `1F 8B`. A missing file or a read error (None) and a file
    shorter than two bytes give false; nothing is raised.
   */
  function ValidateFile(file: Option<seq<byte>>): (ok: bool)
    ensures ok <==> file.Some? && |file.value| >= 2 && file.value[0] == Id1 && file.value[1] == Id2
  {
    file.Some? && Read(file.value, 2) == GzipMagic
  }

  /**
    A file that starts with 1F 8B validates, and a file of the same length
    with any other first two bytes does not.
   */
  lemma ValidationSeesOnlyTheMagic(good: seq<byte>, bad: seq<byte>)
    requires |good| == |bad| >= 2
    requires good[..2] == GzipMagic && bad[..2] != GzipMagic
    ensures ValidateFile(Some(good)) && !ValidateFile(Some(bad))
  {
    assert good[0] == good[..2][0] && good[1] == good[..2][1];
    assert bad[..2] == [bad[0], bad[1]];
  }

  /** The result of `unzip_files` and the decompressed files it leaves. */
  datatype Unzipped = Unzipped(output: Option<Path>, csv: map<Path, seq<Line>>)

  /** `unzip_files` (lines 96-110) over the raw files `raw` and decompressed files `csv`. */
  function UnzipFile(raw: map<Path, seq<byte>>, csv: map<Path, seq<Line>>, path: Path,
                     start: string, end: string, org: string, gunzip: Gunzip): Unzipped
  {
    if ValidateFile(Lookup(raw, path)) then
      var out := CsvPath(start, end, org);
      match gunzip(raw[path])
      case Some(lines) => Unzipped(Some(out), csv[out := lines])
      case None => Unzipped(None, csv)
    else
      Unzipped(None, csv)
  }

  /**
    The validation gate: a file that fails validation yields None and no
    decompressed file, and the decompressor is never consulted — the outcome is
    the same for any `gunzip`.
   */
  lemma InvalidFileNotDecompressed(raw: map<Path, seq<byte>>, csv: map<Path, seq<Line>>, path: Path,
                                   start: string, end: string, org: string, g1: Gunzip, g2: Gunzip)
    requires !ValidateFile(Lookup(raw, path))
    ensures UnzipFile(raw, csv, path, start, end, org, g1) == UnzipFile(raw, csv, path, start, end, org, g2)
    ensures UnzipFile(raw, csv, path, start, end, org, g1) == Unzipped(None, csv)
  {
  }

  /**
    A valid file yields the path `{start[:10]}_to_{end[:10]}_{org}.csv`
    exactly when decompression does not raise, and then that path holds the
    decompressed lines; no other decompressed file changes.
   */
  lemma UnzipOutcome(raw: map<Path, seq<byte>>, csv: map<Path, seq<Line>>, path: Path,
                     start: string, end: string, org: string, gunzip: Gunzip)
    ensures var u := UnzipFile(raw, csv, path, start, end, org, gunzip);
      (u.output.Some? <==> ValidateFile(Lookup(raw, path)) && gunzip(raw[path]).Some?) &&
      (u.output.Some? ==> u.output.value == CsvPath(start, end, org) &&
                          u.csv[CsvPath(start, end, org)] == gunzip(raw[path]).value) &&
      (forall p :: p != CsvPath(start, end, org) ==> Lookup(u.csv, p) == Lookup(csv, p))
  {
  }

  /** What the loop of lines 210-214 leaves: the decompressed paths, in order, and the files. */
  datatype UnzippedAll = UnzippedAll(paths: seq<Path>, csv: map<Path, seq<Line>>)

  /** The loop of lines 210-214 as a function over the first `n` downloads. */
  function UnzipAll(files: seq<Path>, n: nat, raw: map<Path, seq<byte>>, csv: map<Path, seq<Line>>,
                    start: string, end: string, org: string, gunzip: Gunzip): UnzippedAll
    requires n <= |files|
  {
    if n == 0 then UnzippedAll([], csv)
    else
      var prev := UnzipAll(files, n - 1, raw, csv, start, end, org, gunzip);
      var u := UnzipFile(raw, prev.csv, files[n - 1], start, end, org, gunzip);
      UnzippedAll(prev.paths + (if u.output.Some? then [u.output.value] else []), u.csv)
  }

  /**
    Lines 210-214: decompress each download in turn and keep the paths that
    came out.
   */
  method UnzipDownloaded(files: seq<Path>, raw: map<Path, seq<byte>>, csv: map<Path, seq<Line>>,
                         start: string, end: string, org: string, gunzip: Gunzip)
    returns (csvFiles: seq<Path>, csv': map<Path, seq<Line>>)
    ensures UnzippedAll(csvFiles, csv') == UnzipAll(files, |files|, raw, csv, start, end, org, gunzip)
  {
    csvFiles, csv' := [], csv;
    for i := 0 to |files|
      invariant UnzippedAll(csvFiles, csv') == UnzipAll(files, i, raw, csv, start, end, org, gunzip)
    {
      var u := UnzipFile(raw, csv', files[i], start, end, org, gunzip);
      csv' := u.csv;
      if u.output.Some? {
        csvFiles := csvFiles + [u.output.value];
      }
    }
  }

  /**
    Every decompressed path is the chunk's CSV path, there is at most one per
    download, only that path of the decompressed files changes, and it is
    present whenever some download came out.
   */
  lemma {:induction false} UnzipAllShape(files: seq<Path>, n: nat, raw: map<Path, seq<byte>>,
                                         csv: map<Path, seq<Line>>, start: string, end: string,
                                         org: string, gunzip: Gunzip)
    requires n <= |files|
    ensures var a := UnzipAll(files, n, raw, csv, start, end, org, gunzip);
      |a.paths| <= n &&
      (forall i :: 0 <= i < |a.paths| ==> a.paths[i] == CsvPath(start, end, org)) &&
      (forall p :: p != CsvPath(start, end, org) ==> Lookup(a.csv, p) == Lookup(csv, p)) &&
      (a.paths != [] ==> CsvPath(start, end, org) in a.csv)
  {
    if n > 0 {
      UnzipAllShape(files, n - 1, raw, csv, start, end, org, gunzip);
      var prev := UnzipAll(files, n - 1, raw, csv, start, end, org, gunzip);
      UnzipOutcome(raw, prev.csv, files[n - 1], start, end, org, gunzip);
    }
  }

  /**
    Downloads that all name the same raw file `p` come out all together or not
    at all: one path per download when `p` holds a valid archive that
    decompresses, none otherwise.
   */
  lemma {:induction false} UnzipAllSameFile(files: seq<Path>, n: nat, raw: map<Path, seq<byte>>,
                                            csv: map<Path, seq<Line>>, start: string, end: string,
                                            org: string, gunzip: Gunzip, p: Path)
    requires n <= |files|
    requires forall i :: 0 <= i < |files| ==> files[i] == p
    ensures var good := ValidateFile(Lookup(raw, p)) && gunzip(raw[p]).Some?;
      |UnzipAll(files, n, raw, csv, start, end, org, gunzip).paths| == if good then n else 0
  {
    if n > 0 {
      UnzipAllSameFile(files, n - 1, raw, csv, start, end, org, gunzip, p);
      var prev := UnzipAll(files, n - 1, raw, csv, start, end, org, gunzip);
      assert files[n - 1] == p;
      UnzipOutcome(raw, prev.csv, p, start, end, org, gunzip);
    }
  }

  /**
    When decompression never yields an empty file, every decompressed file
    that was non-empty before is still there and non-empty after.
   */
  lemma {:induction false} UnzipAllKeepsNonEmpty(files: seq<Path>, n: nat, raw: map<Path, seq<byte>>,
                                                 csv: map<Path, seq<Line>>, start: string, end: string,
                                                 org: string, gunzip: Gunzip, p: Path)
    requires n <= |files|
    requires forall b :: gunzip(b).Some? ==> |gunzip(b).value| > 0
    requires p in csv && |csv[p]| > 0
    ensures var a := UnzipAll(files, n, raw, csv, start, end, org, gunzip);
      p in a.csv && |a.csv[p]| > 0
  {
    if n > 0 {
      UnzipAllKeepsNonEmpty(files, n - 1, raw, csv, start, end, org, gunzip, p);
    }
  }

  /** ... and the chunk's CSV path holds a non-empty file once something came out. */
  lemma {:induction false} UnzipAllOutputNonEmpty(files: seq<Path>, n: nat, raw: map<Path, seq<byte>>,
                                                  csv: map<Path, seq<Line>>, start: string, end: string,
                                                  org: string, gunzip: Gunzip)
    requires n <= |files|
    requires forall b :: gunzip(b).Some? ==> |gunzip(b).value| > 0
    ensures var a := UnzipAll(files, n, raw, csv, start, end, org, gunzip);
      a.paths != [] ==> CsvPath(start, end, org) in a.csv && |a.csv[CsvPath(start, end, org)]| > 0
  {
    if n > 0 {
      UnzipAllOutputNonEmpty(files, n - 1, raw, csv, start, end, org, gunzip);
      var prev := UnzipAll(files, n - 1, raw, csv, start, end, org, gunzip);
      var out := CsvPath(start, end, org);
      if prev.paths != [] {
        UnzipAllKeepsNonEmpty([files[n - 1]], 1, raw, prev.csv, start, end, org, gunzip, out);
        assert UnzipAll([files[n - 1]], 1, raw, prev.csv, start, end, org, gunzip).csv
            == UnzipFile(raw, prev.csv, files[n - 1], start, end, org, gunzip).csv;
      }
    }
  }
}
