/**
  `merge_csv_files`: the merged report is the stripped first line of the first
  file, then every file's lines after its own first line, file by file, in
  order. Files are sequences of lines as Python iterates a text file.
 */
module ReportMerger {
  import opened Wrappers
  import opened Text
  import opened ReportFiles

  /** The merged report: where it is written and the strings written to it, in order. */
  datatype MergedReport = MergedReport(path: Path, lines: seq<string>)

  /** Everything after the first line of each file, concatenated in file order. */
  function DataRows(files: seq<seq<Line>>): seq<Line>
  {
    if files == [] then []
    else (if files[0] == [] then [] else files[0][1..]) + DataRows(files[1..])
  }

  /** Header written once, then the data rows (lines 156-165). */
  function MergedLines(files: seq<seq<Line>>): seq<string>
    requires |files| > 0 && |files[0]| > 0
  {
    [Strip(files[0][0]) + "\n"] + DataRows(files)
  }

  /** Number of data lines in `files`: the sum of `|f| - 1`. */
  function DataCount(files: seq<seq<Line>>): nat
  {
    if files == [] then 0
    else (if files[0] == [] then 0 else |files[0]| - 1) + DataCount(files[1..])
  }

  /** Data rows of a list extended by one file: the old rows, then the new file's. */
  lemma {:induction false} DataRowsAppend(files: seq<seq<Line>>, f: seq<Line>)
    requires |f| > 0
    ensures DataRows(files + [f]) == DataRows(files) + f[1..]
    decreases |files|
  {
    if files == [] {
      assert [f][1..] == [];
    } else {
      assert (files + [f])[1..] == files[1..] + [f];
      DataRowsAppend(files[1..], f);
    }
  }

  /** The merged report has one header line plus `|f| - 1` lines per file. */
  lemma {:induction false} MergedLength(files: seq<seq<Line>>)
    requires |files| > 0 && |files[0]| > 0
    ensures |MergedLines(files)| == 1 + DataCount(files)
  {
    DataRowsLength(files);
  }

  lemma {:induction false} DataRowsLength(files: seq<seq<Line>>)
    ensures |DataRows(files)| == DataCount(files)
  {
    if files != [] {
      DataRowsLength(files[1..]);
    }
  }

  /**
    Order is kept: line `j >= 1` of file `i` is data row `Offset + j - 1`,
    where `Offset` counts the data rows of the files before it.
   */
  lemma {:induction false} DataRowsAt(files: seq<seq<Line>>, i: nat, j: nat)
    requires i < |files| && 1 <= j < |files[i]|
    ensures DataCount(files[..i]) + j - 1 < |DataRows(files)|
    ensures DataRows(files)[DataCount(files[..i]) + j - 1] == files[i][j]
  {
    DataRowsLength(files);
    DataRowsLength(files[1..]);
    if i == 0 {
      assert files[..0] == [];
    } else {
      assert files[1..][..i - 1] == files[..i][1..];
      DataRowsAt(files[1..], i - 1, j);
    }
  }

  /**
    Later headers are dropped whatever they say: files that agree after their
    first lines produce the same report, provided the first file's header
    agrees.
   */
  lemma {:induction false} LaterHeadersIgnored(files: seq<seq<Line>>, other: seq<seq<Line>>)
    requires |files| == |other|
    requires forall i :: 0 <= i < |files| ==> |files[i]| > 0 && |other[i]| > 0 && files[i][1..] == other[i][1..]
    ensures DataRows(files) == DataRows(other)
    decreases |files|
  {
    if files != [] {
      LaterHeadersIgnored(files[1..], other[1..]);
    }
  }

  /** The file contents of `paths`, read in order. */
  function Contents(paths: seq<Path>, csv: map<Path, seq<Line>>): (r: seq<seq<Line>>)
    requires forall p :: p in paths ==> p in csv
    ensures |r| == |paths|
    ensures forall i :: 0 <= i < |paths| ==> r[i] == csv[paths[i]]
  {
    if paths == [] then [] else [csv[paths[0]]] + Contents(paths[1..], csv)
  }

  /** Lines 162-165: skip a file's first line and write the rest, in order. */
  method CopyAfterHeader(written: seq<string>, f: seq<Line>) returns (written': seq<string>)
    requires |f| > 0
    ensures written' == written + f[1..]
  {
    written' := written;
    for k := 1 to |f|
      invariant written' == written + f[1..k]
    {
      assert f[1..k + 1] == f[1..k] + [f[k]];
      written' := written' + [f[k]];
    }
  }

  /**
    `merge_csv_files` (lines 140-168). The source opens every file and calls
    `next` on it, so each must exist and hold at least one line.
   */
  method MergeCsvFiles(csvFiles: seq<Path>, csv: map<Path, seq<Line>>, runDate: string)
    returns (merged: Option<MergedReport>)
    requires forall p :: p in csvFiles ==> p in csv && |csv[p]| > 0
    ensures merged.None? <==> csvFiles == []
    ensures merged.Some? ==> merged.value.path == MergedPath(runDate)
    ensures merged.Some? ==> merged.value.lines == MergedLines(Contents(csvFiles, csv))
  {
    if csvFiles == [] {
      return None;
    }
    var mergedPath := MergedPath(runDate);
    assert csvFiles[0] in csvFiles;
    var header := Strip(csv[csvFiles[0]][0]);
    var written: seq<string> := [header + "\n"];
    ghost var all := Contents(csvFiles, csv);
    for i := 0 to |csvFiles|
      invariant written == [header + "\n"] + DataRows(all[..i])
    {
      assert csvFiles[i] in csvFiles;
      var f := csv[csvFiles[i]];
      written := CopyAfterHeader(written, f);
      assert all[..i + 1] == all[..i] + [f];
      DataRowsAppend(all[..i], f);
    }
    assert all[..|csvFiles|] == all;
    merged := Some(MergedReport(mergedPath, written));
  }
}
