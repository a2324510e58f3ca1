/**
  The report directory and the three file names the script builds in it: the
  raw download, the decompressed table and the merged report.
 */
module ReportFiles {
  import opened Wrappers
  import opened Text

  newtype byte = x: int | 0 <= x < 256

  type Path = string

  /** Every file the script writes lives in this relative directory. */
  const ReportDir: Path := "usage_reports"

  /** `os.path.join(dir, name)` on POSIX, for two components. */
  function Join(dir: Path, name: Path): (r: Path)
    ensures |r| >= |name| && r[|r| - |name|..] == name
    ensures dir != [] && dir[|dir| - 1] != '/' && (name == [] || name[0] != '/')
            ==> r == dir + "/" + name
  {
    if name != [] && name[0] == '/' then name
    else if dir == [] || dir[|dir| - 1] == '/' then dir + name
    else dir + "/" + name
  }

  /** Joining onto `ReportDir` never makes two different names one path. */
  lemma JoinReportDirInjective(n1: Path, n2: Path)
    requires Join(ReportDir, n1) == Join(ReportDir, n2)
    ensures n1 == n2
  {
    var p := Join(ReportDir, n1);
    var rel1 := n1 == [] || n1[0] != '/';
    var rel2 := n2 == [] || n2[0] != '/';
    if rel1 && rel2 {
      assert n1 == p[|ReportDir| + 1..] == n2;
    }
  }

  /** Where a download is saved: `{org}_{start[:10]}_{end[:10]}.csv.gz` (line 66). */
  function RawPath(org: string, start: string, end: string): Path
  {
    Join(ReportDir, org + "_" + DatePart(start) + "_" + DatePart(end) + ".csv.gz")
  }

  /** Where a download is decompressed to: `{start[:10]}_to_{end[:10]}_{org}.csv` (line 100). */
  function CsvPath(start: string, end: string, org: string): Path
  {
    Join(ReportDir, DatePart(start) + "_to_" + DatePart(end) + "_" + org + ".csv")
  }

  /** The merged report, named after the run date `YYYYMMDD` (line 146). */
  function MergedPath(runDate: string): Path
  {
    Join(ReportDir, "merged_12_months_" + runDate + ".csv")
  }

  /** Two concatenations with equally long first parts agree part by part. */
  lemma ConcatCancel<T>(a: seq<T>, b: seq<T>, c: seq<T>, d: seq<T>)
    requires a + b == c + d && |a| == |c|
    ensures a == c && b == d
  {
    assert a == (a + b)[..|a|] && c == (c + d)[..|c|];
    assert b == (a + b)[|a|..] && d == (c + d)[|c|..];
  }

  /** Two decompressed-file names with ten-character dates agree only when both dates do. */
  lemma CsvNameInjective(d1: string, f1: string, d2: string, f2: string, org: string)
    requires |d1| == |d2| == DatePartLength && |f1| == |f2| == DatePartLength
    requires d1 + "_to_" + f1 + "_" + org + ".csv" == d2 + "_to_" + f2 + "_" + org + ".csv"
    ensures d1 == d2 && f1 == f2
  {
    var tail := "_" + org + ".csv";
    assert d1 + "_to_" + f1 + "_" + org + ".csv" == d1 + ("_to_" + (f1 + tail));
    assert d2 + "_to_" + f2 + "_" + org + ".csv" == d2 + ("_to_" + (f2 + tail));
    ConcatCancel(d1, "_to_" + (f1 + tail), d2, "_to_" + (f2 + tail));
    ConcatCancel("_to_", f1 + tail, "_to_", f2 + tail);
    ConcatCancel(f1, tail, f2, tail);
  }

  /**
    For full ten-character dates, two chunks' decompressed files share a path
    only when both their start dates and their end dates agree.
   */
  lemma CsvPathInjective(s1: string, e1: string, s2: string, e2: string, org: string)
    requires |s1| >= DatePartLength && |e1| >= DatePartLength
    requires |s2| >= DatePartLength && |e2| >= DatePartLength
    requires CsvPath(s1, e1, org) == CsvPath(s2, e2, org)
    ensures DatePart(s1) == DatePart(s2) && DatePart(e1) == DatePart(e2)
  {
    JoinReportDirInjective(DatePart(s1) + "_to_" + DatePart(e1) + "_" + org + ".csv",
                           DatePart(s2) + "_to_" + DatePart(e2) + "_" + org + ".csv");
    CsvNameInjective(DatePart(s1), DatePart(e1), DatePart(s2), DatePart(e2), org);
  }

  /** Reading a file of the store: None when there is nothing at `path` (open raises). */
  function Lookup<T>(store: map<Path, T>, path: Path): (r: Option<T>)
    ensures r.Some? <==> path in store
    ensures r.Some? ==> r.value == store[path]
  {
    if path in store then Some(store[path]) else None
  }

  /**
    Writing one file of the store: the written path reads back the new
    contents, and every other path reads as before.
   */
  lemma LookupUpdate<T>(store: map<Path, T>, q: Path, v: T, p: Path)
    ensures Lookup(store[q := v], p) == if p == q then Some(v) else Lookup(store, p)
  {
  }
}
