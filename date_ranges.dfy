/**
  The date-range chunker (`generate_date_ranges`): the window that ends now and
  starts twelve calendar months earlier is cut into consecutive chunks of at
  most thirty days, each formatted as an API start/end pair.

  Timestamps are whole seconds; the window bounds and the calendar date of a
  timestamp (`strftime("%Y-%m-%d")`) are parameters.
 */
module DateRanges {
  import opened Text

  type Timestamp = int

  const Day: int := 86400
  /** `datetime.timedelta(days=30)` */
  const MaxChunk: int := 30 * Day

  /** A calendar date `YYYY-MM-DD`. */
  type Date = s: string | |s| == DatePartLength witness "1970-01-01"

  /** One chunk on the clock: from `start` to `end`. */
  datatype Span = Span(start: Timestamp, end: Timestamp)

  /** One chunk as the API receives it, a pair of ISO-8601 stamps. */
  datatype DateRange = DateRange(start: string, end: string)

  function Min(a: int, b: int): int
  {
    if a <= b then a else b
  }

  /** The chunks of `[start, end]`, as the loop of lines 125-135 produces them. */
  function Chunks(start: Timestamp, end: Timestamp): seq<Span>
    decreases end - start
  {
    if start < end then
      var e := Min(start + MaxChunk, end);
      [Span(start, e)] + Chunks(e, end)
    else
      []
  }

  /**
    The chunks tile the window: none when `start >= end`; otherwise the first
    starts at `start`, the last ends at `end`, each ends where the next begins,
    each is non-empty and at most `MaxChunk` wide, and all but the last are
    exactly `MaxChunk` wide.
   */
  lemma {:induction false} ChunksTile(start: Timestamp, end: Timestamp)
    ensures var r := Chunks(start, end);
      (r == [] <==> start >= end) &&
      (r != [] ==> r[0].start == start && r[|r| - 1].end == end) &&
      (forall i :: 0 <= i < |r| ==> r[i].start < r[i].end <= r[i].start + MaxChunk) &&
      (forall i :: 0 <= i < |r| - 1 ==> r[i].end == r[i].start + MaxChunk) &&
      (forall i, j :: 0 <= i && j == i + 1 && j < |r| ==> r[i].end == r[j].start)
    decreases end - start
  {
    if start < end {
      var e := Min(start + MaxChunk, end);
      ChunksTile(e, end);
      var r := Chunks(start, end);
      var rest := Chunks(e, end);
      assert r == [Span(start, e)] + rest;
      forall i | 0 <= i < |r| - 1
        ensures r[i].end == r[i].start + MaxChunk
      {
        if i > 0 { assert r[i] == rest[i - 1]; }
        else { assert rest != []; }
      }
      forall i, j | 0 <= i && j == i + 1 && j < |r|
        ensures r[i].end == r[j].start
      {
        if i > 0 { assert r[i] == rest[i - 1] && r[j] == rest[j - 1]; }
      }
    }
  }

  /** One step of the chunker: the first chunk, then the chunks of the rest. */
  lemma ChunksStep(start: Timestamp, end: Timestamp)
    requires start < end
    ensures Chunks(start, end) == [Span(start, Min(start + MaxChunk, end))] + Chunks(Min(start + MaxChunk, end), end)
  {
  }

  /** `"%Y-%m-%dT00:00:00Z"` */
  function StartStamp(d: Date): string
  {
    d + "T00:00:00Z"
  }

  /** `"%Y-%m-%dT23:59:59Z"` */
  function EndStamp(d: Date): string
  {
    d + "T23:59:59Z"
  }

  /** The API pair of one chunk (lines 129-130). */
  function Stamped(span: Span, dateOf: Timestamp -> Date): DateRange
  {
    DateRange(StartStamp(dateOf(span.start)), EndStamp(dateOf(span.end)))
  }

  /** `generate_date_ranges` with the window bounds passed in. */
  method GenerateDateRanges(start: Timestamp, end: Timestamp, dateOf: Timestamp -> Date)
    returns (ranges: seq<DateRange>)
    ensures |ranges| == |Chunks(start, end)|
    ensures forall i :: 0 <= i < |ranges| ==> ranges[i] == Stamped(Chunks(start, end)[i], dateOf)
  {
    ranges := [];
    ghost var spans: seq<Span> := [];
    var currentStart := start;
    while currentStart < end
      invariant Chunks(start, end) == spans + Chunks(currentStart, end)
      invariant |ranges| == |spans|
      invariant forall i :: 0 <= i < |ranges| ==> ranges[i] == Stamped(spans[i], dateOf)
      decreases end - currentStart
    {
      var currentEnd := Min(currentStart + MaxChunk, end);
      var startStr := StartStamp(dateOf(currentStart));
      var endStr := EndStamp(dateOf(currentEnd));
      ChunksStep(currentStart, end);
      ranges := ranges + [DateRange(startStr, endStr)];
      spans := spans + [Span(currentStart, currentEnd)];
      currentStart := currentEnd;
    }
    assert spans == Chunks(start, end);
  }

  /** The number of chunks is the window width divided by thirty days, rounded up. */
  lemma {:induction false} ChunkCount(start: Timestamp, end: Timestamp)
    ensures |Chunks(start, end)| == if start < end then (end - start + MaxChunk - 1) / MaxChunk else 0
    decreases end - start
  {
    if start < end {
      var e := Min(start + MaxChunk, end);
      ChunkCount(e, end);
      if e < end {
        assert e == start + MaxChunk;
        assert (end - start + MaxChunk - 1) / MaxChunk == 1 + (end - e + MaxChunk - 1) / MaxChunk;
      }
    }
  }

  /** A window of at most 366 days (twelve calendar months) needs at most 13 chunks. */
  lemma TwelveMonthsFitThirteenChunks(start: Timestamp, end: Timestamp)
    requires end - start <= 366 * Day
    ensures |Chunks(start, end)| <= 13
  {
    ChunkCount(start, end);
  }

  /** Chunks come in increasing order and do not overlap. */
  lemma {:induction false} ChunksOrdered(start: Timestamp, end: Timestamp, i: nat, j: nat)
    requires i < j < |Chunks(start, end)|
    ensures Chunks(start, end)[i].end <= Chunks(start, end)[j].start
    decreases j - i
  {
    var r := Chunks(start, end);
    ChunksTile(start, end);
    if j > i + 1 {
      ChunksOrdered(start, end, i, j - 1);
      assert r[j - 1].start < r[j - 1].end == r[j].start;
    }
  }

  /** Every instant of `[start, end)` falls in some chunk: there is no gap. */
  lemma {:induction false} ChunksCover(start: Timestamp, end: Timestamp, t: Timestamp)
    requires start <= t < end
    ensures exists i :: 0 <= i < |Chunks(start, end)| &&
                        Chunks(start, end)[i].start <= t < Chunks(start, end)[i].end
    decreases end - start
  {
    var r := Chunks(start, end);
    var e := Min(start + MaxChunk, end);
    assert r == [Span(start, e)] + Chunks(e, end);
    if t < e {
      assert r[0].start <= t < r[0].end;
    } else {
      ChunksCover(e, end, t);
      var k :| 0 <= k < |Chunks(e, end)| && Chunks(e, end)[k].start <= t < Chunks(e, end)[k].end;
      assert r[k + 1] == Chunks(e, end)[k];
    }
  }

  /**
    As strings, consecutive chunks share their boundary day: the end stamp of
    chunk `i` and the start stamp of chunk `i + 1` carry the same date.
   */
  lemma SharedBoundaryDate(start: Timestamp, end: Timestamp, dateOf: Timestamp -> Date, i: nat)
    requires i + 1 < |Chunks(start, end)|
    ensures DatePart(Stamped(Chunks(start, end)[i], dateOf).end)
         == DatePart(Stamped(Chunks(start, end)[i + 1], dateOf).start)
  {
    var r := Chunks(start, end);
    ChunksTile(start, end);
    assert r[i].end == r[i + 1].start;
    var d := dateOf(r[i].end);
    DatePartOfStamp(d, "T23:59:59Z");
    DatePartOfStamp(d, "T00:00:00Z");
  }

  /** The first stamp carries the window's start date and the last its end date. */
  lemma WindowDates(start: Timestamp, end: Timestamp, dateOf: Timestamp -> Date)
    requires start < end
    ensures var r := Chunks(start, end);
      DatePart(Stamped(r[0], dateOf).start) == dateOf(start) &&
      DatePart(Stamped(r[|r| - 1], dateOf).end) == dateOf(end)
  {
    ChunksTile(start, end);
    DatePartOfStamp(dateOf(start), "T00:00:00Z");
    DatePartOfStamp(dateOf(end), "T23:59:59Z");
  }
}
