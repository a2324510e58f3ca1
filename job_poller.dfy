/**
  The status-polling loop of `process_date_range`: query the export job until
  its state is no longer exactly "processing", a query fails, or twenty queries
  have been made, sleeping `min(30 * n, 300)` seconds after the n-th query
  whenever it answered "processing".

  The server is an oracle: `replies(n)` is the answer to the n-th query
  (0-based). None stands for a non-200 response, and also for a 200 response
  whose JSON body is `null` (line 53 returns it and line 191 breaks on it).
  Sleeps are recorded, in order, instead of being slept.
 */
module JobPoller {
  import opened Wrappers

  const MaxAttempts: nat := 20
  const BackoffStep: nat := 30
  const MaxWait: nat := 300

  const ProcessingState: string := "processing"
  const CompletedState: string := "completed"

  /**
    The JSON body of a 200 status reply: `state` (None when the key is absent)
    and `download_urls` (empty when absent).
   */
  datatype StatusReply = StatusReply(state: Option<string>, downloadUrls: seq<string>)

  type StatusOracle = nat -> Option<StatusReply>

  /** What the loop leaves behind: `job_state`, `job_status`, the queries made and the sleeps. */
  datatype PollOutcome = PollOutcome(state: Option<string>, status: Option<StatusReply>,
                                     queries: nat, waits: seq<nat>)

  /** The loop goes on only after a reply whose state is exactly "processing". */
  predicate StillProcessing(reply: Option<StatusReply>)
  {
    reply.Some? && reply.value.state == Some(ProcessingState)
  }

  /** The wait after the n-th query (1-based), line 198. */
  function Backoff(n: nat): nat
  {
    if BackoffStep * n <= MaxWait then BackoffStep * n else MaxWait
  }

  /** The waits after `k` consecutive "processing" replies, in order. */
  function Schedule(k: nat): (s: seq<nat>)
    ensures |s| == k
  {
    if k == 0 then [] else Schedule(k - 1) + [Backoff(k)]
  }

  /**
    The schedule is 30, 60, ..., 300 and then 300 every time: never below
    thirty seconds, never above the cap, never decreasing.
   */
  lemma {:induction false} ScheduleShape(k: nat)
    ensures var s := Schedule(k);
      (forall i :: 0 <= i < k ==> BackoffStep <= s[i] <= MaxWait) &&
      (forall i :: 0 <= i < k && i < 10 ==> s[i] == BackoffStep * (i + 1)) &&
      (forall i :: 10 <= i < k ==> s[i] == MaxWait) &&
      (forall i, j :: 0 <= i <= j < k ==> s[i] <= s[j])
  {
    if k > 0 {
      ScheduleShape(k - 1);
      var s := Schedule(k);
      assert forall i :: 0 <= i < k - 1 ==> s[i] == Schedule(k - 1)[i];
      assert s[k - 1] == Backoff(k);
    }
  }

  /**
    The index of the first reply that ends the loop, or `MaxAttempts` when the
    first twenty all say "processing".
   */
  function FirstStop(replies: StatusOracle, i: nat): (k: nat)
    requires i <= MaxAttempts
    ensures i <= k <= MaxAttempts
    decreases MaxAttempts - i
  {
    if i == MaxAttempts || !StillProcessing(replies(i)) then i else FirstStop(replies, i + 1)
  }

  /** The replies from `i` up to the first stop all say "processing"; the stop itself does not. */
  lemma {:induction false} FirstStopSpec(replies: StatusOracle, i: nat)
    requires i <= MaxAttempts
    ensures var k := FirstStop(replies, i);
      (forall j :: i <= j < k ==> StillProcessing(replies(j))) &&
      (k < MaxAttempts ==> !StillProcessing(replies(k)))
    decreases MaxAttempts - i
  {
    if i < MaxAttempts && StillProcessing(replies(i)) {
      FirstStopSpec(replies, i + 1);
    }
  }

  /**
    The outcome of polling, read off the first stopping reply `k`: every query
    before the last answered "processing"; the loop stops early only on a reply
    that is not "processing"; `job_status` is the last reply; `job_state` is
    its state, or still "processing" when the last query failed; and one wait
    follows each "processing" reply, the n-th being `Backoff(n)`.
   */
  function PollSpec(replies: StatusOracle): PollOutcome
  {
    var k := FirstStop(replies, 0);
    if k == MaxAttempts then
      PollOutcome(Some(ProcessingState), replies(k - 1), k, Schedule(k))
    else
      var st := if replies(k).Some? then replies(k).value.state else Some(ProcessingState);
      PollOutcome(st, replies(k), k + 1, Schedule(k))
  }

  lemma PollSpecFacts(replies: StatusOracle)
    ensures var o := PollSpec(replies);
      1 <= o.queries <= MaxAttempts &&
      (forall i :: 0 <= i < o.queries - 1 ==> StillProcessing(replies(i))) &&
      (o.queries < MaxAttempts ==> !StillProcessing(replies(o.queries - 1))) &&
      o.status == replies(o.queries - 1) &&
      o.state == (if o.status.Some? then o.status.value.state else Some(ProcessingState)) &&
      o.waits == Schedule(if StillProcessing(o.status) then o.queries else o.queries - 1) &&
      (forall i :: 0 <= i < |o.waits| ==> StillProcessing(replies(i)))
  {
    FirstStopSpec(replies, 0);
  }

  /** `job_status.get('download_urls', [])` on the last reply (line 205). */
  function DownloadUrls(o: PollOutcome): seq<string>
  {
    if o.status.Some? then o.status.value.downloadUrls else []
  }

  /** The first stop is the first reply that is not "processing". */
  lemma {:induction false} FirstStopAt(replies: StatusOracle, i: nat, n: nat)
    requires i <= n <= MaxAttempts
    requires forall j: nat :: i <= j < n ==> StillProcessing(replies(j))
    requires n < MaxAttempts ==> !StillProcessing(replies(n))
    ensures FirstStop(replies, i) == n
    decreases n - i
  {
    if i < n {
      FirstStopAt(replies, i + 1, n);
    }
  }

  /** The polling loop of lines 184-202. */
  method Poll(replies: StatusOracle) returns (outcome: PollOutcome)
    ensures outcome == PollSpec(replies)
  {
    var attempt: nat := 0;
    var jobState: Option<string> := Some(ProcessingState);
    var jobStatus: Option<StatusReply> := None;
    var waits: seq<nat> := [];
    var queries: nat := 0;
    ghost var k := FirstStop(replies, 0);
    FirstStopSpec(replies, 0);
    while jobState == Some(ProcessingState) && attempt < MaxAttempts
      invariant attempt <= k + 1 && attempt <= MaxAttempts
      invariant queries == attempt
      invariant jobState == Some(ProcessingState) <==> attempt <= k
      invariant attempt > 0 ==> jobStatus == replies(attempt - 1)
      invariant attempt > 0 ==> jobStatus.Some? && jobState == jobStatus.value.state
      invariant waits == Schedule(if attempt <= k then attempt else k)
    {
      var reply := replies(attempt);
      queries := queries + 1;
      jobStatus := reply;
      if reply.None? {
        break;
      }
      jobState := reply.value.state;
      if jobState == Some(ProcessingState) {
        var waitTime := Backoff(attempt + 1);
        waits := waits + [waitTime];
      }
      attempt := attempt + 1;
    }
    outcome := PollOutcome(jobState, jobStatus, queries, waits);
  }

  /** Twenty replies that all say "processing" exhaust the budget: twenty queries, twenty waits. */
  lemma NeverTerminalExhaustsBudget(replies: StatusOracle)
    requires forall n: nat :: n < MaxAttempts ==> StillProcessing(replies(n))
    ensures PollSpec(replies).queries == MaxAttempts
    ensures PollSpec(replies).state == Some(ProcessingState)
    ensures PollSpec(replies).waits == Schedule(MaxAttempts)
  {
    FirstStopAt(replies, 0, MaxAttempts);
  }

  /** A "queued" first reply is not "processing": polling stops after one query and never waits. */
  lemma QueuedStopsPolling(replies: StatusOracle)
    requires replies(0).Some? && replies(0).value.state == Some("queued")
    ensures PollSpec(replies).queries == 1
    ensures PollSpec(replies).state == Some("queued")
    ensures PollSpec(replies).waits == []
  {
  }

  /** A failed query keeps the state read before it: after n "processing" replies, still "processing". */
  lemma FailedQueryKeepsState(replies: StatusOracle, n: nat)
    requires n < MaxAttempts
    requires forall i: nat :: i < n ==> StillProcessing(replies(i))
    requires replies(n).None?
    ensures PollSpec(replies).queries == n + 1
    ensures PollSpec(replies).state == Some(ProcessingState)
    ensures PollSpec(replies).status.None?
    ensures PollSpec(replies).waits == Schedule(n)
  {
    FirstStopAt(replies, 0, n);
  }

  /** Sum of a sequence of waits. */
  function Total(s: seq<nat>): nat
  {
    if s == [] then 0 else Total(s[..|s| - 1]) + s[|s| - 1]
  }

  /** 15 k (k + 1) seconds while the backoff grows, then 300 seconds more per reply. */
  function ClosedTotal(k: nat): nat
  {
    if k <= 10 then 15 * k * (k + 1) else 1650 + MaxWait * (k - 10)
  }

  lemma ClosedTotalStep(k: nat)
    requires k > 0
    ensures ClosedTotal(k) == ClosedTotal(k - 1) + Backoff(k)
  {
    if k <= 10 {
      assert k * (k + 1) == k * k + k;
      assert (k - 1) * k == k * k - k;
    }
  }

  lemma TotalOfAppended(s: seq<nat>, w: nat)
    ensures Total(s + [w]) == Total(s) + w
  {
    assert (s + [w])[..|s|] == s;
  }

  /** Total time slept after `k` "processing" replies has the closed form `ClosedTotal(k)`. */
  lemma {:induction false} TotalSchedule(k: nat)
    ensures Total(Schedule(k)) == ClosedTotal(k)
  {
    if k > 0 {
      TotalSchedule(k - 1);
      TotalOfAppended(Schedule(k - 1), Backoff(k));
      ClosedTotalStep(k);
    }
  }

  /** An exhausted poll sleeps 4650 seconds in all. */
  lemma ExhaustedPollSleeps4650()
    ensures Total(Schedule(MaxAttempts)) == 4650
  {
    TotalSchedule(MaxAttempts);
  }
}
