/**
 * Polling of a vendor task: at most 30 status queries, 1000 ms apart, ending on
 * completion, on any non-pending answer, on a query error, or on timeout.
 */
module Poller {
  import opened Wrappers
  import opened Errors
  import opened Upstream

  const MaxPollingAttempts: nat := 30
  const PollingIntervalMs: nat := 1000

  datatype TaskData = TaskData(isComplete: Scalar, fileLink: Option<string>)

  /** The JSON body of a status query. */
  datatype TaskStatus = TaskStatus(code: Scalar, data: Option<TaskData>)

  datatype Query = Status(status: TaskStatus) | QueryError(error: ClientError)

  /** The outcome the k-th status query (from 0) for a task id would have. */
  type StatusSource = (string, nat) -> Query

  /** `code === 0 && data && data.is_complete === 1`. */
  predicate IsComplete(s: TaskStatus) {
    s.code == Num(0) && s.data.Some? && s.data.value.isComplete == Num(1)
  }

  /** Only the string code "2105" means the task is still running. */
  predicate IsPending(q: Query) {
    q.Status? && !IsComplete(q.status) && q.status.code == Str("2105")
  }

  /** The result a query stands for when polling stops at it. */
  function Settle(q: Query): Result<Option<string>, Error> {
    match q
    case QueryError(e) => Failure(Rethrown(PollQueryFailed, e))
    case Status(s) =>
      if IsComplete(s) then Success(s.data.value.fileLink) else Failure(Plain(PollRejected))
  }

  /** Number of queries, the sleeps in order, and the file link (or the error). */
  datatype PollRun = PollRun(queries: nat, sleeps: seq<nat>, result: Result<Option<string>, Error>)

  /**
   * The run from query k on, after k pending answers and the sleeps slept so far;
   * at k == 30 the loop has ended and times out.
   */
  function PollFrom(query: StatusSource, taskId: string, k: nat, slept: seq<nat>): (run: PollRun)
    requires k <= MaxPollingAttempts
    ensures k <= run.queries <= MaxPollingAttempts
    ensures k < MaxPollingAttempts ==> k < run.queries
    decreases MaxPollingAttempts - k
  {
    if k == MaxPollingAttempts then PollRun(k, slept, Failure(Plain(PollTimeout)))
    else
      var q := query(taskId, k);
      if !IsPending(q) then PollRun(k + 1, slept, Settle(q))
      else PollFrom(query, taskId, k + 1, slept + [PollingIntervalMs])
  }

  function Poll(query: StatusSource, taskId: string): PollRun {
    PollFrom(query, taskId, 0, [])
  }

  /**
   * Polling stops at the first non-pending answer and settles on it, or times out after
   * 30 queries that were all pending; it sleeps 1000 ms after each pending answer.
   */
  lemma {:induction false} PollOutcomeFrom(query: StatusSource, taskId: string, k: nat, slept: seq<nat>)
    requires k <= MaxPollingAttempts
    requires forall j :: 0 <= j < |slept| ==> slept[j] == PollingIntervalMs
    ensures var run := PollFrom(query, taskId, k, slept);
      forall j :: 0 <= j < |run.sleeps| ==> run.sleeps[j] == PollingIntervalMs
    ensures var run := PollFrom(query, taskId, k, slept);
      run.result == Failure(Plain(PollTimeout)) ==>
        run.queries == MaxPollingAttempts && |run.sleeps| == |slept| + MaxPollingAttempts - k &&
        forall i :: k <= i < MaxPollingAttempts ==> IsPending(query(taskId, i))
    ensures var run := PollFrom(query, taskId, k, slept);
      run.result != Failure(Plain(PollTimeout)) ==>
        k < run.queries && !IsPending(query(taskId, run.queries - 1)) &&
        run.result == Settle(query(taskId, run.queries - 1)) &&
        |run.sleeps| == |slept| + run.queries - 1 - k &&
        forall i :: k <= i < run.queries - 1 ==> IsPending(query(taskId, i))
    decreases MaxPollingAttempts - k
  {
    if k < MaxPollingAttempts && IsPending(query(taskId, k)) {
      var more := slept + [PollingIntervalMs];
      assert forall j :: 0 <= j < |more| ==> more[j] == PollingIntervalMs by {
        forall j | 0 <= j < |more| ensures more[j] == PollingIntervalMs {
          if j < |slept| { assert more[j] == slept[j]; }
        }
      }
      PollOutcomeFrom(query, taskId, k + 1, more);
    }
  }

  /** The first complete answer ends polling with its file link after exactly n + 1 queries and n sleeps. */
  lemma PollCompletes(query: StatusSource, taskId: string, n: nat)
    requires n < MaxPollingAttempts
    requires forall i :: 0 <= i < n ==> IsPending(query(taskId, i))
    requires query(taskId, n).Status? && IsComplete(query(taskId, n).status)
    ensures Poll(query, taskId).queries == n + 1
    ensures Poll(query, taskId).sleeps == seq(n, _ => PollingIntervalMs)
    ensures Poll(query, taskId).result == Success(query(taskId, n).status.data.value.fileLink)
  {
    var run := Poll(query, taskId);
    PollOutcomeFrom(query, taskId, 0, []);
    assert !IsPending(query(taskId, n));
    assert run.result != Failure(Plain(PollTimeout));
    assert |run.sleeps| == n;
  }

  /** Five pending answers then a complete one: six queries. */
  lemma PollSixQueries(query: StatusSource, taskId: string)
    requires forall i :: 0 <= i < 5 ==> IsPending(query(taskId, i))
    requires query(taskId, 5).Status? && IsComplete(query(taskId, 5).status)
    ensures Poll(query, taskId).queries == 6
  {
    PollCompletes(query, taskId, 5);
  }

  /** Thirty pending answers: a timeout error after exactly 30 queries and 30 sleeps. */
  lemma PollTimesOut(query: StatusSource, taskId: string)
    requires forall i :: 0 <= i < MaxPollingAttempts ==> IsPending(query(taskId, i))
    ensures Poll(query, taskId).queries == 30
    ensures |Poll(query, taskId).sleeps| == 30
    ensures Poll(query, taskId).result == Failure(Plain(PollTimeout))
  {
    PollOutcomeFrom(query, taskId, 0, []);
    var run := Poll(query, taskId);
    assert run.queries - 1 < MaxPollingAttempts;
  }

  /** Any other first answer, including code 0 without is_complete === 1, aborts after one query. */
  lemma PollAbortsAtOnce(query: StatusSource, taskId: string)
    requires !IsPending(query(taskId, 0))
    requires query(taskId, 0).Status? ==> !IsComplete(query(taskId, 0).status)
    ensures Poll(query, taskId).queries == 1 && Poll(query, taskId).sleeps == []
    ensures Poll(query, taskId).result.Failure?
  {
  }

  /** The source's while loop over the status queries. */
  method PollTaskStatus(query: StatusSource, taskId: string)
    returns (queries: nat, sleeps: seq<nat>, result: Result<Option<string>, Error>)
    ensures PollRun(queries, sleeps, result) == Poll(query, taskId)
  {
    var attempts: nat := 0;
    sleeps := [];
    while attempts < MaxPollingAttempts
      invariant attempts <= MaxPollingAttempts
      invariant Poll(query, taskId) == PollFrom(query, taskId, attempts, sleeps)
    {
      var q := query(taskId, attempts);
      attempts := attempts + 1;
      match q {
        case QueryError(e) =>
          queries, result := attempts, Failure(Rethrown(PollQueryFailed, e));
          return;
        case Status(s) =>
          if IsComplete(s) {
            queries, result := attempts, Success(s.data.value.fileLink);
            return;
          } else if s.code != Str("2105") {
            queries, result := attempts, Failure(Plain(PollRejected));
            return;
          }
      }
      sleeps := sleeps + [PollingIntervalMs];
    }
    queries, result := attempts, Failure(Plain(PollTimeout));
  }
}
