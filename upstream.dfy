/**
 * The vendor submission: a bounded retry loop with exponential backoff over the
 * outcomes of successive HTTP attempts, and the classification of the answer.
 */
module Upstream {
  import opened Wrappers
  import opened Errors
  import opened FormData
  import opened Request

  /** A JSON field that the proxy compares with `===`: a number, a string, or anything else / missing. */
  datatype Scalar = Num(n: int) | Str(s: string) | Other

  datatype SubmitData = SubmitData(fileLink: Option<string>, taskId: Option<string>)

  /** The JSON body of a successful submission call. */
  datatype SubmitResponse = SubmitResponse(code: Scalar, data: Option<SubmitData>)

  /** What one submission attempt comes back with. */
  datatype Attempt = Answered(response: SubmitResponse) | Failed(error: ClientError)

  /** The outcome the k-th attempt (from 0) with a given form would have. */
  type Submitter = (Form, nat) -> Attempt

  /** A 400 or 401 from the vendor ends the retries at once. */
  predicate IsFatal(e: ClientError) {
    e.response.Some? && (e.response.value.status == Some(400) || e.response.value.status == Some(401))
  }

  predicate Retriable(a: Attempt) {
    a.Failed? && !IsFatal(a.error)
  }

  function Pow2(n: nat): (p: nat)
    ensures p >= 1
  {
    if n == 0 then 1 else 2 * Pow2(n - 1)
  }

  /** The backoff slept after the k-th failure (k from 1): 1000 * 2^(k-1) ms. */
  function Backoff(k: nat): nat
    requires k >= 1
  {
    1000 * Pow2(k - 1)
  }

  /** The result an attempt stands for when the loop stops at it. */
  function Outcome(a: Attempt): Result<SubmitResponse, ClientError> {
    match a
    case Answered(resp) => Success(resp)
    case Failed(e) => Failure(e)
  }

  /** Number of attempts, the backoff delays slept in order, and the final outcome. */
  datatype SubmitRun = SubmitRun(attempts: nat, delays: seq<nat>, result: Result<SubmitResponse, ClientError>)

  /** The run from attempt k on, after k retriable failures. */
  function SubmitFrom(budget: nat, send: Submitter, form: Form, k: nat): (run: SubmitRun)
    requires k <= budget
    ensures k < run.attempts <= budget + 1
    ensures forall i :: k <= i < run.attempts - 1 ==> Retriable(send(form, i))
    ensures run.attempts - 1 < budget ==> !Retriable(send(form, run.attempts - 1))
    ensures run.result == Outcome(send(form, run.attempts - 1))
    decreases budget - k
  {
    match send(form, k)
    case Answered(resp) => SubmitRun(k + 1, [], Success(resp))
    case Failed(e) =>
      if k + 1 > budget || IsFatal(e) then SubmitRun(k + 1, [], Failure(e))
      else
        var rest := SubmitFrom(budget, send, form, k + 1);
        SubmitRun(rest.attempts, [Backoff(k + 1)] + rest.delays, rest.result)
  }

  /** The retry loop: up to budget + 1 attempts. */
  function Submit(budget: nat, send: Submitter, form: Form): SubmitRun {
    SubmitFrom(budget, send, form, 0)
  }

  /** The delays are exactly 1000 * 2^(k-1) for k = 1 .. attempts - 1, one sleep per retried failure. */
  lemma {:induction false} SubmitDelaysFrom(budget: nat, send: Submitter, form: Form, k: nat)
    requires k <= budget
    ensures var run := SubmitFrom(budget, send, form, k);
      |run.delays| == run.attempts - 1 - k &&
      forall j :: 0 <= j < |run.delays| ==> run.delays[j] == Backoff(k + j + 1)
    decreases budget - k
  {
    match send(form, k)
    case Answered(_) =>
    case Failed(e) =>
      if !(k + 1 > budget || IsFatal(e)) {
        SubmitDelaysFrom(budget, send, form, k + 1);
      }
  }

  lemma SubmitDelays(budget: nat, send: Submitter, form: Form)
    ensures var run := Submit(budget, send, form);
      |run.delays| == run.attempts - 1 &&
      forall j :: 0 <= j < |run.delays| ==> run.delays[j] == 1000 * Pow2(j)
  {
    SubmitDelaysFrom(budget, send, form, 0);
  }

  /** An answer on the first attempt, or a 400/401, means exactly one attempt and no sleep. */
  lemma SubmitStopsAtOnce(budget: nat, send: Submitter, form: Form)
    requires !Retriable(send(form, 0))
    ensures Submit(budget, send, form).attempts == 1
    ensures Submit(budget, send, form).delays == []
  {
  }

  /** When every attempt fails retriably: budget + 1 attempts, budget sleeps, and the last error surfaces. */
  lemma SubmitExhausts(budget: nat, send: Submitter, form: Form)
    requires forall i :: 0 <= i <= budget ==> Retriable(send(form, i))
    ensures Submit(budget, send, form).attempts == budget + 1
    ensures |Submit(budget, send, form).delays| == budget
    ensures Retriable(send(form, budget)) && Submit(budget, send, form).result == Failure(send(form, budget).error)
  {
    SubmitDelays(budget, send, form);
  }

  /** The source's while loop over the attempts. */
  method SubmitWithRetry(budget: nat, send: Submitter, form: Form)
    returns (attempts: nat, delays: seq<nat>, result: Result<SubmitResponse, ClientError>)
    ensures SubmitRun(attempts, delays, result) == Submit(budget, send, form)
  {
    var retryCount: nat := 0;
    delays := [];
    while retryCount <= budget
      invariant retryCount <= budget
      invariant var rest := SubmitFrom(budget, send, form, retryCount);
        Submit(budget, send, form) == SubmitRun(rest.attempts, delays + rest.delays, rest.result)
      decreases budget - retryCount
    {
      var outcome := send(form, retryCount);
      ghost var rest := SubmitFrom(budget, send, form, retryCount);
      if outcome.Answered? {
        attempts, result := retryCount + 1, Success(outcome.response);
        return;
      }
      var err := outcome.error;
      retryCount := retryCount + 1;
      if retryCount > budget || IsFatal(err) {
        attempts, result := retryCount, Failure(err);
        return;
      }
      ghost var next := SubmitFrom(budget, send, form, retryCount);
      assert rest == SubmitRun(next.attempts, [Backoff(retryCount)] + next.delays, next.result);
      delays := delays + [Backoff(retryCount)];
    }
    assert false;  // every iteration either continues or returns
  }

  /** What the submission's answer asks the proxy to do next. */
  datatype Classification =
    | Immediate(fileLink: Option<string>)   // code === 0: download data.file_link
    | AwaitTask(taskId: string)            // code === '2105' with a task_id: poll the task
    | Rejected(kind: ErrorKind)             // anything else is an error

  function Classify(r: SubmitResponse): Classification {
    if r.code == Num(0) then
      if r.data.Some? then Immediate(r.data.value.fileLink) else Rejected(MalformedResponse)
    else if r.code == Str("2105") && r.data.Some? && Truthy(r.data.value.taskId) then
      AwaitTask(r.data.value.taskId.value)
    else Rejected(VendorRejected)
  }

  /** Classification compares with strict equality: the number 0 and the string "2105" only. */
  lemma ClassifyStrict(r: SubmitResponse)
    ensures Classify(r).Immediate? <==> r.code == Num(0) && r.data.Some?
    ensures Classify(r).AwaitTask? <==> r.code == Str("2105") && r.data.Some? && Truthy(r.data.value.taskId)
    ensures r.code in {Str("0"), Num(2105), Other} ==> Classify(r).Rejected?
    ensures Classify(r).AwaitTask? ==> Classify(r).taskId == r.data.value.taskId.value
    ensures Classify(r).Immediate? ==> Classify(r).fileLink == r.data.value.fileLink
    ensures r.code == Num(0) && r.data.None? ==> Classify(r) == Rejected(MalformedResponse)
  {
  }
}
