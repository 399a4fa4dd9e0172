/** `retry` of src/miscellaneous.ts:26-45: calls the handler with the last
    failure's reason and the attempt number until an attempt fulfils or the
    attempt limit is reached, sleeping `interval` milliseconds after each
    failed attempt. The handler is an oracle from (last reason, attempt) to
    the outcome of awaiting its result; a synchronous throw and a rejection
    are both caught (src/miscellaneous.ts:35-39). `undefined` is `None`. */
module Miscellaneous {
  import opened Outcomes

  /** `RetryOptions` (src/miscellaneous.ts:13-18): a property left out is `None`. */
  datatype RetryOptions = RetryOptions(limit: Option<int>, interval: Option<int>)

  /** The defaults of the destructuring at src/miscellaneous.ts:27-30. */
  const DefaultLimit: int := 3
  const DefaultInterval: int := 0

  function Limit(options: RetryOptions): int {
    match options.limit
    case None => DefaultLimit
    case Some(n) => n
  }

  function Interval(options: RetryOptions): int {
    match options.interval
    case None => DefaultInterval
    case Some(n) => n
  }

  /** `retry(handler, options)`. `reasons[k]` is the `lastReason` handed to
      attempt `k`, so the handler was called exactly `|reasons|` times, with
      attempt numbers `0, 1, 2, ...`; `slept` lists the `sleep` durations in
      order.
      - Attempt 0 receives `undefined`, attempt `k + 1` the error attempt `k`
        failed with.
      - The result is the value of the first attempt that fulfils, and no
        attempt follows it.
      - Otherwise every one of the `limit` attempts failed and `retry`
        rejects with the last error, or with `undefined` when `limit <= 0`
        and the handler was never called.
      - Each failed attempt, the last one included, is followed by a sleep
        of `interval`. */
  method Retry<T, E>(handler: (Option<E>, nat) -> Outcome<T, E>, options: RetryOptions)
    returns (r: Outcome<T, Option<E>>, reasons: seq<Option<E>>, slept: seq<int>)
    ensures |reasons| <= if Limit(options) > 0 then Limit(options) else 0
    ensures |reasons| > 0 ==> reasons[0] == None
    ensures forall k :: 0 <= k < |reasons| - 1 ==>
      handler(reasons[k], k).Err? && reasons[k + 1] == Some(handler(reasons[k], k).error)
    ensures r.Ok? <==> |reasons| > 0 && handler(reasons[|reasons| - 1], |reasons| - 1).Ok?
    ensures r.Ok? ==> r.value == handler(reasons[|reasons| - 1], |reasons| - 1).value
    ensures r.Err? ==>
      && |reasons| == (if Limit(options) > 0 then Limit(options) else 0)
      && r.error == (if |reasons| == 0 then None
                     else Some(handler(reasons[|reasons| - 1], |reasons| - 1).error))
    ensures |slept| == (if r.Ok? then |reasons| - 1 else |reasons|)
    ensures forall k :: 0 <= k < |slept| ==> slept[k] == Interval(options)
  {
    var limit := Limit(options);
    var interval := Interval(options);
    var lastError: Option<E> := None;
    reasons := [];
    slept := [];
    var i := 0;
    while i < limit
      invariant if limit > 0 then i <= limit else i == 0
      invariant |reasons| == i && |slept| == i
      invariant i > 0 ==> reasons[0] == None
      invariant forall k :: 0 <= k < i - 1 ==>
        handler(reasons[k], k).Err? && reasons[k + 1] == Some(handler(reasons[k], k).error)
      invariant i > 0 ==> handler(reasons[i - 1], i - 1).Err? && lastError == Some(handler(reasons[i - 1], i - 1).error)
      invariant i == 0 ==> lastError == None
      invariant forall k :: 0 <= k < i ==> slept[k] == interval
    {
      reasons := reasons + [lastError];
      var attempt := handler(lastError, i);
      if attempt.Ok? {
        r := Ok(attempt.value);
        return;
      }
      lastError := Some(attempt.error);
      slept := slept + [interval];
      i := i + 1;
    }
    r := Err(lastError);
  }

  /** src/test/miscellaneous/retry-test.ts:13-31: attempts 0 and 1 fail,
      attempt 2 answers; three calls, and the answer is the result. */
  method RejectedTwiceThenSucceed() returns (r: Outcome<string, Option<string>>, count: nat)
    ensures count == 3 && r == Ok("abc")
  {
    var reasons, slept;
    r, reasons, slept := Retry((reason: Option<string>, attempts: nat) =>
                                 if attempts < 2 then Err("error") else Ok("abc"),
                               RetryOptions(None, None));
    count := |reasons|;
  }

  /** src/test/miscellaneous/retry-test.ts:33-45: with `limit: 6` and an
      attempt that always fails with its own number, six calls are made and
      the rejection carries the error of attempt 5. */
  method ExceedingRetryLimit() returns (r: Outcome<string, Option<nat>>, count: nat)
    ensures count == 6 && r == Err(Some(5))
  {
    var reasons, slept;
    r, reasons, slept := Retry((reason: Option<nat>, attempts: nat) => Err(attempts),
                               RetryOptions(Some(6), None));
    count := |reasons|;
  }
}
