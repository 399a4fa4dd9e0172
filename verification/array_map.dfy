/** `map` of src/array.ts:43-100, in its two branches.

    Without a numeric `concurrency` it is `Promise.all(values.map(transformer))`:
    every call is made at once, left to right, and the settlements are
    collected by position. With a `concurrency` it is a small state machine
    (class `Run`): a shared cursor `i`, a counter `pending` of started calls
    that have not fulfilled, and a `results` array written by index. The
    environment settles the in-flight calls one at a time, in any order. */
module ArrayMap {
  import opened Outcomes

  /** What one transformer call does: it throws synchronously, or it returns
      a value or promise that fulfils with `value` or rejects with `error`
      (a plain value counts as fulfilled). */
  datatype Invocation<+R, +E> = Throw(error: E) | Fulfil(value: R) | Reject(error: E) {
    predicate Fails() {
      Throw? || Reject?
    }
  }

  function Min(a: int, b: int): int {
    if a < b then a else b
  }

  // ---------------------------------------------------------------------------
  // The unbounded branch: `Promise.all(values.map(transformer))` (src/array.ts:44-46).

  /** A settlement order of the `n` calls that `values.map` started: the
      positions in which the environment settles their promises. */
  predicate IsOrder(order: seq<nat>, n: nat) {
    && |order| == n
    && (forall j :: 0 <= j < |order| ==> order[j] < n)
    && (forall k :: 0 <= k < n ==> k in order)
  }

  /** `values.map` calls the transformer left to right and stops at the first
      synchronous throw, which escapes before `Promise.all` is reached. */
  function FirstThrow<T, R, E>(values: seq<T>, transformer: (T, nat) -> Invocation<R, E>, from: nat): (k: Option<nat>)
    requires from <= |values|
    ensures k.Some? ==>
      && from <= k.value < |values|
      && transformer(values[k.value], k.value).Throw?
      && forall j :: from <= j < k.value ==> !transformer(values[j], j).Throw?
    ensures k.None? ==> forall j :: from <= j < |values| ==> !transformer(values[j], j).Throw?
    decreases |values| - from
  {
    if from == |values| then None
    else if transformer(values[from], from).Throw? then Some(from)
    else FirstThrow(values, transformer, from + 1)
  }

  /** `Promise.all` rejects with the first rejection to settle: the first
      index in `order[from..]` whose promise rejects. */
  function FirstRejected<T, R, E>(values: seq<T>, transformer: (T, nat) -> Invocation<R, E>,
                                  order: seq<nat>, from: nat): (k: Option<nat>)
    requires IsOrder(order, |values|) && from <= |order|
    ensures k.Some? ==> k.value < |values| && transformer(values[k.value], k.value).Reject?
    ensures k.Some? ==>
      exists p :: from <= p < |order| && order[p] == k.value
               && forall j :: from <= j < p ==> !transformer(values[order[j]], order[j]).Reject?
    ensures k.None? ==> forall j :: from <= j < |order| ==> !transformer(values[order[j]], order[j]).Reject?
    decreases |order| - from
  {
    if from == |order| then None
    else if transformer(values[order[from]], order[from]).Reject? then Some(order[from])
    else FirstRejected(values, transformer, order, from + 1)
  }

  /** The fulfilled values of the calls at `from..`, by position. */
  function Fulfilled<T, R, E>(values: seq<T>, transformer: (T, nat) -> Invocation<R, E>, from: nat): (rs: seq<R>)
    requires from <= |values|
    requires forall k :: from <= k < |values| ==> transformer(values[k], k).Fulfil?
    ensures |rs| == |values| - from
    ensures forall j :: 0 <= j < |rs| ==> transformer(values[from + j], from + j) == Fulfil(rs[j])
    decreases |values| - from
  {
    if from == |values| then []
    else [transformer(values[from], from).value] + Fulfilled(values, transformer, from + 1)
  }

  /** No call throws and none of those the order settles rejects: all fulfil. */
  lemma NoFailureMeansFulfilled<T, R, E>(values: seq<T>, transformer: (T, nat) -> Invocation<R, E>, order: seq<nat>)
    requires IsOrder(order, |values|)
    requires FirstThrow(values, transformer, 0).None? && FirstRejected(values, transformer, order, 0).None?
    ensures forall k :: 0 <= k < |values| ==> transformer(values[k], k).Fulfil?
  {
    forall k | 0 <= k < |values| ensures transformer(values[k], k).Fulfil? {
      assert k in order;
      var j :| 0 <= j < |order| && order[j] == k;
    }
  }

  /** The unbounded `map`, the environment settling the started calls in
      `order`. */
  function MapAll<T, R, E>(values: seq<T>, transformer: (T, nat) -> Invocation<R, E>, order: seq<nat>): Outcome<seq<R>, E>
    requires IsOrder(order, |values|)
  {
    match FirstThrow(values, transformer, 0)
    case Some(k) => Err(transformer(values[k], k).error)
    case None =>
      match FirstRejected(values, transformer, order, 0)
      case Some(k) => Err(transformer(values[k], k).error)
      case None =>
        NoFailureMeansFulfilled(values, transformer, order);
        Ok(Fulfilled(values, transformer, 0))
  }

  /** The unbounded `map` fulfils exactly when every call fulfils, and then
      with the values in input order whatever the settlement order; a
      synchronous throw rejects with the first thrown error; any other
      rejection carries the error of some failing call. */
  lemma MapAllOutcome<T, R, E>(values: seq<T>, transformer: (T, nat) -> Invocation<R, E>, order: seq<nat>)
    requires IsOrder(order, |values|)
    ensures MapAll(values, transformer, order).Ok?
        <==> forall k :: 0 <= k < |values| ==> transformer(values[k], k).Fulfil?
    ensures MapAll(values, transformer, order).Ok? ==>
      var rs := MapAll(values, transformer, order).value;
      |rs| == |values| && forall k :: 0 <= k < |values| ==> transformer(values[k], k) == Fulfil(rs[k])
    ensures forall k :: 0 <= k < |values| && transformer(values[k], k).Throw?
                      && (forall j :: 0 <= j < k ==> !transformer(values[j], j).Throw?)
                  ==> MapAll(values, transformer, order) == Err(transformer(values[k], k).error)
    ensures MapAll(values, transformer, order).Err? ==>
      exists k :: 0 <= k < |values| && transformer(values[k], k).Fails()
               && transformer(values[k], k).error == MapAll(values, transformer, order).error
    ensures (forall k :: 0 <= k < |values| ==> !transformer(values[k], k).Throw?)
            && MapAll(values, transformer, order).Err? ==>
      exists p :: 0 <= p < |order|
               && transformer(values[order[p]], order[p]) == Reject(MapAll(values, transformer, order).error)
               && forall j :: 0 <= j < p ==> !transformer(values[order[j]], order[j]).Reject?
  {
    var r := MapAll(values, transformer, order);
    if FirstThrow(values, transformer, 0).None? && FirstRejected(values, transformer, order, 0).None? {
      NoFailureMeansFulfilled(values, transformer, order);
    }
    if r.Ok? {
      var rs := Fulfilled(values, transformer, 0);
      assert forall k :: 0 <= k < |values| ==> transformer(values[k], k) == Fulfil(rs[k]) by {
        forall k | 0 <= k < |values| ensures transformer(values[k], k) == Fulfil(rs[k]) {
          assert transformer(values[0 + k], 0 + k) == Fulfil(rs[k]);
        }
      }
    }
  }

  // ---------------------------------------------------------------------------
  // The bounded branch (src/array.ts:48-99).

  /** The results written by index, read back as the array `resolve` hands on. */
  function Collect<R>(results: map<nat, R>, n: nat): seq<R>
    requires forall k :: 0 <= k < n ==> k in results
  {
    seq(n, k requires 0 <= k < n => results[k])
  }

  /** `rs` holds, position by position, the fulfilled value of every call. */
  ghost predicate AllFulfilled<T, R, E>(values: seq<T>, transformer: (T, nat) -> Invocation<R, E>, rs: seq<R>) {
    |rs| == |values| && forall k :: 0 <= k < |values| ==> transformer(values[k], k) == Fulfil(rs[k])
  }

  function Positive(n: int): nat {
    if n > 0 then n else 0
  }

  /** The variables the executor of the bounded `map` captures, and the
      state of the promise it returns:
      - `i`: the shared cursor, the next index to hand to the transformer;
      - `pending`: started calls that have not fulfilled (src/array.ts:78, 93);
      - `results`: `results[index] = result` for each fulfilled call (src/array.ts:92);
      - `inFlight`: started calls whose promise has not settled, that is the
        `.then` callbacks the environment may still run;
      - `failed`: started calls that threw or rejected;
      - `invoked`: the indices handed to the transformer, in call order;
      - `outcome`: the returned promise, `None` while it is pending. */
  datatype Snapshot<R, E> = Snapshot(
    i: nat,
    pending: nat,
    results: map<nat, R>,
    inFlight: set<nat>,
    failed: set<nat>,
    invoked: seq<nat>,
    outcome: Option<Outcome<seq<R>, E>>)

  /** Every index below the cursor `i` is fulfilled (its value stored at
      its position), in flight, or failed, and only one of them. */
  ghost predicate Partitioned<T, R, E>(values: seq<T>, transformer: (T, nat) -> Invocation<R, E>, i: nat,
                                       results: map<nat, R>, inFlight: set<nat>, failed: set<nat>)
  {
    && i <= |values|
    && (forall k :: k in results ==> k < i && transformer(values[k], k) == Fulfil(results[k]))
    && (forall k :: k in inFlight ==> k < i && !transformer(values[k], k).Throw? && k !in results && k !in failed)
    && (forall k :: k in failed ==> k < i && transformer(values[k], k).Fails() && k !in results)
    && (forall k :: 0 <= k < i ==> k in results || k in inFlight || k in failed)
  }

  /** The bookkeeping invariant of the bounded `map`, true before, during and
      after the executor's first loop:
      - the cursor never passes `values.length`, and has handed out the
        indices `0 .. i-1`, each once and in increasing order;
      - `pending` counts the started calls that have not fulfilled, and never
        exceeds `starting`;
      - the promise is rejected once a call has failed, with the error of a
        failed call; it is resolved with `[]` when `starting <= 0`, and
        otherwise only once every index has been started and none is
        pending, with every call's value at its position. */
  ghost predicate Bookkept<T, R, E>(values: seq<T>, transformer: (T, nat) -> Invocation<R, E>, starting: int,
                                    s: Snapshot<R, E>)
  {
    && starting <= |values|
    && (starting <= 0 ==> s.i == 0)
    && |s.invoked| == s.i && (forall k :: 0 <= k < s.i ==> s.invoked[k] == k)
    && Partitioned(values, transformer, s.i, s.results, s.inFlight, s.failed)
    && s.pending == |s.inFlight| + |s.failed|
    && s.pending <= Positive(starting)
    && (s.failed != {} ==> s.outcome.Some? && s.outcome.value.Err?)
    && (s.outcome.Some? && s.outcome.value.Err? ==>
          exists k :: k in s.failed && k < |values| && transformer(values[k], k).Fails()
                      && transformer(values[k], k).error == s.outcome.value.error)
    && (s.outcome.Some? && s.outcome.value.Ok? ==>
          if starting <= 0 then s.outcome.value.value == []
          else s.i == |values| && s.pending == 0 && AllFulfilled(values, transformer, s.outcome.value.value))
  }

  /** The invariant once the executor has run: with `starting <= 0` the run
      resolved with `[]`; while indices remain, every fulfilment starts a
      successor, so exactly `starting` calls are pending; once every index
      has been started and none is pending, the promise has settled. */
  ghost predicate Running<T, R, E>(values: seq<T>, transformer: (T, nat) -> Invocation<R, E>, starting: int,
                                   s: Snapshot<R, E>)
  {
    && Bookkept(values, transformer, starting, s)
    && (starting <= 0 ==> s.outcome == Some(Ok([])))
    && (0 < starting && s.i < |values| ==> s.pending == starting)
    && (s.i == |values| && s.pending == 0 ==> s.outcome.Some?)
  }

  /** Handing out index `i` adds it to the in-flight calls, or to the failed
      ones when the call throws. */
  lemma PartitionedStart<T, R, E>(values: seq<T>, transformer: (T, nat) -> Invocation<R, E>, i: nat,
                                  results: map<nat, R>, inFlight: set<nat>, failed: set<nat>)
    requires Partitioned(values, transformer, i, results, inFlight, failed) && i < |values|
    ensures i !in inFlight && i !in failed
    ensures transformer(values[i], i).Throw? ==> Partitioned(values, transformer, i + 1, results, inFlight, failed + {i})
    ensures !transformer(values[i], i).Throw? ==> Partitioned(values, transformer, i + 1, results, inFlight + {i}, failed)
  {
  }

  /** Settling an in-flight call moves it to the results or to the failed calls. */
  lemma PartitionedSettle<T, R, E>(values: seq<T>, transformer: (T, nat) -> Invocation<R, E>, i: nat,
                                   results: map<nat, R>, inFlight: set<nat>, failed: set<nat>, index: nat)
    requires Partitioned(values, transformer, i, results, inFlight, failed) && index in inFlight
    ensures index < |values| && index !in failed && !transformer(values[index], index).Throw?
    ensures transformer(values[index], index).Reject? ==>
      Partitioned(values, transformer, i, results, inFlight - {index}, failed + {index})
    ensures transformer(values[index], index).Fulfil? ==>
      Partitioned(values, transformer, i, results[index := transformer(values[index], index).value], inFlight - {index}, failed)
  {
  }

  /** An in-flight call is one the executor started. */
  lemma InFlightIndex<T, R, E>(values: seq<T>, transformer: (T, nat) -> Invocation<R, E>, starting: int,
                               s: Snapshot<R, E>, index: nat)
    requires Bookkept(values, transformer, starting, s) && index in s.inFlight
    ensures index < s.i <= |values| && !transformer(values[index], index).Throw?
  {
  }

  /** With nothing in flight or failed once every index has been started,
      every value is stored at its position. */
  lemma PartitionedDone<T, R, E>(values: seq<T>, transformer: (T, nat) -> Invocation<R, E>,
                                 results: map<nat, R>)
    requires Partitioned(values, transformer, |values|, results, {}, {})
    ensures forall k :: 0 <= k < |values| ==> k in results
    ensures AllFulfilled(values, transformer, Collect(results, |values|))
  {
  }

  /** Every index below `n` has its value stored, so `resolve(results)`
      hands on a full array. */
  predicate Complete<R, E>(n: nat, s: Snapshot<R, E>) {
    forall k :: 0 <= k < n ==> k in s.results
  }

  /** `next()` past the last index with nothing pending: resolve with the
      results read back by position (src/array.ts:67-71). */
  function Finish<R, E>(n: nat, s: Snapshot<R, E>): Snapshot<R, E>
    requires Complete(n, s)
  {
    s.(outcome := SettleOnce(s.outcome, Ok(Collect(s.results, n))))
  }

  /** `next()` with an index left (src/array.ts:74-97): take the cursor,
      count the call as pending and call the transformer; a synchronous throw
      rejects the run (src/array.ts:82-87), anything else is in flight. */
  function Start<T, R, E>(values: seq<T>, transformer: (T, nat) -> Invocation<R, E>, s: Snapshot<R, E>): Snapshot<R, E>
    requires s.i < |values|
  {
    var index := s.i;
    var call := transformer(values[index], index);
    var started := s.(i := index + 1, pending := s.pending + 1, invoked := s.invoked + [index]);
    if call.Throw? then
      started.(failed := s.failed + {index}, outcome := SettleOnce(s.outcome, Err(call.error)))
    else
      started.(inFlight := s.inFlight + {index})
  }

  /** `next()` (src/array.ts:66-98) on a snapshot: resolve once the cursor
      has reached the end with nothing pending, wait while calls are
      pending at the end, start the next index otherwise. */
  function NextStep<T, R, E>(values: seq<T>, transformer: (T, nat) -> Invocation<R, E>,
                             s: Snapshot<R, E>): Snapshot<R, E>
    requires s.i <= |values|
    requires s.i == |values| && s.pending == 0 ==> Complete(|values|, s)
  {
    if s.i == |values| then
      if s.pending == 0 then Finish(|values|, s) else s
    else Start(values, transformer, s)
  }

  /** `next()` keeps the bookkeeping invariant, provided an index is only
      started while fewer than `starting` calls are pending; a settled
      promise stays as it was and a failure stays recorded. */
  lemma NextStepKeeps<T, R, E>(values: seq<T>, transformer: (T, nat) -> Invocation<R, E>, starting: int,
                               s: Snapshot<R, E>)
    requires Bookkept(values, transformer, starting, s)
    requires s.i < |values| ==> s.pending < starting
    ensures s.i == |values| && s.pending == 0 ==> Complete(|values|, s)
    ensures var r := NextStep(values, transformer, s);
      && Bookkept(values, transformer, starting, r)
      && (s.outcome.Some? ==> r.outcome == s.outcome)
      && s.failed <= r.failed
  {
    if s.i == |values| {
      if s.pending == 0 {
        assert s.inFlight == {} && s.failed == {};
        PartitionedDone(values, transformer, s.results);
      }
    } else {
      PartitionedStart(values, transformer, s.i, s.results, s.inFlight, s.failed);
    }
  }

  /** With `starting <= 0` the executor resolves with `[]` before calling
      the transformer, and the run is in its final state. */
  lemma ResolvedEmptyIsRunning<T, R, E>(values: seq<T>, transformer: (T, nat) -> Invocation<R, E>, starting: int)
    requires starting <= 0
    ensures Running(values, transformer, starting, Snapshot(0, 0, map[], {}, {}, [], Some(Ok([]))))
  {
  }

  /** The executor's loop (src/array.ts:62-64) after `i` calls of `next()`:
      indices `0 .. i-1` have been started, all of them are pending, nothing
      has fulfilled yet (no callback runs before the executor returns), the
      calls that threw are the failed ones, and the run is rejected exactly
      when one of them threw. */
  ghost predicate Launching<T, R, E>(values: seq<T>, transformer: (T, nat) -> Invocation<R, E>, starting: int,
                                     s: Snapshot<R, E>)
  {
    && Bookkept(values, transformer, starting, s)
    && 0 < starting && s.i <= starting && s.pending == s.i && s.results == map[]
    && (forall k :: k in s.inFlight <==> 0 <= k < s.i && !transformer(values[k], k).Throw?)
    && (forall k :: k in s.failed <==> 0 <= k < s.i && transformer(values[k], k).Throw?)
    && (s.outcome.Some? <==> s.failed != {})
    && RejectedByFirstThrow(values, transformer, s.i, s.outcome)
  }

  /** Among the first `n` calls, the run is rejected only by the first one
      that threw, with its error: the executor's loop calls `next()` in index
      order and every later `reject` finds the promise already settled. */
  ghost predicate RejectedByFirstThrow<T, R, E>(values: seq<T>, transformer: (T, nat) -> Invocation<R, E>, n: nat,
                                          outcome: Option<Outcome<seq<R>, E>>)
  {
    outcome.Some? ==>
      exists k :: 0 <= k < n && k < |values| && transformer(values[k], k).Throw?
               && (forall j :: 0 <= j < k ==> !transformer(values[j], j).Throw?)
               && outcome == Some(Err(transformer(values[k], k).error))
  }

  /** One turn of the executor's loop keeps the run rejected by the first
      call that threw. */
  lemma LaunchRejects<T, R, E>(values: seq<T>, transformer: (T, nat) -> Invocation<R, E>, starting: int,
                               s: Snapshot<R, E>)
    requires Launching(values, transformer, starting, s) && s.i < starting && s.i < |values|
    ensures RejectedByFirstThrow(values, transformer, s.i + 1, Start(values, transformer, s).outcome)
  {
    var call := transformer(values[s.i], s.i);
    if call.Throw? && s.outcome.None? {
      forall j | 0 <= j < s.i
        ensures !transformer(values[j], j).Throw?
      {
        assert transformer(values[j], j).Throw? ==> j in s.failed;
      }
      assert Start(values, transformer, s).outcome == Some(Err(call.error));
    }
  }

  /** The executor's loop starts from the initial snapshot. */
  lemma LaunchingInitially<T, R, E>(values: seq<T>, transformer: (T, nat) -> Invocation<R, E>, starting: int)
    requires 0 < starting <= |values|
    ensures Launching(values, transformer, starting, Snapshot(0, 0, map[], {}, {}, [], None))
  {
  }

  /** One turn of the executor's loop starts index `i` and keeps the loop's
      invariant. */
  lemma LaunchStep<T, R, E>(values: seq<T>, transformer: (T, nat) -> Invocation<R, E>, starting: int,
                            s: Snapshot<R, E>)
    requires Launching(values, transformer, starting, s) && s.i < starting
    ensures s.i < |values|
    ensures Launching(values, transformer, starting, NextStep(values, transformer, s))
    ensures NextStep(values, transformer, s).i == s.i + 1
  {
    NextStepKeeps(values, transformer, starting, s);
    LaunchRejects(values, transformer, starting, s);
  }

  /** Once the executor's loop has handed out `starting` indices, the run is
      `Running`. */
  lemma Launched<T, R, E>(values: seq<T>, transformer: (T, nat) -> Invocation<R, E>, starting: int,
                          s: Snapshot<R, E>)
    requires Launching(values, transformer, starting, s) && s.i == starting
    ensures Running(values, transformer, starting, s)
  {
  }

  /** The fulfilment callback of the in-flight call at `index`
      (src/array.ts:91-93), before it calls `next()`: the value is stored at
      its position and the call no longer counts as pending. */
  function Fulfilment<R, E>(s: Snapshot<R, E>, index: nat, value: R): Snapshot<R, E>
    requires s.pending > 0
  {
    s.(inFlight := s.inFlight - {index}, results := s.results[index := value], pending := s.pending - 1)
  }

  /** The rejection callback of the in-flight call at `index`
      (src/array.ts:95-96): the run is rejected and `pending` stays as it is. */
  function Rejection<R, E>(s: Snapshot<R, E>, index: nat, error: E): Snapshot<R, E> {
    s.(inFlight := s.inFlight - {index}, failed := s.failed + {index}, outcome := SettleOnce(s.outcome, Err(error)))
  }

  /** One `.then` callback of the in-flight call at `index`
      (src/array.ts:89-97) on a snapshot. A fulfilment stores the value at its
      position, decrements `pending` and calls `next()`, which starts the next
      index EVEN WHEN the run has already been rejected; a rejection rejects
      the run and leaves `pending` as it is, so the run can never resolve
      afterwards. */
  function SettleStep<T, R, E>(values: seq<T>, transformer: (T, nat) -> Invocation<R, E>, starting: int,
                               s: Snapshot<R, E>, index: nat): Snapshot<R, E>
    requires Running(values, transformer, starting, s) && index in s.inFlight
  {
    PartitionedSettle(values, transformer, s.i, s.results, s.inFlight, s.failed, index);
    match transformer(values[index], index)
    case Reject(e) => Rejection(s, index, e)
    case Fulfil(v) =>
      FulfilmentReady(values, transformer, starting, s, index);
      NextStep(values, transformer, Fulfilment(s, index, v))
  }

  /** After a fulfilment the bookkeeping invariant holds again, and `next()`
      may run: it starts an index only while fewer than `starting` calls are
      pending. */
  lemma FulfilmentBookkept<T, R, E>(values: seq<T>, transformer: (T, nat) -> Invocation<R, E>, starting: int,
                                    s: Snapshot<R, E>, index: nat)
    requires Running(values, transformer, starting, s) && index in s.inFlight
    requires index < |values| && transformer(values[index], index).Fulfil?
    ensures s.pending > 0
    ensures var f := Fulfilment(s, index, transformer(values[index], index).value);
      && Bookkept(values, transformer, starting, f)
      && (f.i < |values| ==> f.pending < starting)
  {
    PartitionedSettle(values, transformer, s.i, s.results, s.inFlight, s.failed, index);
  }

  /** After a fulfilment, `next()` can read back every result once the
      cursor is at the end and nothing is pending. */
  lemma FulfilmentReady<T, R, E>(values: seq<T>, transformer: (T, nat) -> Invocation<R, E>, starting: int,
                                 s: Snapshot<R, E>, index: nat)
    requires Running(values, transformer, starting, s) && index in s.inFlight
    requires index < |values| && transformer(values[index], index).Fulfil?
    ensures s.pending > 0
    ensures var f := Fulfilment(s, index, transformer(values[index], index).value);
      f.i <= |values| && (f.i == |values| && f.pending == 0 ==> Complete(|values|, f))
  {
    FulfilmentBookkept(values, transformer, starting, s, index);
    NextStepKeeps(values, transformer, starting, Fulfilment(s, index, transformer(values[index], index).value));
  }

  /** A rejection keeps the executor's invariant and removes the call from
      the in-flight set; the run is rejected, with this error unless it had
      already settled. */
  lemma RejectionKeeps<T, R, E>(values: seq<T>, transformer: (T, nat) -> Invocation<R, E>, starting: int,
                                s: Snapshot<R, E>, index: nat)
    requires Running(values, transformer, starting, s) && index in s.inFlight
    requires index < |values| && transformer(values[index], index).Reject?
    ensures var r := Rejection(s, index, transformer(values[index], index).error);
      && Running(values, transformer, starting, r)
      && r.i == s.i && index !in r.inFlight && |r.inFlight| < |s.inFlight|
      && r.outcome == SettleOnce(s.outcome, Err(transformer(values[index], index).error))
      && s.failed <= r.failed
  {
    PartitionedSettle(values, transformer, s.i, s.results, s.inFlight, s.failed, index);
    var r := Rejection(s, index, transformer(values[index], index).error);
    assert |r.inFlight| == |s.inFlight| - 1 && |r.failed| == |s.failed| + 1;
    assert Partitioned(values, transformer, r.i, r.results, r.inFlight, r.failed);
    if s.outcome.None? {
      assert index in r.failed && transformer(values[index], index).Fails();
    }
  }

  /** A fulfilment keeps the executor's invariant; it removes the call from
      the in-flight set and, while indices remain, starts exactly the next
      one, even after a rejection. A settled promise stays as it was. */
  lemma FulfilmentKeeps<T, R, E>(values: seq<T>, transformer: (T, nat) -> Invocation<R, E>, starting: int,
                                 s: Snapshot<R, E>, index: nat)
    requires Running(values, transformer, starting, s) && index in s.inFlight
    requires index < |values| && transformer(values[index], index).Fulfil?
    ensures s.pending > 0
    ensures var f := Fulfilment(s, index, transformer(values[index], index).value);
      f.i <= |values| && (f.i == |values| && f.pending == 0 ==> Complete(|values|, f))
    ensures var r := NextStep(values, transformer, Fulfilment(s, index, transformer(values[index], index).value));
      && Running(values, transformer, starting, r)
      && index !in r.inFlight
      && (if s.i < |values|
          then r.i == s.i + 1 && r.invoked == s.invoked + [s.i] && |r.inFlight| <= |s.inFlight|
          else r.i == s.i && |r.inFlight| < |s.inFlight|)
      && (s.outcome.Some? ==> r.outcome == s.outcome)
      && s.failed <= r.failed
  {
    PartitionedSettle(values, transformer, s.i, s.results, s.inFlight, s.failed, index);
    FulfilmentBookkept(values, transformer, starting, s, index);
    var f := Fulfilment(s, index, transformer(values[index], index).value);
    NextStepKeeps(values, transformer, starting, f);
    assert 0 < starting;
    assert |f.inFlight| == |s.inFlight| - 1;
    if s.i < |values| {
      assert s.i !in f.inFlight;
      assert |f.inFlight + {s.i}| <= |f.inFlight| + 1;
    }
  }

  /** The executor's invariant is kept whatever the order in which the
      environment settles the calls; a settled promise stays as it was, a
      failure stays recorded, and each callback either removes a call from
      the in-flight set or starts the next index. A fulfilment while indices
      remain starts exactly the next one, even after a rejection. */
  lemma SettleStepKeeps<T, R, E>(values: seq<T>, transformer: (T, nat) -> Invocation<R, E>, starting: int,
                                 s: Snapshot<R, E>, index: nat)
    requires Running(values, transformer, starting, s) && index in s.inFlight
    ensures var r := SettleStep(values, transformer, starting, s, index);
      && Running(values, transformer, starting, r)
      && (s.outcome.Some? ==> r.outcome == s.outcome)
      && s.failed <= r.failed
      && index !in r.inFlight
      && ((r.i == s.i && |r.inFlight| < |s.inFlight|) || (r.i == s.i + 1 && |r.inFlight| <= |s.inFlight|))
      && (transformer(values[index], index).Fulfil? && s.i < |values| ==>
            r.i == s.i + 1 && r.invoked == s.invoked + [s.i])
  {
    PartitionedSettle(values, transformer, s.i, s.results, s.inFlight, s.failed, index);
    if transformer(values[index], index).Fulfil? {
      FulfilmentKeeps(values, transformer, starting, s, index);
    } else {
      RejectionKeeps(values, transformer, starting, s, index);
    }
  }

  /** One call of `map(values, transformer, concurrency)` with a numeric
      `concurrency`: the variables its `new Promise` executor captures (as in
      `Snapshot`), and the state of the promise it returns. */
  class Run<T, R, E> {
    const values: seq<T>
    const transformer: (T, nat) -> Invocation<R, E>
    /** `Math.min(concurrency, values.length)` (src/array.ts:55). */
    const starting: int

    /** The executor has run (`Begin`). */
    ghost var begun: bool
    var i: nat
    var pending: nat
    var results: map<nat, R>
    var inFlight: set<nat>
    /** The calls that threw or rejected, and every index handed out, in
        order: bookkeeping of the model that the executor does not keep. */
    ghost var failed: set<nat>
    ghost var invoked: seq<nat>
    var outcome: Option<Outcome<seq<R>, E>>

    ghost function State(): Snapshot<R, E>
      reads this
    {
      Snapshot(i, pending, results, inFlight, failed, invoked, outcome)
    }

    ghost predicate Valid()
      reads this
    {
      begun && Running(values, transformer, starting, State())
    }

    constructor (values: seq<T>, transformer: (T, nat) -> Invocation<R, E>, concurrency: int)
      ensures this.values == values && this.transformer == transformer
      ensures starting == Min(concurrency, |values|)
      ensures !begun && State() == Snapshot(0, 0, map[], {}, {}, [], None)
      ensures Bookkept(values, transformer, starting, State())
    {
      this.values := values;
      this.transformer := transformer;
      starting := Min(concurrency, |values|);
      begun := false;
      i := 0;
      pending := 0;
      results := map[];
      inFlight := {};
      failed := {};
      invoked := [];
      outcome := None;
    }

    /** `next()` (src/array.ts:66-98). */
    method Next()
      requires i <= |values|
      requires i == |values| && pending == 0 ==> Complete(|values|, State())
      modifies this
      ensures begun == old(begun)
      ensures State() == NextStep(values, transformer, old(State()))
    {
      if i == |values| {
        if pending == 0 {
          outcome := SettleOnce(outcome, Ok(Collect(results, |values|)));
        }
        return;
      }
      var index := i;
      i := i + 1;
      var value := values[index];
      pending := pending + 1;
      invoked := invoked + [index];
      var call := transformer(value, index);
      if call.Throw? {
        failed := failed + {index};
        outcome := SettleOnce(outcome, Err(call.error));
        return;
      }
      inFlight := inFlight + {index};
    }

    /** The executor (src/array.ts:49-64): with `starting <= 0` it resolves
        with `[]` at once and never calls the transformer; otherwise it calls
        `next()` until `starting` indices have been handed out, all of them
        pending, those that threw having rejected the run with the error of
        the first of them. */
    method Begin()
      requires !begun && State() == Snapshot(0, 0, map[], {}, {}, [], None)
      requires starting <= |values|
      modifies this
      ensures Valid()
      ensures starting <= 0 ==> State() == Snapshot(0, 0, map[], {}, {}, [], Some(Ok([])))
      ensures starting > 0 ==>
        && i == starting && pending == starting && results == map[]
        && (forall k :: k in inFlight <==> 0 <= k < starting && !transformer(values[k], k).Throw?)
        && (forall k :: k in failed <==> 0 <= k < starting && transformer(values[k], k).Throw?)
        && (outcome.Some? <==> failed != {})
      ensures starting > 0 && outcome.Some? ==>
        exists k :: 0 <= k < starting && transformer(values[k], k).Throw?
                 && (forall j :: 0 <= j < k ==> !transformer(values[j], j).Throw?)
                 && outcome == Some(Err(transformer(values[k], k).error))
    {
      begun := true;
      if starting <= 0 {
        outcome := SettleOnce(outcome, Ok([]));
        ResolvedEmptyIsRunning(values, transformer, starting);
        return;
      }
      LaunchingInitially(values, transformer, starting);
      while i < starting
        invariant begun && Launching(values, transformer, starting, State())
        decreases starting - i
      {
        LaunchStep(values, transformer, starting, State());
        Next();
      }
      Launched(values, transformer, starting, State());
    }

    /** One `.then` callback of the in-flight call at `index` (src/array.ts:89-97). */
    method Settle(index: nat)
      requires Valid() && index in inFlight
      modifies this
      ensures Valid()
      ensures State() == SettleStep(values, transformer, starting, old(State()), index)
    {
      ghost var before := State();
      InFlightIndex(values, transformer, starting, before, index);
      var call := transformer(values[index], index);
      if call.Reject? {
        inFlight := inFlight - {index};
        failed := failed + {index};
        outcome := SettleOnce(outcome, Err(call.error));
        assert State() == Rejection(before, index, call.error);
        SettleStepKeeps(values, transformer, starting, before, index);
        return;
      }
      FulfilmentReady(values, transformer, starting, before, index);
      inFlight := inFlight - {index};
      results := results[index := call.value];
      pending := pending - 1;
      assert State() == Fulfilment(before, index, call.value);
      Next();
      SettleStepKeeps(values, transformer, starting, before, index);
    }
  }

  /** Lets the environment settle every in-flight call, picking each time
      any one of them. Whatever the order, a run whose calls all fulfil
      resolves with the transformed values in input order, and a run in which
      a started call failed is rejected. */
  method Drain<T, R, E>(run: Run<T, R, E>)
    requires run.Valid()
    modifies run
    ensures run.Valid() && run.inFlight == {}
    ensures run.starting > 0 && (forall k :: 0 <= k < |run.values| ==> run.transformer(run.values[k], k).Fulfil?) ==>
      run.outcome.Some? && run.outcome.value.Ok? && AllFulfilled(run.values, run.transformer, run.outcome.value.value)
    ensures run.failed != {} ==> run.outcome.Some? && run.outcome.value.Err?
    ensures run.outcome.Some?
    ensures run.outcome.value.Err? ==>
      exists k :: 0 <= k < |run.values| && run.transformer(run.values[k], k).Fails()
               && run.transformer(run.values[k], k).error == run.outcome.value.error
  {
    while run.inFlight != {}
      invariant run.Valid()
      decreases 2 * (|run.values| - run.i) + |run.inFlight|
    {
      var k :| k in run.inFlight;
      SettleStepKeeps(run.values, run.transformer, run.starting, run.State(), k);
      run.Settle(k);
    }
  }

  /** The transformer of src/test/array/map-test.ts:35-50: every call
      fulfils with a tenth of its value. */
  function Tenth(value: int, index: nat): Invocation<int, string> {
    Fulfil(value / 10)
  }

  /** The only array that holds, position by position, the fulfilled values
      of `Tenth` on the test's input. */
  lemma TenthsInOrder(rs: seq<int>)
    requires AllFulfilled([20, 10, 30, 20, 10], Tenth, rs)
    ensures rs == [2, 1, 3, 2, 1]
  {
    var values := [20, 10, 30, 20, 10];
    assert forall k :: 0 <= k < 5 ==> Tenth(values[k], k) == Fulfil(rs[k]);
  }

  /** src/test/array/map-test.ts:30-53: five values, a concurrency of 2,
      every call fulfilling with a tenth of its value. Whatever order the
      calls settle in, two calls are pending once the executor has run and
      the run resolves with the values in input order. */
  method TransformInGivenConcurrency() returns (pendingAtStart: nat, results: Outcome<seq<int>, string>)
    ensures pendingAtStart == 2
    ensures results == Ok([2, 1, 3, 2, 1])
  {
    var run := new Run([20, 10, 30, 20, 10], Tenth, 2);
    run.Begin();
    pendingAtStart := run.pending;
    Drain(run);
    results := run.outcome.value;
    TenthsInOrder(results.value);
  }
}
