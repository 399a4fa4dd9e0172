# villa's asynchronous helpers, modelled in Dafny

A model of the core of the TypeScript library villa:

- the array helpers of `src/array.ts`:
  - `each`, `some`, `every` and `filter` are sequential awaiting loops;
  - `reduce` is a left fold over awaited accumulators;
  - `map` comes in two forms: all calls at once through `Promise.all`, or the small state machine that keeps at most `concurrency` calls pending;
- the keyed asynchronous lock `lock` and `parallel` of `src/concurrency.ts`;
- `retry` of `src/miscellaneous.ts`.

There is no promise machinery in the model. What a handler's promise settles with is an oracle, a function of (value, index) or, for `retry`, of (last reason, attempt). Where several promises are pending, the environment picks the order in which they settle:

- an arbitrary settlement order for `Promise.all`;
- `Run.Settle` on any in-flight index for the bounded `map`;
- `LockTable.Start` and `LockTable.Settle` on any eligible call for `lock`.

The properties are proved for every order.

Files:

- `outcomes.dfy`: `Option`, `Outcome` (fulfilled or rejected) and `SettleOnce`, which says a promise settles once.
- `array_iteration.dfy`: `each`, `some`, `every`, `filter`. JavaScript values are modelled as far as `=== false` and truthiness look at them.
- `array_reduce.dfy`: `reduce`, with and without an initial value.
- `array_map.dfy`: the `map` function in both branches.
  - The bounded branch is a class `Run`. Its fields are the variables the `new Promise` executor captures: `i`, `pending`, `results`, plus the calls in flight and the returned promise's state. The failed calls, the indices handed out and whether the executor has run are ghost fields that only the proofs use.
  - `Next` and `Settle` are specified by pure step functions on a `Snapshot` of those fields. `Begin` is specified by the state after its loop, whose invariant is proved turn by turn with `NextStep`.
  - The invariant `Bookkept`/`Running` is proved about those step functions.
- `concurrency.dfy`: the lock table as a class `LockTable`, holding `head`, the key-to-latest-call map of `lockObjectToPromiseMapping`, and every issued call.
  - A call waits on the call that was the head of its key when it was issued.
  - The chain invariant `Chained` gives issue order and mutual exclusion per key.
  - Also in this file: `parallel` over both `map` branches.
- `miscellaneous.dfy`: `retry` as the loop it is.

Behaviour of the code that is easy to miss:

- After a call of the bounded `map` has failed, a later fulfilment still runs `next()` and starts the next index. So starting does not stop at the first failure. Only the resolution is blocked, because a failed call never decrements `pending` (src/array.ts:91-97). `FulfilmentKeeps` states this.
  - The executor's loop also keeps starting indices after a synchronous throw (src/array.ts:62-64, 82-87).
- `map` with a numeric `concurrency <= 0` resolves with `[]` without calling the transformer, even for a non-empty array (src/array.ts:55-60).
- `reduce` without an initial value on an empty array rejects: `Array.prototype.reduce` throws a TypeError. The declared return type `Promise<T | undefined>` suggests otherwise.

## Model

| member | source | states |
|---|---|---|
| ArrayIteration.FirstStopIsFirst | src/array.ts:7-39 | The reference scan names the first index whose outcome ends the loop. Every earlier index was fulfilled with a value that does not stop it, and the named index failed or holds a stopping value. `Completed` means no index ends it. |
| ArrayIteration.FirstStop | src/array.ts:7-39 | The reference scan shared by `each`, `some` and `every`: the first index that fails or whose value stops the loop. Its meaning is stated by `FirstStopIsFirst`, and `Each`, `Some` and `Every` are proved against it. |
| ArrayIteration.Each | src/array.ts:7-15 | `each` calls the handler on 0, 1, 2, … in order and stops at the first value that is strictly `false`, answering `false`. `undefined` does not stop it. After every value it answers `true`. A failure rejects with the handler's error, and no later index is called. |
| ArrayIteration.Some | src/array.ts:19-27 | `some` answers `true` at the first truthy value, and calls no later index. It answers `false` when no value is truthy. A failure rejects. |
| ArrayIteration.Every | src/array.ts:31-39 | `every` answers `false` at the first falsy value, and calls no later index. It answers `true` when all values are truthy. A failure rejects. |
| ArrayIteration.KeptPositions | src/array.ts:114-125 | The kept values are the inputs at a strictly increasing list of positions. A position is kept exactly when its handler value is truthy, so the result is never longer than the input. |
| ArrayIteration.Kept | src/array.ts:114-125 | The reference definition of `filter`'s result over the first `n` values. Its meaning is stated by `KeptPositions`, and `Filter` is proved against it. |
| ArrayIteration.Filter | src/array.ts:114-125 | `filter` calls the handler in order and answers exactly the in-order truthy subsequence. The first failure rejects, and no later index is called. |
| ArrayIteration.InterruptedByFalse | src/test/array/each-test.ts:19-34 | A handler that answers `undefined` and then `false` makes `each` answer `false` after calling indices 0 and 1 only. |
| ArrayReduce.Fold | src/array.ts:107-109 | The chain of awaited accumulators from one index on. Its meaning is stated by `ReduceAppend`, `ReduceWithoutInitialSeed` and `ReduceRejectsWithTransformerError`. |
| ArrayReduce.Reduce | src/array.ts:104-110 | `reduce` with an initial value. Its meaning is stated by `ReduceAppend` and `ReduceRejectsWithTransformerError`. |
| ArrayReduce.ReduceWithoutInitial | src/array.ts:105-110 | `reduce` without an initial value. Its meaning is stated by `ReduceWithoutInitialSeed`. |
| ArrayReduce.ReduceAppend | src/array.ts:104-110 | `reduce` is a left fold in index order. Reducing `values + [x]` reduces `values` and then calls the transformer on that accumulator, `x` and index `|values|`. An earlier rejection skips the call. |
| ArrayReduce.ReduceWithoutInitialSeed | src/array.ts:105-109 | Without an initial value, `reduce` folds `values[1..]` from the seed `values[0]`, and the transformer sees indices from 1. An empty array rejects with the TypeError. |
| ArrayReduce.ReduceRejectsWithTransformerError | src/array.ts:107-109 | A rejected `reduce` carries an error that the transformer produced at some index. |
| ArrayMap.FirstThrow | src/array.ts:45 | `values.map` stops at the first synchronous throw: the index found throws and no earlier one does. `None` means no call throws. |
| ArrayMap.FirstRejected | src/array.ts:45 | `Promise.all` takes the first rejection in settlement order: the index found rejects and sits in the order after no other rejecting call. `None` means no settled call rejects. |
| ArrayMap.Fulfilled | src/array.ts:45 | When every call fulfils, the collected array has one value per input, each the fulfilled value at its position. |
| ArrayMap.MapAll | src/array.ts:44-45 | `Promise.all(values.map(transformer))` for one settlement order. Its meaning is stated by `MapAllOutcome`. |
| ArrayMap.MapAllOutcome | src/array.ts:43-46 | Without `concurrency`, `map` fulfils exactly when every call fulfils, with values in input order whatever the settlement order. The first synchronous throw decides the error. When nothing throws, the error is that of the first call in settlement order to reject. Any rejection carries the error of a failing call. |
| ArrayMap.Start | src/array.ts:74-97 | `next()` with an index left, on a snapshot. Its effect is stated by `NextStepKeeps` and `LaunchStep`. |
| ArrayMap.Finish | src/array.ts:67-71 | `next()` at the end with nothing pending resolves the run. Its effect is stated by `NextStepKeeps`. |
| ArrayMap.NextStep | src/array.ts:66-98 | `next()` on a snapshot. The invariant it keeps is stated by `NextStepKeeps`, and `Run.Next` is proved equal to it. |
| ArrayMap.NextStepKeeps | src/array.ts:66-98 | `next()` keeps the invariant while it starts an index only below `starting` pending calls. The invariant: the cursor never passes `values.length`; indices are handed out once each, in order; `pending <= starting`; a failure rejects, with a failed call's error; resolution requires every index done with values at their positions. A settled promise and recorded failures stay. |
| ArrayMap.ResolvedEmptyIsRunning | src/array.ts:55-60 | With `min(concurrency, values.length) <= 0` the run resolves with `[]` in its final state, no index handed out. |
| ArrayMap.LaunchingInitially | src/array.ts:49-55 | The executor's loop starts from no call, nothing pending and an unsettled promise. |
| ArrayMap.LaunchStep | src/array.ts:62-64 | One turn of the executor's loop starts exactly index `i` and keeps the loop invariant: started indices are pending, those that threw are the failed ones, and the run is rejected exactly when one threw, with the error of the first call that threw. |
| ArrayMap.LaunchRejects | src/array.ts:62-87 | One turn of the executor's loop keeps the run rejected by the first call that threw, with that call's error. A later throw finds the promise already settled. |
| ArrayMap.Launched | src/array.ts:62-64 | After `starting` turns, the full running invariant holds. |
| ArrayMap.Fulfilment | src/array.ts:91-93 | The fulfilment callback before it calls `next()`, on a snapshot. Its effect is stated by `FulfilmentBookkept`, `FulfilmentReady` and `FulfilmentKeeps`. |
| ArrayMap.FulfilmentBookkept | src/array.ts:91-93 | After a fulfilment stores its value and decrements `pending`, the invariant holds and `next()` may start an index. |
| ArrayMap.FulfilmentReady | src/array.ts:91-94 | After a fulfilment, `next()` can read back every result when the cursor is at the end and nothing is pending. |
| ArrayMap.Rejection | src/array.ts:95-96 | The rejection callback on a snapshot. Its effect is stated by `RejectionKeeps`. |
| ArrayMap.RejectionKeeps | src/array.ts:95-96 | A rejection keeps the invariant and rejects the run with its error unless the run had already settled. `pending` stays as it was. |
| ArrayMap.FulfilmentKeeps | src/array.ts:91-94 | A fulfilment keeps the invariant. While indices remain it starts exactly the next one, even after a rejection. Otherwise it only removes the call from the in-flight set. |
| ArrayMap.SettleStep | src/array.ts:89-97 | One `.then` callback on a snapshot. Its effect is stated by `SettleStepKeeps`, and `Run.Settle` is proved equal to it. |
| ArrayMap.SettleStepKeeps | src/array.ts:89-97 | Whatever order the calls settle in, each callback keeps the invariant, keeps a settled promise, and either shrinks the in-flight set or starts the next index. |
| ArrayMap.Run.constructor | src/array.ts:48-55 | `starting = Math.min(concurrency, values.length)`, with cursor, `pending` and results empty. |
| ArrayMap.Run.Next | src/array.ts:66-98 | The imperative `next()` does to the fields exactly what `NextStep` does to a snapshot. |
| ArrayMap.Run.Begin | src/array.ts:57-64 | With `starting <= 0`, resolves `[]` and calls nothing. Otherwise it starts exactly indices `0 .. starting-1`, all of them pending. The calls that threw are the failed ones, and the run is rejected exactly when one threw, with the error of the lowest throwing index. |
| ArrayMap.Run.Settle | src/array.ts:89-97 | The imperative `.then` callbacks do to the fields exactly what `SettleStep` does, and they keep the running invariant. |
| ArrayMap.Drain | src/array.ts:48-99 | Settling in-flight calls in any order until none is left always settles the run. When every call fulfils, it resolves with each call's value at its position. Once a started call failed, it rejects, with a failing call's error. |
| ArrayMap.TenthsInOrder | src/test/array/map-test.ts:30-53 | The only array holding the fulfilled values of `value / 10` on `[20, 10, 30, 20, 10]` is `[2, 1, 3, 2, 1]`. |
| ArrayMap.TransformInGivenConcurrency | src/test/array/map-test.ts:30-53 | With concurrency 2, two calls are pending after the executor, and the run resolves with `[2, 1, 3, 2, 1]` whatever the settlement order. |
| Concurrency.Latest | src/concurrency.ts:10-23 | The latest earlier call on a key: it has the key and no later call below the bound does. `None` means no call has the key. |
| Concurrency.HeadIsLatest | src/concurrency.ts:12-23 | The entry a new call reads for its key is the latest call issued on that key, or nothing for a new key. |
| Concurrency.LockKeepsHeads | src/concurrency.ts:22-23 | Installing the new call under its key, and no other key, keeps the map pointing at the latest call of every key. |
| Concurrency.IssueKeeps | src/concurrency.ts:21-23 | Issuing a call that waits on its key's latest call keeps the chain invariant. |
| Concurrency.StartKeeps | src/concurrency.ts:11-15 | Starting a call whose predecessor has settled, fulfilled or rejected, keeps the chain invariant. |
| Concurrency.SettleKeeps | src/concurrency.ts:15 | Settling a running call with its own handler's outcome keeps the chain invariant. |
| Concurrency.SettledBefore | src/concurrency.ts:10-15 | Once a call has left `Waiting`, every earlier call on its key has settled: handlers of one key run in issue order. |
| Concurrency.AtMostOneRunning | src/concurrency.ts:10-15 | No two calls on one key are running at the same time. |
| Concurrency.StartableExactly | src/concurrency.ts:11-15 | A waiting call may start exactly when every earlier call on its key has settled. A rejected predecessor does not hold it back. |
| Concurrency.LockTable.constructor | src/concurrency.ts:6 | The table starts empty. |
| Concurrency.LockTable.Lock | src/concurrency.ts:21-25 | `lock` appends a waiting call on the head its key had and installs the new ticket under that key. Every other entry is unchanged and no entry is removed. |
| Concurrency.LockTable.Start | src/concurrency.ts:11-15 | A call whose predecessor settled starts its handler. The map is unchanged. |
| Concurrency.LockTable.Settle | src/concurrency.ts:15 | A running call settles with exactly its own handler's outcome. The map is unchanged. |
| Concurrency.Parallel | src/concurrency.ts:32-34 | `parallel` drops `map`'s values and keeps its rejection. Its meaning is stated by `ParallelAllOutcome` and `ParallelBounded`. |
| Concurrency.ParallelAllOutcome | src/concurrency.ts:32-34 | Without `concurrency`, `parallel` fulfils exactly when every handler call fulfils. A rejection carries a failing call's error. |
| Concurrency.ParallelBounded | src/concurrency.ts:32-34 | With `concurrency`, `parallel` fulfils when nothing is to be started. Otherwise it fulfils exactly when every call fulfils, and rejects when some call fails. A rejection carries a failing call's error. |
| Miscellaneous.Limit | src/miscellaneous.ts:27-28 | `limit` defaults to 3. `Retry`'s contract states what it bounds. |
| Miscellaneous.Interval | src/miscellaneous.ts:27-30 | `interval` defaults to 0. `Retry`'s contract states where it is used. |
| Miscellaneous.Retry | src/miscellaneous.ts:26-45 | `retry` calls the handler with attempts 0, 1, 2, …, at most `limit` times, where `limit` defaults to 3. Attempt 0 gets `undefined` and attempt k+1 gets attempt k's error. It returns the first fulfilled value and makes no further attempt. Otherwise it rejects after exactly `limit` failures with the last error, or with `undefined` when `limit <= 0`. Each failed attempt is followed by a sleep of `interval`, which defaults to 0. |
| Miscellaneous.RejectedTwiceThenSucceed | src/test/miscellaneous/retry-test.ts:13-31 | Two failures and then an answer give three calls and that answer. |
| Miscellaneous.ExceedingRetryLimit | src/test/miscellaneous/retry-test.ts:33-45 | With `limit: 6` and an always-failing handler, there are six calls and the rejection carries attempt 5's error. |

## Left out

- The event loop, microtask ordering and timers are not modelled. The settlement order of pending promises is a choice of the environment: an order for `Promise.all`, which in-flight call `Run.Settle` gets, and when `LockTable.Start`/`Settle` run. Liveness is not modelled, for example that a started call eventually settles.
- Handlers are oracles from (value, index), or from (last reason, attempt) for `retry`. A handler with side effects, or one whose result depends on time, is not modelled. Neither is the third `values` argument every handler receives.
- A synchronous throw inside `each`, `some`, `every`, `filter`, `reduce` or `lock` is awaited inside an async function, so it is modelled like a rejection (`Err`). In `map` the two are told apart (`Invocation`).
- JavaScript values are modelled as undefined, null, booleans, integers and strings. `NaN`, fractions, objects and symbols are left out, so truthiness only covers those values.
- `concurrency` and `limit` are integers. A fractional `concurrency`, for which `while (i < starting)` starts one more call, is left out, as is a fractional `limit`, NaN and Infinity.
- The choice between the two `map` branches (`typeof concurrency !== 'number'`, src/array.ts:44) is not a member. The unbounded branch is `MapAll` and the numeric one is `Run`.
- `sleep` (src/miscellaneous.ts:7-9) is a timer and is not part of this model; `retry` reports the durations it would sleep, in order.
- Miscellaneous.Retry: a handler that rejects with `undefined` hands `Some(undefined)` to the next attempt, where JavaScript hands `undefined`. The model keeps "no failure yet" and "failed with `undefined`" apart.
- Promise identity is not modelled. `lock` returns a second promise that follows `_lock`'s, and the model does not distinguish them.
- Keys of the lock table are values with equality; JavaScript compares object keys by identity. Entries are never evicted, exactly as in the source.
- Also not part of this model: `awaitable`, `chainable`, `acall`, `function`, `BatchScheduler`, `find`, `findIndex` and `reduceRight`.
