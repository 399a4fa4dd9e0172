/** src/concurrency.ts: the keyed asynchronous lock and `parallel`.

    `lock(object, handler)` keeps, in the module-level map
    `lockObjectToPromiseMapping`, the promise of the latest call issued on
    each key. A call reads the entry of its key (its predecessor) before
    installing its own promise there, waits until the predecessor has
    settled, swallowing a rejection, and then runs its handler; its promise
    settles as the handler's does. Calls are numbered in issue order (their
    "tickets"); the environment decides when a call whose predecessor has
    settled starts and when a running handler settles. */
module Concurrency {
  import opened Outcomes
  import ArrayMap

  /** Where a call is: waiting on its predecessor (src/concurrency.ts:12),
      running its handler (line 15), or settled with an outcome. */
  datatype State<+R, +E> = Waiting | Running | Settled(outcome: Outcome<R, E>)

  /** One `lock` call: its key, the ticket of the call it waits on (`None`
      when the key had no entry), the outcome its handler settles with
      (a synchronous throw is an `Err` as well), and where it is. */
  datatype Call<K, R, E> = Call(key: K, pred: Option<nat>, handler: Outcome<R, E>, state: State<R, E>)

  /** The latest call below ticket `n` issued on `key`. */
  function Latest<K(==), R, E>(calls: seq<Call<K, R, E>>, n: nat, key: K): (t: Option<nat>)
    requires n <= |calls|
    ensures t.Some? ==>
      && t.value < n && calls[t.value].key == key
      && forall u :: t.value < u < n ==> calls[u].key != key
    ensures t.None? ==> forall u :: 0 <= u < n ==> calls[u].key != key
  {
    if n == 0 then None
    else if calls[n - 1].key == key then Some(n - 1)
    else Latest(calls, n - 1, key)
  }

  /** `Latest` only looks at the keys. */
  lemma {:induction false} LatestSameKeys<K, R, E>(a: seq<Call<K, R, E>>, b: seq<Call<K, R, E>>, n: nat, key: K)
    requires n <= |a| && n <= |b|
    requires forall u :: 0 <= u < n ==> a[u].key == b[u].key
    ensures Latest(a, n, key) == Latest(b, n, key)
  {
    if n > 0 && a[n - 1].key != key {
      LatestSameKeys(a, b, n - 1, key);
    }
  }

  /** The call at ticket `t` is well placed: it waits on the latest earlier
      call on its key; it has left `Waiting` only once that call settled,
      whatever its outcome; and once settled it carries its own handler's
      outcome. */
  ghost predicate ChainedAt<K, R, E>(calls: seq<Call<K, R, E>>, t: nat)
    requires t < |calls|
  {
    var c := calls[t];
    && c.pred == Latest(calls, t, c.key)
    && (c.state.Waiting? || c.pred.None? || calls[c.pred.value].state.Settled?)
    && (c.state.Settled? ==> c.state.outcome == c.handler)
  }

  ghost predicate Chained<K, R, E>(calls: seq<Call<K, R, E>>) {
    forall t :: 0 <= t < |calls| ==> ChainedAt(calls, t)
  }

  /** `lockObjectToPromiseMapping` holds, for each key some call was issued
      on, the ticket of the latest such call, and no other key. */
  ghost predicate HeadsLatest<K, R, E>(head: map<K, nat>, calls: seq<Call<K, R, E>>) {
    && (forall key :: key in head ==> Latest(calls, |calls|, key) == Some(head[key]))
    && (forall t :: 0 <= t < |calls| ==> calls[t].key in head)
  }

  /** The call at `t` may start: it waits, and its predecessor, if any, has
      settled (fulfilled or rejected, src/concurrency.ts:11-13). */
  predicate CanStart<K, R, E>(calls: seq<Call<K, R, E>>, t: nat)
    requires t < |calls|
  {
    && calls[t].state.Waiting?
    && match calls[t].pred
       case None => true
       case Some(p) => p < |calls| && calls[p].state.Settled?
  }

  /** Once a call has left `Waiting`, EVERY earlier call on its key has
      settled: handlers on one key run in issue order. */
  lemma {:induction false} SettledBefore<K, R, E>(calls: seq<Call<K, R, E>>, t: nat)
    requires Chained(calls) && t < |calls| && !calls[t].state.Waiting?
    ensures forall u :: 0 <= u < t && calls[u].key == calls[t].key ==> calls[u].state.Settled?
    decreases t
  {
    assert ChainedAt(calls, t);
    var key := calls[t].key;
    if calls[t].pred.Some? {
      var p := calls[t].pred.value;
      assert ChainedAt(calls, p);
      SettledBefore(calls, p);
    }
  }

  /** At most one handler per key is running. */
  lemma AtMostOneRunning<K, R, E>(calls: seq<Call<K, R, E>>)
    requires Chained(calls)
    ensures forall t, u :: 0 <= t < u < |calls| && calls[t].key == calls[u].key && calls[u].state.Running?
                       ==> !calls[t].state.Running?
  {
    forall t, u | 0 <= t < u < |calls| && calls[t].key == calls[u].key && calls[u].state.Running?
      ensures !calls[t].state.Running?
    {
      SettledBefore(calls, u);
    }
  }

  /** A waiting call may start exactly when every earlier call on its key has
      settled: waiting on the one predecessor is waiting on all of them, and
      a rejected predecessor does not hold its successor back. */
  lemma StartableExactly<K, R, E>(calls: seq<Call<K, R, E>>, t: nat)
    requires Chained(calls) && t < |calls| && calls[t].state.Waiting?
    ensures CanStart(calls, t)
        <==> forall u :: 0 <= u < t && calls[u].key == calls[t].key ==> calls[u].state.Settled?
  {
    assert ChainedAt(calls, t);
    if calls[t].pred.Some? {
      var p := calls[t].pred.value;
      if calls[p].state.Settled? {
        SettledBefore(calls, p);
      }
    }
  }

  /** Issuing a call that waits on the latest call on its key keeps the
      chain. */
  lemma IssueKeeps<K, R, E>(calls: seq<Call<K, R, E>>, key: K, handler: Outcome<R, E>)
    requires Chained(calls)
    ensures Chained(calls + [Call(key, Latest(calls, |calls|, key), handler, Waiting)])
  {
    var next := calls + [Call(key, Latest(calls, |calls|, key), handler, Waiting)];
    forall t | 0 <= t < |next| ensures ChainedAt(next, t) {
      LatestSameKeys(next, calls, t, next[t].key);
      if t < |calls| {
        assert ChainedAt(calls, t);
      }
    }
  }

  /** Starting a call that may start keeps the chain. */
  lemma StartKeeps<K, R, E>(calls: seq<Call<K, R, E>>, t: nat)
    requires Chained(calls) && t < |calls| && CanStart(calls, t)
    ensures Chained(calls[t := calls[t].(state := Running)])
  {
    var next := calls[t := calls[t].(state := Running)];
    forall u | 0 <= u < |next| ensures ChainedAt(next, u) {
      assert ChainedAt(calls, u);
      LatestSameKeys(next, calls, u, next[u].key);
    }
  }

  /** Settling a running handler with its own outcome keeps the chain. */
  lemma SettleKeeps<K, R, E>(calls: seq<Call<K, R, E>>, t: nat)
    requires Chained(calls) && t < |calls| && calls[t].state.Running?
    ensures Chained(calls[t := calls[t].(state := Settled(calls[t].handler))])
  {
    var next := calls[t := calls[t].(state := Settled(calls[t].handler))];
    forall u | 0 <= u < |next| ensures ChainedAt(next, u) {
      assert ChainedAt(calls, u);
      LatestSameKeys(next, calls, u, next[u].key);
    }
  }

  /** The entry `lock` reads for a key is the latest call issued on it, or
      nothing when no call was: a call waits on the head that was current
      when it was issued. */
  lemma HeadIsLatest<K, R, E>(head: map<K, nat>, calls: seq<Call<K, R, E>>, key: K)
    requires HeadsLatest(head, calls)
    ensures Latest(calls, |calls|, key) == if key in head then Some(head[key]) else None
  {
  }

  /** Installing the new call's ticket under its key, and changing no other
      entry, keeps the map pointing at the latest calls. */
  lemma LockKeepsHeads<K, R, E>(head: map<K, nat>, calls: seq<Call<K, R, E>>, c: Call<K, R, E>)
    requires HeadsLatest(head, calls)
    ensures HeadsLatest(head[c.key := |calls|], calls + [c])
  {
    var next := calls + [c];
    forall key | key in head[c.key := |calls|] ensures Latest(next, |next|, key) == Some(head[c.key := |calls|][key]) {
      LatestSameKeys(next, calls, |calls|, key);
    }
  }

  /** Starting or settling a call changes no key, so the map still points
      at the latest calls. */
  lemma SameKeysKeepHeads<K, R, E>(head: map<K, nat>, calls: seq<Call<K, R, E>>, next: seq<Call<K, R, E>>)
    requires HeadsLatest(head, calls)
    requires |next| == |calls| && forall u :: 0 <= u < |calls| ==> next[u].key == calls[u].key
    ensures HeadsLatest(head, next)
  {
    forall key | key in head ensures Latest(next, |next|, key) == Some(head[key]) {
      LatestSameKeys(next, calls, |calls|, key);
    }
  }

  /** `lockObjectToPromiseMapping` together with every call issued so far. */
  class LockTable<K(==), R, E> {
    /** Key to the ticket of the latest call on it (src/concurrency.ts:6). */
    var head: map<K, nat>
    /** Every call issued, by ticket. */
    var calls: seq<Call<K, R, E>>

    ghost predicate Valid()
      reads this
    {
      Chained(calls) && HeadsLatest(head, calls)
    }

    constructor ()
      ensures Valid() && head == map[] && calls == []
    {
      head := map[];
      calls := [];
    }

    /** `lock(key, handler)` (src/concurrency.ts:21-25 with lines 10-12):
        `_lock` reads the key's entry before its first `await`, then `lock`
        installs the new promise under the key. Only that key's entry
        changes, and no entry is ever removed. */
    method Lock(key: K, handler: Outcome<R, E>) returns (t: nat)
      requires Valid()
      modifies this
      ensures Valid()
      ensures t == |old(calls)|
      ensures calls == old(calls) + [Call(key, if key in old(head) then Some(old(head)[key]) else None, handler, Waiting)]
      ensures head == old(head)[key := t]
      ensures head.Keys == old(head).Keys + {key}
    {
      var pred := if key in head then Some(head[key]) else None;
      HeadIsLatest(head, calls, key);
      IssueKeeps(calls, key, handler);
      LockKeepsHeads(head, calls, Call(key, pred, handler, Waiting));
      t := |calls|;
      calls := calls + [Call(key, pred, handler, Waiting)];
      head := head[key := t];
    }

    /** The predecessor has settled and its outcome, if a rejection, is
        swallowed (src/concurrency.ts:11-13): the handler is called
        (line 15). */
    method Start(t: nat)
      requires Valid() && t < |calls| && CanStart(calls, t)
      modifies this
      ensures Valid()
      ensures head == old(head)
      ensures calls == old(calls)[t := old(calls)[t].(state := Running)]
    {
      StartKeeps(calls, t);
      SameKeysKeepHeads(head, calls, calls[t := calls[t].(state := Running)]);
      calls := calls[t := calls[t].(state := Running)];
    }

    /** The handler's result settles, and the call's promise with it. */
    method Settle(t: nat)
      requires Valid() && t < |calls| && calls[t].state.Running?
      modifies this
      ensures Valid()
      ensures head == old(head)
      ensures calls == old(calls)[t := old(calls)[t].(state := Settled(old(calls)[t].handler))]
    {
      SettleKeeps(calls, t);
      SameKeysKeepHeads(head, calls, calls[t := calls[t].(state := Settled(calls[t].handler))]);
      calls := calls[t := calls[t].(state := Settled(calls[t].handler))];
    }
  }

  /** `parallel` (src/concurrency.ts:32-34) awaits `map` and drops its
      values: it fulfils with nothing when `map` fulfils and rejects with
      `map`'s error. */
  function Parallel<R, E>(mapped: Outcome<seq<R>, E>): Outcome<(), E> {
    match mapped
    case Ok(_) => Ok(())
    case Err(e) => Err(e)
  }

  /** `parallel` without a concurrency, the environment settling the calls
      in `order`: it fulfils exactly when every handler call fulfils, and a
      rejection carries the error of a failing call. */
  lemma ParallelAllOutcome<T, R, E>(values: seq<T>, handler: (T, nat) -> ArrayMap.Invocation<R, E>, order: seq<nat>)
    requires ArrayMap.IsOrder(order, |values|)
    ensures Parallel(ArrayMap.MapAll(values, handler, order)).Ok?
        <==> forall k :: 0 <= k < |values| ==> handler(values[k], k).Fulfil?
    ensures Parallel(ArrayMap.MapAll(values, handler, order)).Err? ==>
      exists k :: 0 <= k < |values| && handler(values[k], k).Fails()
               && handler(values[k], k).error == Parallel(ArrayMap.MapAll(values, handler, order)).error
  {
    ArrayMap.MapAllOutcome(values, handler, order);
  }

  /** `parallel` with a concurrency: starts the bounded `map` and lets the
      environment settle every started call in any order. It fulfils when
      `concurrency` or the array leaves nothing to start, and otherwise
      exactly when every handler call fulfils; a rejection carries the error
      of a failed call. */
  method ParallelBounded<T, R, E>(values: seq<T>, handler: (T, nat) -> ArrayMap.Invocation<R, E>, concurrency: int)
    returns (r: Outcome<(), E>)
    ensures ArrayMap.Min(concurrency, |values|) <= 0 ==> r == Ok(())
    ensures (forall k :: 0 <= k < |values| ==> handler(values[k], k).Fulfil?) ==> r == Ok(())
    ensures ArrayMap.Min(concurrency, |values|) > 0 ==>
      ((exists k :: 0 <= k < |values| && handler(values[k], k).Fails()) ==> r.Err?)
    ensures r.Err? ==>
      exists k :: 0 <= k < |values| && handler(values[k], k).Fails() && handler(values[k], k).error == r.error
  {
    var run := new ArrayMap.Run(values, handler, concurrency);
    run.Begin();
    ArrayMap.Drain(run);
    r := Parallel(run.outcome.value);
  }
}
