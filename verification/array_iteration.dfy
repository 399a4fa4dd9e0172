/** The sequential helpers of src/array.ts: `each`, `some`, `every` and
    `filter`. Each one awaits the handler on `values[0]`, `values[1]`, ... in
    turn and may stop early. The handler is an oracle from (value, index) to
    the outcome its returned promise settles with; a synchronous throw and a
    rejection are both awaited inside the async loop, so both are `Err`. */
module ArrayIteration {
  import opened Outcomes

  /** The JavaScript values a handler's promise can fulfil with, as far as
      the helpers look at them: `each` compares with `false` strictly, the
      others test truthiness. */
  datatype Value = Undefined | Null | Bool(b: bool) | Number(n: int) | Text(s: string)

  /** JavaScript truthiness of a value. */
  predicate Truthy(v: Value) {
    match v
    case Undefined => false
    case Null => false
    case Bool(b) => b
    case Number(n) => n != 0
    case Text(s) => s != ""
  }

  predicate Falsy(v: Value) {
    !Truthy(v)
  }

  /** `v === false`: only the boolean `false`, not `undefined` or `0`. */
  predicate StrictlyFalse(v: Value) {
    v == Bool(false)
  }

  /** `filter` never stops on a value; only an error ends it early. */
  predicate NeverStops(v: Value) {
    false
  }

  /** Where a left-to-right scan ends: it ran over every value, it stopped on
      the handler value at `index`, or the handler failed at `index`. */
  datatype Stop<+E> = Completed | StoppedAt(index: nat) | FailedAt(index: nat, error: E)

  /** The reference scan: the first index at or after `from` whose handler
      outcome ends the loop, an error or a value that `stops` accepts. */
  function FirstStop<T, E>(values: seq<T>, handler: (T, nat) -> Outcome<Value, E>,
                           stops: Value -> bool, from: nat): Stop<E>
    requires from <= |values|
    decreases |values| - from
  {
    if from == |values| then Completed
    else match handler(values[from], from)
      case Err(e) => FailedAt(from, e)
      case Ok(v) => if stops(v) then StoppedAt(from) else FirstStop(values, handler, stops, from + 1)
  }

  /** How many handler calls a scan that ends at `s` has made over `n` values. */
  function Calls<E>(s: Stop<E>, n: nat): nat {
    match s
    case Completed => n
    case StoppedAt(k) => k + 1
    case FailedAt(k, _) => k + 1
  }

  /** The handler outcome at `k` lets the loop go on to `k + 1`. */
  predicate Continues<T, E>(values: seq<T>, handler: (T, nat) -> Outcome<Value, E>,
                            stops: Value -> bool, k: nat)
    requires k < |values|
  {
    handler(values[k], k).Ok? && !stops(handler(values[k], k).value)
  }

  /** `FirstStop` finds the FIRST index that ends the scan: every index before
      it lets the loop continue, and the index it names does end it. */
  lemma {:induction false} FirstStopIsFirst<T, E>(values: seq<T>, handler: (T, nat) -> Outcome<Value, E>,
                                                  stops: Value -> bool, from: nat)
    requires from <= |values|
    ensures var s := FirstStop(values, handler, stops, from);
      && (s.Completed? ==> forall k :: from <= k < |values| ==> Continues(values, handler, stops, k))
      && (s.StoppedAt? ==>
            && from <= s.index < |values|
            && handler(values[s.index], s.index).Ok?
            && stops(handler(values[s.index], s.index).value)
            && forall k :: from <= k < s.index ==> Continues(values, handler, stops, k))
      && (s.FailedAt? ==>
            && from <= s.index < |values|
            && handler(values[s.index], s.index) == Err(s.error)
            && forall k :: from <= k < s.index ==> Continues(values, handler, stops, k))
    decreases |values| - from
  {
    if from < |values| && Continues(values, handler, stops, from) {
      FirstStopIsFirst(values, handler, stops, from + 1);
    }
  }

  /** `each` (src/array.ts:7-15): calls the handler on indices 0, 1, 2, ...
      in order, stops at the first value that is strictly `false` and answers
      `false`; `undefined` or any other value lets it go on. After visiting
      every value it answers `true`. A failing handler rejects the call.
      `invoked` lists the indices handed to the handler, in call order. */
  method Each<T, E>(values: seq<T>, handler: (T, nat) -> Outcome<Value, E>)
    returns (r: Outcome<bool, E>, invoked: seq<nat>)
    ensures var s := FirstStop(values, handler, StrictlyFalse, 0);
      && |invoked| == Calls(s, |values|)
      && (forall k :: 0 <= k < |invoked| ==> invoked[k] == k)
      && r == match s
              case Completed => Ok(true)
              case StoppedAt(_) => Ok(false)
              case FailedAt(_, e) => Err(e)
  {
    invoked := [];
    var i := 0;
    while i < |values|
      invariant 0 <= i <= |values|
      invariant |invoked| == i && forall k :: 0 <= k < i ==> invoked[k] == k
      invariant FirstStop(values, handler, StrictlyFalse, i) == FirstStop(values, handler, StrictlyFalse, 0)
    {
      var reply := handler(values[i], i);
      invoked := invoked + [i];
      if reply.Err? {
        r := Err(reply.error);
        return;
      }
      if StrictlyFalse(reply.value) {
        r := Ok(false);
        return;
      }
      i := i + 1;
    }
    r := Ok(true);
  }

  /** `some` (src/array.ts:19-27): answers `true` at the first truthy value
      without calling the handler on later indices, `false` when no value is
      truthy; a failing handler rejects the call. */
  method Some<T, E>(values: seq<T>, handler: (T, nat) -> Outcome<Value, E>)
    returns (r: Outcome<bool, E>, invoked: seq<nat>)
    ensures var s := FirstStop(values, handler, Truthy, 0);
      && |invoked| == Calls(s, |values|)
      && (forall k :: 0 <= k < |invoked| ==> invoked[k] == k)
      && r == match s
              case Completed => Ok(false)
              case StoppedAt(_) => Ok(true)
              case FailedAt(_, e) => Err(e)
  {
    invoked := [];
    var i := 0;
    while i < |values|
      invariant 0 <= i <= |values|
      invariant |invoked| == i && forall k :: 0 <= k < i ==> invoked[k] == k
      invariant FirstStop(values, handler, Truthy, i) == FirstStop(values, handler, Truthy, 0)
    {
      var reply := handler(values[i], i);
      invoked := invoked + [i];
      if reply.Err? {
        r := Err(reply.error);
        return;
      }
      if Truthy(reply.value) {
        r := Ok(true);
        return;
      }
      i := i + 1;
    }
    r := Ok(false);
  }

  /** `every` (src/array.ts:31-39): answers `false` at the first falsy value
      without calling the handler on later indices, `true` when every value
      is truthy; a failing handler rejects the call. */
  method Every<T, E>(values: seq<T>, handler: (T, nat) -> Outcome<Value, E>)
    returns (r: Outcome<bool, E>, invoked: seq<nat>)
    ensures var s := FirstStop(values, handler, Falsy, 0);
      && |invoked| == Calls(s, |values|)
      && (forall k :: 0 <= k < |invoked| ==> invoked[k] == k)
      && r == match s
              case Completed => Ok(true)
              case StoppedAt(_) => Ok(false)
              case FailedAt(_, e) => Err(e)
  {
    invoked := [];
    var i := 0;
    while i < |values|
      invariant 0 <= i <= |values|
      invariant |invoked| == i && forall k :: 0 <= k < i ==> invoked[k] == k
      invariant FirstStop(values, handler, Falsy, i) == FirstStop(values, handler, Falsy, 0)
    {
      var reply := handler(values[i], i);
      invoked := invoked + [i];
      if reply.Err? {
        r := Err(reply.error);
        return;
      }
      if !Truthy(reply.value) {
        r := Ok(false);
        return;
      }
      i := i + 1;
    }
    r := Ok(true);
  }

  /** The values among the first `n` whose handler outcome is a truthy value,
      in input order: what `filter` has pushed after `n` iterations. */
  function Kept<T, E>(values: seq<T>, handler: (T, nat) -> Outcome<Value, E>, n: nat): seq<T>
    requires n <= |values|
  {
    if n == 0 then []
    else
      var o := handler(values[n - 1], n - 1);
      Kept(values, handler, n - 1) + (if o.Ok? && Truthy(o.value) then [values[n - 1]] else [])
  }

  /** One unfolding of `Kept`, stated for a given right-hand side. */
  lemma KeptStep<T, E>(values: seq<T>, handler: (T, nat) -> Outcome<Value, E>, n: nat, next: seq<T>)
    requires 0 < n <= |values|
    requires var o := handler(values[n - 1], n - 1);
      next == Kept(values, handler, n - 1) + (if o.Ok? && Truthy(o.value) then [values[n - 1]] else [])
    ensures Kept(values, handler, n) == next
  {
  }

  /** `Kept` is exactly the in-order subsequence of the truthy-valued inputs:
      there is a strictly increasing list of positions `idx` such that the
      kept values are the inputs at those positions, and a position is in
      `idx` exactly when its handler outcome is truthy. Hence the result is
      never longer than the input. */
  lemma {:induction false} KeptPositions<T, E>(values: seq<T>, handler: (T, nat) -> Outcome<Value, E>, n: nat)
    returns (idx: seq<nat>)
    requires n <= |values|
    ensures |idx| == |Kept(values, handler, n)| <= n
    ensures forall j :: 0 <= j < |idx| ==> idx[j] < n && Kept(values, handler, n)[j] == values[idx[j]]
    ensures forall j, j' :: 0 <= j < j' < |idx| ==> idx[j] < idx[j']
    ensures forall k :: 0 <= k < n ==>
              (k in idx <==> handler(values[k], k).Ok? && Truthy(handler(values[k], k).value))
  {
    if n == 0 {
      idx := [];
      return;
    }
    var prev := KeptPositions(values, handler, n - 1);
    var before := Kept(values, handler, n - 1);
    var o := handler(values[n - 1], n - 1);
    if o.Ok? && Truthy(o.value) {
      idx := prev + [n - 1];
      KeptStep(values, handler, n, before + [values[n - 1]]);
    } else {
      idx := prev;
      KeptStep(values, handler, n, before);
    }
  }

  /** `filter` (src/array.ts:114-125): pushes, in index order, every value
      whose handler outcome is truthy, and answers the pushed list; the first
      failing handler rejects the call and no later index is visited. */
  method Filter<T, E>(values: seq<T>, handler: (T, nat) -> Outcome<Value, E>)
    returns (r: Outcome<seq<T>, E>, invoked: seq<nat>)
    ensures var s := FirstStop(values, handler, NeverStops, 0);
      && |invoked| == Calls(s, |values|)
      && (forall k :: 0 <= k < |invoked| ==> invoked[k] == k)
      && r == match s
              case FailedAt(_, e) => Err(e)
              case _ => Ok(Kept(values, handler, |values|))
  {
    var results := [];
    invoked := [];
    var i := 0;
    while i < |values|
      invariant 0 <= i <= |values|
      invariant |invoked| == i && forall k :: 0 <= k < i ==> invoked[k] == k
      invariant FirstStop(values, handler, NeverStops, i) == FirstStop(values, handler, NeverStops, 0)
      invariant results == Kept(values, handler, i)
    {
      var value := values[i];
      var reply := handler(value, i);
      invoked := invoked + [i];
      if reply.Err? {
        r := Err(reply.error);
        return;
      }
      if Truthy(reply.value) {
        results := results + [value];
      }
      i := i + 1;
    }
    r := Ok(results);
  }

  /** src/test/array/each-test.ts:19-34: the handler answers `undefined` at
      index 0 and `false` at index 1; `each` stops there with `false`, and
      index 2 is never visited. */
  method InterruptedByFalse() returns (completed: Outcome<bool, string>, invoked: seq<nat>)
    ensures completed == Ok(false) && invoked == [0, 1]
  {
    var values := [1, 2, 3];
    completed, invoked := Each(values, (value: int, index: nat) =>
                                         if index == 1 then Ok(Bool(false)) else Ok(Undefined));
    assert |invoked| == 2 && invoked[0] == 0 && invoked[1] == 1;
  }
}
