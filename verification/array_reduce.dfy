/** `reduce` of src/array.ts:104-110. It hands an async callback to
    `Array.prototype.reduce`; each callback awaits the previous accumulator
    promise and then calls the transformer, so a failure at one index rejects
    every later accumulator without calling the transformer again. */
module ArrayReduce {
  import opened Outcomes

  /** Why a `reduce` call rejects: the transformer failed with `error`, or the
      call had no initial value and an empty array, on which
      `Array.prototype.reduce` throws a TypeError. */
  datatype ReduceError<+E> = EmptyWithoutInitial | Thrown(error: E)

  /** Left fold from index `from` with accumulator `acc`: the transformer sees
      (accumulator, value, index) for each index in increasing order, and the
      first failure is the result. */
  function Fold<T, A, E>(values: seq<T>, transformer: (A, T, nat) -> Outcome<A, E>, acc: A, from: nat): Outcome<A, E>
    requires from <= |values|
    decreases |values| - from
  {
    if from == |values| then Ok(acc)
    else match transformer(acc, values[from], from)
      case Err(e) => Err(e)
      case Ok(next) => Fold(values, transformer, next, from + 1)
  }

  /** `reduce(values, transformer, initial)`. */
  function Reduce<T, A, E>(values: seq<T>, transformer: (A, T, nat) -> Outcome<A, E>, initial: A): Outcome<A, E> {
    Fold(values, transformer, initial, 0)
  }

  /** `reduce(values, transformer)` with no initial value: the seed is
      `values[0]` and the transformer starts at index 1. */
  function ReduceWithoutInitial<T, E>(values: seq<T>, transformer: (T, T, nat) -> Outcome<T, E>): Outcome<T, ReduceError<E>> {
    if |values| == 0 then Err(EmptyWithoutInitial)
    else match Fold(values, transformer, values[0], 1)
      case Ok(acc) => Ok(acc)
      case Err(e) => Err(Thrown(e))
  }

  /** One more fold step on a settled accumulator: a rejected accumulator
      stays rejected, a fulfilled one is handed to the transformer. */
  function Then<T, A, E>(acc: Outcome<A, E>, transformer: (A, T, nat) -> Outcome<A, E>, x: T, index: nat): Outcome<A, E> {
    match acc
    case Err(e) => Err(e)
    case Ok(a) => transformer(a, x, index)
  }

  lemma {:induction false} FoldAppend<T, A, E>(values: seq<T>, x: T, transformer: (A, T, nat) -> Outcome<A, E>, acc: A, from: nat)
    requires from <= |values|
    ensures Fold(values + [x], transformer, acc, from) == Then(Fold(values, transformer, acc, from), transformer, x, |values|)
    decreases |values| - from
  {
    var vs := values + [x];
    if from < |values| {
      assert vs[from] == values[from];
      match transformer(acc, values[from], from)
      case Err(e) =>
      case Ok(next) => FoldAppend(values, x, transformer, next, from + 1);
    }
  }

  /** `reduce` is a LEFT fold in index order: reducing `values + [x]` is
      reducing `values` and then applying the transformer to that result,
      `x` and index `|values|`; a rejection before `x` skips the last call. */
  lemma ReduceAppend<T, A, E>(values: seq<T>, x: T, transformer: (A, T, nat) -> Outcome<A, E>, initial: A)
    ensures Reduce(values + [x], transformer, initial)
         == Then(Reduce(values, transformer, initial), transformer, x, |values|)
  {
    FoldAppend(values, x, transformer, initial, 0);
  }

  lemma {:induction false} FoldShift<T, E>(values: seq<T>, transformer: (T, T, nat) -> Outcome<T, E>, acc: T, from: nat)
    requires 1 <= from <= |values|
    ensures Fold(values, transformer, acc, from)
         == Fold(values[1..], (a: T, x: T, i: nat) => transformer(a, x, i + 1), acc, from - 1)
    decreases |values| - from
  {
    if from < |values| {
      assert values[1..][from - 1] == values[from];
      match transformer(acc, values[from], from)
      case Err(e) =>
      case Ok(next) => FoldShift(values, transformer, next, from + 1);
    }
  }

  /** Without an initial value, `reduce` is `reduce` over `values[1..]` seeded
      with `values[0]`, the transformer seeing the original indices, which
      start at 1; one value is answered without calling the transformer, and
      an empty array rejects with the TypeError. */
  lemma ReduceWithoutInitialSeed<T, E>(values: seq<T>, transformer: (T, T, nat) -> Outcome<T, E>)
    ensures |values| == 0 ==> ReduceWithoutInitial(values, transformer) == Err(EmptyWithoutInitial)
    ensures |values| > 0 ==>
      ReduceWithoutInitial(values, transformer)
        == match Reduce(values[1..], (a: T, x: T, i: nat) => transformer(a, x, i + 1), values[0])
           case Ok(acc) => Ok(acc)
           case Err(e) => Err(Thrown(e))
  {
    if |values| > 0 {
      FoldShift(values, transformer, values[0], 1);
    }
  }

  lemma {:induction false} FoldError<T, A, E>(values: seq<T>, transformer: (A, T, nat) -> Outcome<A, E>, acc: A, from: nat)
    requires from <= |values|
    ensures Fold(values, transformer, acc, from).Err? ==>
      exists a: A, k: nat :: from <= k < |values| && transformer(a, values[k], k) == Fold(values, transformer, acc, from)
    decreases |values| - from
  {
    if from < |values| {
      match transformer(acc, values[from], from)
      case Err(e) =>
      case Ok(next) => FoldError(values, transformer, next, from + 1);
    }
  }

  /** A rejected `reduce` rejects with an error the transformer itself
      produced for some accumulator and some index (src/array.ts:107-109:
      the awaited accumulator rethrows the earlier failure). */
  lemma ReduceRejectsWithTransformerError<T, A, E>(values: seq<T>, transformer: (A, T, nat) -> Outcome<A, E>, initial: A)
    ensures Reduce(values, transformer, initial).Err? ==>
      exists a: A, k: nat :: k < |values| && transformer(a, values[k], k) == Reduce(values, transformer, initial)
  {
    FoldError(values, transformer, initial, 0);
  }
}
