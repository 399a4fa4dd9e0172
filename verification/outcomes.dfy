/** Values shared by every component: an optional value and the settled
    state of a promise (fulfilled with a value or rejected with an error). */
module Outcomes {

  /** `None` stands for JavaScript's `undefined` where the source uses it as
      "no value yet" (an unset option, a lock key without an entry). */
  datatype Option<+T> = None | Some(value: T)

  /** How a promise, or a handler call awaited inside an async function,
      settles: fulfilled with `value` or rejected with `error`. A synchronous
      throw inside an async function also ends as `Err`. */
  datatype Outcome<+T, +E> = Ok(value: T) | Err(error: E)

  /** A promise settles at most once: a later `resolve` or `reject` on a
      promise that has already settled has no effect. */
  function SettleOnce<X>(state: Option<X>, settlement: X): Option<X>
  {
    if state.None? then Some(settlement) else state
  }
}
