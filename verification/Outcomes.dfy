/** Optional values, results, and the three ways in which one remote call can end. */
module Outcomes {

  datatype Option<+T> = None | Some(value: T)

  datatype Result<+T, +E> = Ok(value: T) | Err(error: E)

  /** Delivered: the call takes effect and its reply arrives.
      Lost: it has no effect and the caller sees an error (also a call on a cancelled context).
      Unacknowledged: it takes effect, and the caller still sees an error. */
  datatype Fault = Delivered | Lost | Unacknowledged

  /** What the state and the caller see of a call that would move `before` to `after` and answer `reply`. */
  function Remote<S, T, E>(before: S, after: S, reply: Result<T, E>, failure: E, f: Fault): (S, Result<T, E>) {
    (if f.Lost? then before else after, if f.Delivered? then reply else Err(failure))
  }
}
