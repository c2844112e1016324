/** Optional values, results and pass/fail outcomes, used in place of Python's
    `None` and of raised exceptions. */
module Wrappers {

  datatype Option<+T> = None | Some(value: T)

  /** The value of a computation that either returns `value` or raises `error`. */
  datatype Result<+R, +E> = Success(value: R) | Failure(error: E)

  /** The outcome of a check that returns nothing or raises `error`. */
  datatype Outcome<+E> = Pass | Fail(error: E)
}
