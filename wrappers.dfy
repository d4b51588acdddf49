/** Optional values and pass/fail outcomes used across the model. */
module Wrappers {

  datatype Option<+T> = None | Some(value: T)

  /** The outcome of an operation that raises on failure in the original program. */
  datatype Outcome<+E> = Pass | Fail(error: E)
}
