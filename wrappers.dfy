/** Option and Result values for the best-effort and failing steps of the tool. */
module Wrappers {

  /** A value that may be missing: an OS probe that failed, a flag that was not given. */
  datatype Option<+T> = None | Some(value: T)

  /** The outcome of a step that can abort the program. */
  datatype Result<+R, +E> = Success(value: R) | Failure(error: E)
}
