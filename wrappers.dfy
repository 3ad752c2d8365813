/** Plain `Option` and `Result` wrappers for the values the Swift code either
    returns or throws. */
module Wrappers {

  datatype Option<+T> = None | Some(value: T)

  /** The outcome of a Swift `throws` function: the returned value, or the
      error that was thrown. */
  datatype Result<+T, +E> = Success(value: T) | Failure(error: E)
}
