/** Failure-compatible wrappers: Swift's `Optional` and `Result`. */
module Wrappers {

  /** Swift's `Optional`: `nil` is `None`. */
  datatype Option<+T> = None | Some(value: T)

  /** Swift's `Result<Success, Failure>`. */
  datatype Result<+R, +E> = Success(value: R) | Failure(error: E)
}
