/** The optional and result types every asynchronous outcome of the feed client is carried in. */
module Wrappers {

  /** Swift's `Optional`. */
  datatype Option<+T> = None | Some(value: T)

  /** Swift's `Result<Success, Failure>`: exactly one of a value or an error. */
  datatype Result<+T, +E> = Success(value: T) | Failure(error: E)
}
