// The two small result types every other module uses.
module Wrappers {
  datatype Option<+T> = None | Some(value: T)

  /** A value, or the reason the operation was refused. */
  datatype Result<+T, +E> = Success(value: T) | Failure(error: E)
}
