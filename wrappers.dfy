/** Small failure-carrying datatypes shared by the other modules. */
module Wrappers {

  /** A value that may be absent; None stands for a .NET null. */
  datatype Option<+T> = None | Some(value: T)

  /** The outcome of an operation that may throw: Failure carries the exception. */
  datatype Result<+R, +E> = Success(value: R) | Failure(error: E)
}
