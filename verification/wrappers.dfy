/** Wrappers used throughout the model: `Option` stands for a
    nullable .NET reference and `Result` for a call that either produces a value
    or throws before doing anything observable. */
module Wrappers {

  /** `None` is the .NET `null` reference; `Some(v)` a non-null one. */
  datatype Option<+T> = None | Some(value: T)

  /** `Failure(e)` is an exception thrown before any request reaches the connection. */
  datatype Result<+R, +E> = Success(value: R) | Failure(error: E)
}
