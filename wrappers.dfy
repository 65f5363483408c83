/** Nullable values and results. `Option<Error>` stands for Go's `error`
    (None is nil); `Option<T>` for a nil-able reference or function value. */
module Wrappers {
  datatype Option<+T> = None | Some(value: T)

  datatype Result<+T, +E> = Success(value: T) | Failure(error: E)
}
