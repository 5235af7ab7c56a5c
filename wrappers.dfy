/** Option for values that may be absent (`undefined`, `null`, "not found") and
    Result for operations that may throw. */
module Wrappers {
  datatype Option<+T> = None | Some(value: T)

  datatype Result<+T, +E> = Success(value: T) | Failure(error: E)
}
