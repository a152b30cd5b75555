/** Value-or-error and optional values shared by the other modules. */
module Wrappers {

  /** A value that may be missing; `None` stands for a nil pointer. */
  datatype Option<+T> = None | Some(value: T)

  /** Go's `(T, error)` return pair: a value, or the error that replaced it. */
  datatype Result<+T, +E> = Ok(value: T) | Err(error: E)
}
