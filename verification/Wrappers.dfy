/** Result types and arithmetic shared by the whole model. */
module Wrappers {

  /** A value that may be absent: a nil value, a missing map key, an omitted JSON field. */
  datatype Option<+T> = None | Some(value: T)

  /** A Go (value, error) pair, of which exactly one half is meaningful. */
  datatype Result<+T, +E> = Ok(value: T) | Err(error: E)

  function Min(a: int, b: int): int {
    if a <= b then a else b
  }
}
