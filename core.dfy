/** Option and Result: Go's `nil`-able values and `(value, error)` returns. */
module Core {

  datatype Option<+T> = None | Some(value: T)

  datatype Result<+T, +E> = Ok(value: T) | Err(error: E)
}
