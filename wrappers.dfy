/** Option and Result values, and the (value, error) pair a Go function returns. */
module Wrappers {

  datatype Option<+T> = None | Some(value: T)

  datatype Result<+T, +E> = Ok(value: T) | Err(error: E)

  /** What a Go function `func f(...) (T, error)` returns: the value is
      returned on failure too (the empty string, a zero struct, a default). */
  datatype Returned<+T> = Returned(value: T, err: Option<string>) {
    predicate Success() { err.None? }
  }
}
