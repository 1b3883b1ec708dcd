/**
 * Option and Result, the two shapes every error path of the model takes.
 * A Go `(value, error)` pair whose value stays meaningful on error is
 * modelled by the `Reply` datatype of the module that needs it instead.
 */
module Wrappers {
  datatype Option<T> = None | Some(value: T)

  datatype Result<T, E> = Ok(value: T) | Err(error: E)
  {
    predicate IsFailure() { Err? }
  }
}
