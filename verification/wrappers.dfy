/** Failure-carrying values used in place of rejected promises, thrown errors and `undefined`. */
module Wrappers {

  datatype Option<+T> = None | Some(value: T)

  /** The outcome of a store call: the value it resolves with, or the reason it rejects with. */
  datatype Result<+T, +E> = Ok(value: T) | Err(error: E)
}
