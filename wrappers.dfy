/** Failure-carrying values used across the model in place of thrown exceptions
    and `undefined`. */
module Wrappers {

  /** `None` stands for a JavaScript `undefined` (a missing property, an empty `find`). */
  datatype Option<+T> = None | Some(value: T)

  /** A computation that either yields a value or throws the error `error`. */
  datatype Result<+T, +E> = Ok(value: T) | Err(error: E)
}
