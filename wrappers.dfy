/** Failure-carrying wrappers shared by the other modules. */
module Wrappers {

  /** `Some(v)` for a value that is present, `None` for JavaScript's `undefined`/`null`. */
  datatype Option<+T> = None | Some(value: T)

  /** The outcome of a step that either yields a value or short-circuits with an error. */
  datatype Result<+T, +E> = Ok(value: T) | Err(error: E)
}
