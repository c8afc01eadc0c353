/** Option and Result values: `undefined`-able fields and thrown errors of the TypeScript source. */
module Wrappers {

  datatype Option<+T> = None | Some(value: T)

  /** The value of a call that may throw; `Err` carries the thrown error's `message`. */
  datatype Result<+T, +E> = Ok(value: T) | Err(error: E)
}
