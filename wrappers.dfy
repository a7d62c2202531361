/** Option and Result, shared by the Slowmode and PostEmbed models. */
module Wrappers {

  /** A value that may be absent: TypeScript's `T | null` / `T | undefined`. */
  datatype Option<+T> = None | Some(value: T)

  /** The outcome of an operation that may fail with an error value (a thrown exception). */
  datatype Result<+T, +E> = Ok(value: T) | Err(error: E)
}
