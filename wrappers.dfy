/** Option and Result: `T | null` / `T | undefined` values and thrown errors of the game. */
module Wrappers {

  /** A value that may be absent (`null` or `undefined` in the game's code). */
  datatype Option<+T> = None | Some(value: T)

  /** The outcome of an operation that may throw. */
  datatype Result<+T, +E> = Success(value: T) | Failure(error: E)
}
