/** Option and Result, the two failure-carrying values the model uses in place of
    JavaScript's `null` and thrown `Error`s. */
module Wrappers {

  datatype Option<+T> = None | Some(value: T)

  /** A computation that either produced a value or threw an `Error` whose `message` is `error`. */
  datatype Result<+T> = Success(value: T) | Failure(error: string)
}
