/** Option and Result datatypes shared by the other modules. */
module Wrappers {

  datatype Option<+T> = None | Some(value: T)

  /** A builder either returns a value or throws an `Error` whose message is `error`. */
  datatype Result<+R> = Success(value: R) | Failure(error: string)
}
