/** Failure-carrying values shared by the other modules. */
module Wrappers {

  datatype Option<+T> = None | Some(value: T)

  /** A Python call either returns a value or raises an exception, whose message is `error`. */
  datatype Result<+R> = Success(value: R) | Failure(error: string)
}
