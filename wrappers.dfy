/** Plain Option and Result wrappers shared by the client and the driver. */
module Wrappers {

  /** A value that may be absent: Go's nil pointer or nil error. */
  datatype Option<+T> = None | Some(value: T)

  /** Either a value or an error, for calls that return exactly one of them. */
  datatype Result<+T, +E> = Success(value: T) | Failure(error: E)
}
