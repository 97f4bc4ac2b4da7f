/** Option and Result, the two failure-carrying datatypes the model uses for Go's
    nil interface values and for calls that panic. */
module Wrappers {

  /** A Go interface or pointer value that may be nil. */
  datatype Option<+T> = None | Some(value: T)

  /** The result of a Go call that either returns a value or panics with a message. */
  datatype Result<+R> = Success(value: R) | Failure(message: string)
}
