/** Optional values and success/failure results shared by the service models. */
module Wrappers {

  /** A value that may be missing: a database lookup that found nothing, an SMS that was not sent. */
  datatype Option<+T> = None | Some(value: T)

  /** The outcome of a service call: its value, or the error it reported. */
  datatype Result<+T, +E> = Success(value: T) | Failure(error: E)
}
