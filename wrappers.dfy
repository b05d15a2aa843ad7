/** Optional values and failure-carrying results shared by the services and handlers of the model. */
module Wrappers {

  datatype Option<+T> = None | Some(value: T)

  /** The outcome of a service call: a value, or the error the Java code throws. */
  datatype Result<+R, +E> = Success(value: R) | Failure(error: E)
}
