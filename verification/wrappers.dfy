/** Wrappers used across the model: an optional value (a Java reference
    that may be null) and a result that is either a value or the error the
    Java code would have thrown. */
module Wrappers {

  datatype Option<+T> = None | Some(value: T)

  datatype Result<+R, +E> = Success(value: R) | Failure(error: E)
}
