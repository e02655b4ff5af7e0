/** A result type, used where the source raises an error instead of
    returning a value. */
module Wrappers {

  datatype Result<+R, +E> = Success(value: R) | Failure(error: E)
}
