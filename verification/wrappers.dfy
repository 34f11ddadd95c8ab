/** Nullable references and fallible results, the two shapes Go expresses with
    nil pointers and panics. */
module Wrappers {

  /** A Go reference that may be nil. */
  datatype Option<+T> = None | Some(value: T)

  /** The outcome of an operation that either produces a value or aborts. */
  datatype Result<+R, +E> = Success(value: R) | Failure(error: E)
}
