/** Failure-carrying result type used for Go's `(value, error)` returns. */
module Wrappers {

  /** `Success` holds the value returned next to a nil error; `Failure` holds the
      error returned next to a nil value, so no partial value can leak out. */
  datatype Result<+R, +E> = Success(value: R) | Failure(error: E)
}
