/** Option and Result datatypes for nil pointers and (value, error) pairs:
    a Go pointer that may be nil becomes an `Option`, and a `(value, error)`
    pair whose error is a plain message becomes a `Result`. */
module Wrappers {

  /** A value that may be absent (a nil pointer or a nil error). */
  datatype Option<+T> = None | Some(value: T)

  /** Either a value or an error message, as Go's `(T, error)` return pairs
      are used when exactly one of the two is meaningful. */
  datatype Result<+T> = Success(value: T) | Failure(error: string)

  function Min(a: int, b: int): (m: int)
    ensures m <= a && m <= b
    ensures m == a || m == b
  {
    if a <= b then a else b
  }

  function Max(a: int, b: int): (m: int)
    ensures a <= m && b <= m
    ensures m == a || m == b
  {
    if a <= b then b else a
  }
}
