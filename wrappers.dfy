/** Failure-carrying values shared by every module of the model. */
module Wrappers {

  /** An optional value; `None` also stands for Go's `nil` error. */
  datatype Option<+T> = None | Some(value: T)

  /** A value or an error, for the Go functions that return `(T, error)`. */
  datatype Result<+T, +E> = Success(value: T) | Failure(error: E)

  /** Go's built-in `error` interface, reduced to its message. */
  datatype Error = Error(message: string)

  /** Go's `int64` (and `int` on a 64-bit platform). */
  const MinInt64: int := -0x8000_0000_0000_0000
  const MaxInt64: int := 0x7fff_ffff_ffff_ffff

  newtype int64 = x: int | MinInt64 <= x <= MaxInt64
}
