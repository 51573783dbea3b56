/** Option and Result, the two failure-carrying types the rest of the model uses. */
module Wrappers {

  /** A value that may be absent: Python's `None`, Go's nil pointer. */
  datatype Option<+T> = None | Some(value: T)

  /** The outcome of an operation that can fail: a value, or the error the source raises or returns. */
  datatype Result<+T, +E> = Ok(value: T) | Err(error: E)

  /** The elements of an option as a sequence of length 0 or 1. */
  function OptionToSeq<T>(o: Option<T>): seq<T>
  {
    match o
    case None => []
    case Some(v) => [v]
  }
}
