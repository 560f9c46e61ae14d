/** Optional values and results with an error, as the Python code uses `None` and exceptions. */
module Wrappers {

  /** A value that may be absent: a missing document, a missing field, or Python's `None`. */
  datatype Option<+T> = None | Some(value: T)

  /** The outcome of an operation that raises an exception on some inputs. */
  datatype Result<+R, +E> = Success(value: R) | Failure(error: E)
}
