/** Optional values, raised exceptions and results of the operations that may raise. */
module Outcomes {

  datatype Option<T> = None | Some(value: T) {
    /** The value, or `default` when there is none (Python's `d.get(k, default)`). */
    function GetOr(default: T): T {
      match this
      case Some(v) => v
      case None => default
    }
  }

  /** An exception as the pipeline sees it: the aggregator treats `ValueError` (and its
      subclasses) differently from every other exception class. */
  datatype Raised =
    | ValueError(message: string)
    | OtherError(detail: string)

  /** The outcome of an operation that either returns a value or raises. */
  datatype Result<T> = Ok(value: T) | Err(error: Raised)
}
