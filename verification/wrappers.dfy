/** The optional values and exception-or-value results used throughout the
    model. */
module Wrappers {

  /** A value that may be absent: a missing JSON key, or a cell a parser
      could not read. */
  datatype Option<+T> = None | Some(value: T) {

    /** Python's `d.get(key, default)` on an optional lookup. */
    function GetOr(default: T): T {
      if Some? then value else default
    }
  }

  /** The outcome of a Python call: its value, or the exception it raised.
      `IsFailure`, `PropagateFailure` and `Extract` let `:-` re-raise. */
  datatype Result<+T, +E> = Success(value: T) | Failure(error: E) {

    predicate IsFailure() {
      Failure?
    }

    function PropagateFailure<U>(): Result<U, E>
      requires Failure?
    {
      Failure(error)
    }

    function Extract(): T
      requires Success?
    {
      value
    }
  }
}
