/** Option and Result, the shapes of "maybe absent" and "may fail" used throughout the model. */
module Wrappers {

  /** A value that may be absent: Ruby's `nil` versus a present object. */
  datatype Option<+T> = None | Some(value: T) {

    /** The value, or `default` when absent. */
    function GetOr(default: T): T {
      match this
      case Some(v) => v
      case None => default
    }

    /** Ruby's `a || b` on a possibly-nil `a`. */
    function Or(other: Option<T>): Option<T> {
      if Some? then this else other
    }
  }

  /** The outcome of an operation that may raise. */
  datatype Result<+T, +E> = Ok(value: T) | Err(error: E)
}
