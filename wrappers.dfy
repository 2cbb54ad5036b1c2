/** Option and Result values shared by the codec, the consumer and the producer. */
module Wrappers {

  /** A value that may be missing: Ruby's `nil` for an unset field or option. */
  datatype Option<+T> = None | Some(value: T) {
    /** The value when present, the default otherwise (Ruby's `x || default`). */
    function GetOr(default: T): (r: T)
    {
      match this
      case Some(v) => v
      case None => default
    }
  }

  /** The outcome of an operation that may fail with an error of type E. */
  datatype Result<+T, +E> = Ok(value: T) | Err(error: E)
}
