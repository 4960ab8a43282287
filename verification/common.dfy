/** Small failure-carrying datatypes shared by the whole model. */
module Common {

  /** A value that may be absent: JavaScript's `null` / `undefined`. */
  datatype Option<+T> = None | Some(value: T)
  {
    /** The value, or `default` when absent (the `x ?? default` idiom). */
    function GetOr(default: T): T
    {
      match this
      case Some(v) => v
      case None => default
    }
  }

  /** The outcome of an operation that either settles with a value or fails. */
  datatype Result<+R, +E> = Success(value: R) | Failure(error: E)
}
