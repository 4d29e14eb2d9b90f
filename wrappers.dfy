/** Small value wrappers shared by every module of the model. */
module Wrappers {

  /** A value that may be absent: JavaScript's `undefined`/`null`. */
  datatype Option<+T> = None | Some(value: T) {
    function GetOr(default: T): T {
      match this
      case Some(v) => v
      case None => default
    }
  }

  /** The outcome of an operation that may throw. */
  datatype Result<+T, +E> = Ok(value: T) | Err(error: E)

  /** True when a JavaScript number held in an optional slot is truthy
      (present and non-zero; JSON cannot produce NaN). */
  predicate Truthy(n: Option<int>) {
    n.Some? && n.value != 0
  }
}
