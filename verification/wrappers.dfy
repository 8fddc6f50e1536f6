/** Optional values and fallible results, used for Python's `None` and for
    HTTP errors raised by the operator console. */
module Wrappers {

  /** Python's `Optional[T]`: either `None` or a present value. */
  datatype Option<+T> = None | Some(value: T) {

    /** The value, or `default` when absent (Python's `x if x is not None else default`). */
    function GetOr(default: T): T {
      match this
      case Some(v) => v
      case None => default
    }
  }

  /** A computation that either yields a value or fails with an error. */
  datatype Result<+R, +E> = Ok(value: R) | Err(error: E)

  /** Python truthiness of an optional string: present and not empty. */
  predicate TruthyStr(v: Option<string>) {
    v.Some? && v.value != ""
  }

  /** Python truthiness of an optional integer: present and not zero. */
  predicate TruthyInt(v: Option<int>) {
    v.Some? && v.value != 0
  }
}
