/** Small value types shared by every module: optional values, results of
    operations that can raise, dictionary slots and the untyped values that a
    runtime configuration dictionary may hold. */
module Wrappers {

  /** A value that may be absent (Python's `None`). */
  datatype Option<+T> = None | Some(value: T) {
    function GetOr(default: T): T {
      match this
      case Some(v) => v
      case None => default
    }
  }

  /** The outcome of a Python call that either returns or raises; `Err`
      carries the exception's message, `str(e)`. */
  datatype Result<+T> = Ok(value: T) | Err(error: string)

  /** One key of a Python dictionary: absent, present with `None`, or present
      with a value. `dict.get(k)` cannot tell the first two apart,
      `dict.get(k, d)` can. */
  datatype Slot<+T> = Missing | Null | Has(value: T)

  /** A value of Python type `Any` as it can appear in a runtime
      configuration dictionary. */
  datatype Value = NullValue | Str(s: string) | Int(i: int)
}
