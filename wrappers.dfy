/** Optional values and success-or-error outcomes shared by every module. */
module Wrappers {
  /** A value that may be absent (Python `None`). */
  datatype Option<T> = None | Some(value: T)
  {
    /** `self or default` for values whose only falsy form is `None`. */
    function GetOr(default: T): (r: T)
      ensures Some? ==> r == value
      ensures None? ==> r == default
    {
      match this
      case None => default
      case Some(v) => v
    }
  }

  /**
   * `x or d` for an optional integer, as both the chunker's settings and the
   * providers' token limits use it: `None` and 0 fall back to `d`.
   */
  function OrInt(x: Option<int>, d: int): (r: int)
    ensures x.Some? && x.value != 0 ==> r == x.value
    ensures x.None? || x.value == 0 ==> r == d
  {
    if x.Some? && x.value != 0 then x.value else d
  }

  /** The result of an operation that either returns a value or raises with a message. */
  datatype Outcome<T> = Success(value: T) | Failure(error: string)
}
