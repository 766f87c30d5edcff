/** Optional values and fallible results: JavaScript's `undefined`/`null` and rejected
    promises, made explicit. */
module Wrappers {

  /** A value that may be absent (`undefined` or `null` in the source). */
  datatype Option<+T> = None | Some(value: T) {

    /** The value, or `default` when absent (the source's `x || default`). */
    function GetOr(default: T): T {
      match this
      case Some(v) => v
      case None => default
    }

    /** The value as a sequence of zero or one elements. */
    function ToSeq(): (s: seq<T>)
      ensures |s| <= 1
      ensures Some? ==> s == [value]
      ensures None? ==> s == []
    {
      match this
      case Some(v) => [v]
      case None => []
    }
  }

  /** The outcome of an asynchronous call: a resolved value or a rejection. */
  datatype Result<+T, +E> = Ok(value: T) | Err(error: E)
}
