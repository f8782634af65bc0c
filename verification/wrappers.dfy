/** Optional values: JavaScript's `null`/`undefined` versus a present value. */
module Wrappers {

  /** A value that may be missing, where `null` and `undefined` behave alike. */
  datatype Option<+T> = None | Some(value: T) {

    /** The value, or `default` when absent (JavaScript's `x ?? default`). */
    function GetOr(default: T): T {
      match this
      case Some(v) => v
      case None => default
    }
  }

  /**
   * A value that may be `null` or `undefined`, kept apart because strict
   * equality (`===`) tells the two absences apart.
   */
  datatype Nullable<+T> = Null | Undefined | Present(value: T)

  /** Reading an optional property: a missing one is `undefined`. */
  function Read<T>(o: Option<T>): (v: Nullable<T>)
    ensures o.None? <==> v == Undefined
    ensures o.Some? ==> v == Present(o.value)
  {
    if o.Some? then Present(o.value) else Undefined
  }
}
