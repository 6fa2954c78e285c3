/** Small shared datatypes: Kotlin's nullable values and the outcome of a
    call that can throw `NumberFormatException`. */
module Base {

  /** A Kotlin `T?`: either absent (`null`) or a value. */
  datatype Option<+T> = None | Some(value: T) {

    /** The value, or `default` for `null` (Kotlin's `?:`). */
    function GetOr(default: T): (r: T)
      ensures Some? ==> r == value
      ensures None? ==> r == default
    {
      match this
      case Some(v) => v
      case None => default
    }
  }

  /** The result of a Kotlin expression that either returns a value or throws
      `NumberFormatException` while parsing `input`. */
  datatype Checked<+T> = Returns(value: T) | NumberFormatError(input: string)
}
