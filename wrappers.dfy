/** Optional values, as the TypeScript source writes them with `| null` and `?:`. */
module Wrappers {

  /** A value that may be absent (`T | null` where null and undefined behave alike). */
  datatype Option<+T> = None | Some(value: T) {

    /** The value, or `default` when absent: the `??` operator. */
    function GetOr(default: T): T {
      match this
      case Some(v) => v
      case None => default
    }
  }

  /** Success, or failure with an error: the model of a call that may throw. */
  datatype Outcome<+E> = Pass | Fail(error: E)

  /** A property typed `?: T | null`, where undefined and null are told apart
      (a projection hands either one back unchanged). */
  datatype Nullish<+T> = Undefined | Null | Defined(value: T)
}
