/** Small value types shared by every part of the wishlist model. */
module Common {

  /** A value that may be missing. Used where the program treats null and undefined alike. */
  datatype Option<+T> = None | Some(value: T) {
    function GetOr(default: T): T {
      match this
      case Some(v) => v
      case None => default
    }
  }

  /** A property of a loosely typed JavaScript object: undefined, null or a value.
      The two missing forms behave alike under `??` and `?.`, but they print
      differently ("undefined" and "null") when turned into a string. */
  datatype Field<+T> = Undefined | Null | Val(value: T) {
    /** `this ?? other` */
    function OrElse(other: Field<T>): (r: Field<T>)
      ensures r.Val? <==> Val? || other.Val?
      ensures Val? ==> r == this
      ensures !Val? ==> r == other
    {
      if Val? then this else other
    }

    /** `this ?? default` when the default is a plain value. */
    function OrDefault(default: T): (r: T)
      ensures Val? ==> r == value
      ensures !Val? ==> r == default
    {
      if Val? then value else default
    }
  }

  /** The interface languages. */
  datatype Lang = En | Ru | Uz

  /** Why a promise was rejected: an `Error` object (with its message) or any other value. */
  datatype Reason = ErrorObject(message: string) | OtherValue

  /** How an awaited callback settled. */
  datatype Settled = Fulfilled | Rejected(reason: Reason)
}
