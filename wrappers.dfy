/** Swift optionals (`T?`) modelled as a value type. */
module Wrappers {

  datatype Option<+T> = None | Some(value: T) {

    /** `x ?? default` in Swift. */
    function GetOr(default: T): (r: T)
      ensures Some? ==> r == value
      ensures None? ==> r == default
    {
      match this
      case Some(v) => v
      case None => default
    }
  }
}
