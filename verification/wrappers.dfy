/** The optional-value wrapper that Swift writes as `T?`. */
module Wrappers {

  datatype Option<+T> = None | Some(value: T) {

    /** `self.flatMap(f)` */
    function FlatMap<U>(f: T -> Option<U>): Option<U> {
      match this
      case Some(v) => f(v)
      case None => None
    }

    /** `self ?? default` */
    function GetOr(default: T): T {
      match this
      case Some(v) => v
      case None => default
    }
  }
}
