/** Optional values, used wherever the engine works with `undefined`. */
module Wrappers {

  datatype Option<T> = None | Some(value: T)
  {
    function UnwrapOr(default: T): (r: T)
      ensures this.Some? ==> r == value
      ensures this.None? ==> r == default
    {
      match this
      case Some(v) => v
      case None => default
    }
  }
}
