/** Swift's optional type (`T?`), with its nil-coalescing operator `??`. */
module Optional {

  datatype Option<+T> = None | Some(value: T) {

    /** `this ?? default`: the wrapped value, or `default` when nil. */
    function GetOr(default: T): T
    {
      match this
      case Some(v) => v
      case None => default
    }
  }
}
