/** Swift's optional `T?`: a value that may be missing. */
module Options {

  datatype Option<T> = None | Some(value: T) {

    /** The held value, or `fallback` when it is missing (Swift's `??`). */
    function ValueOr(fallback: T): T
    {
      if Some? then value else fallback
    }
  }
}
