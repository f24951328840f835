/** An optional value: a React state hook that may still be `undefined`, a
    query parameter that may be absent, a lookup that may miss. */
module Options {

  datatype Option<T> = None | Some(value: T) {

    /** The value, or `default` when there is none (JavaScript's `x || default`
        for values that are never falsy). */
    function GetOr(default: T): T {
      match this
      case Some(v) => v
      case None => default
    }
  }
}
