/** Optional values: the model's stand-in for TypeScript's `T | undefined`
    and `T | null`. */
module Optional {

  datatype Option<+T> = None | Some(value: T) {

    /** The value, or `fallback` when there is none (the `??` operator). */
    function GetOr(fallback: T): T {
      match this
      case Some(v) => v
      case None => fallback
    }
  }
}
