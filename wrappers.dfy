/** Optional values and error-carrying results, as the config loader uses them. */
module Wrappers {

  /** A value that may be absent: TypeScript's `T | undefined`. */
  datatype Option<+T> = None | Some(value: T) {

    /** JavaScript's nullish coalescing `this ?? other`: an absent value falls back,
        a present one is kept whatever it holds (an empty string included). */
    function OrElse(other: Option<T>): Option<T> {
      if Some? then this else other
    }

    /** The value, or `default` when absent. */
    function GetOr(default: T): T {
      if Some? then value else default
    }
  }

  /** The outcome of an operation that may throw. */
  datatype Result<+R, +E> = Ok(value: R) | Err(error: E)
}
