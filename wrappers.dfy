/** Optional values and fallible results shared by every module of the model. */
module Wrappers {
  /** A Kotlin nullable value (`T?`), a Java reference that may be null, a TypeScript `T | undefined`. */
  datatype Option<T> = None | Some(value: T)
  {
    function GetOrElse(default: T): T
    {
      if this.Some? then value else default
    }
  }

  /** The outcome of an operation that either produces a value or fails (an exception in the source). */
  datatype Result<T, E> = Success(value: T) | Failure(error: E)
}
