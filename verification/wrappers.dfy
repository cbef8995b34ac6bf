/** Optional values and results with an error alternative, used for Go's
 *  `nil`-or-value returns throughout the model. */
module Wrappers {

  /** A value that may be absent: a Go `error` that may be `nil`, a map
   *  entry that may be missing. */
  datatype Option<+T> = None | Some(value: T)

  /** Either a computed value or the reason it could not be computed. */
  datatype Result<+R, +E> = Success(value: R) | Failure(error: E)
}
