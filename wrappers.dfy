/** Optional values and results with an error side, used for the client's
    optional arguments and for outcomes that can fail. */
module Wrappers {

  datatype Option<+T> = None | Some(value: T)

  datatype Result<+T, +E> = Success(value: T) | Failure(error: E)
}
