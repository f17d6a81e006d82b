/** Optional values and results with an error, the two shapes the notifier's promises resolve to. */
module Wrappers {

  datatype Option<+T> = None | Some(value: T)

  datatype Result<+T, +E> = Ok(value: T) | Err(error: E)
}
