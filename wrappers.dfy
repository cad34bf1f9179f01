/** Optional values and the (data, error) replies of the remote data service. */
module Wrappers {

  /** A JavaScript value that may be `null` or `undefined`. */
  datatype Option<+T> = None | Some(value: T)

  /** What a call to the remote data service hands back: its data, or its error. */
  datatype Reply<+T> = Ok(value: T) | Err(message: string)
}
