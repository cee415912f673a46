/** Optional values, for partial operations such as JSON decoding. */
module Wrappers {

  datatype Option<+T> = None | Some(value: T)
}
