/** Optional values, used for Go's nil pointers and for decoding that may fail. */
module Wrappers {

  datatype Option<+T> = None | Some(value: T)
}
