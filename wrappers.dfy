/** Optional values, standing in for Go's nil-able pointers and `error` results. */
module Wrappers {

  /** `None` plays the role of Go's `nil`. */
  datatype Option<+T> = None | Some(value: T)
}
