/** Optional values: the model's stand-in for Swift's `T?`. */
module Wrappers {

  datatype Option<+T> = None | Some(value: T)
}
