/** Optional values shared by every module of the model. */
module Wrappers {

  /** A value that may be absent: JavaScript's `null`/`undefined`, Swift's `nil`. */
  datatype Option<+T> = None | Some(value: T)
}
