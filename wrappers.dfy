/** Optional values: a null smart pointer or COM pointer is `None`. */
module Wrappers {
  datatype Option<+T> = None | Some(value: T)
}
