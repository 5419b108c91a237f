/** Optional values: a request field or a stored value that may be missing. */
module Wrappers {

  datatype Option<+T> = None | Some(value: T)
}
