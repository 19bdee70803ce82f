/** Optional values, used for arguments a C++ call may leave out. */
module Wrappers {
  datatype Option<+T> = None | Some(value: T)
}
