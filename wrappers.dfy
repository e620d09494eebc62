/** Optional values: a local-storage key that may be absent, a user who may be logged out. */
module Wrappers {

  datatype Option<+T> = None | Some(value: T)
}
