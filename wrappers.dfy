/** Optional values, for fields a response may leave out. */
module Wrappers {

  datatype Option<+T> = None | Some(value: T)
}
