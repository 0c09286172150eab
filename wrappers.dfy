/** Optional values, used for the fields of a reply that may be missing. */
module Wrappers {

  datatype Option<+T> = None | Some(value: T)
}
