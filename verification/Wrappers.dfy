/** Optional values, standing for the source's nil pointers. */
module Wrappers {

  datatype Option<+T> = None | Some(value: T)
}
