/** Optional values, standing for a configuration lookup that may find nothing. */
module Wrappers {

  datatype Option<+T> = None | Some(value: T)
}
