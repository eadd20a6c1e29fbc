/** Optional values, standing in for the nullable pointers of the boundary. */
module Wrappers {

  datatype Option<+T> = None | Some(value: T)

}
