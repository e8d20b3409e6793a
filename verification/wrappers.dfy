/** Optional values, standing for Java's `Optional` and for a reference that may be absent. */
module Wrappers {

  datatype Option<+T> = None | Some(value: T)
}
