/** Optional values, for the places where the program has a value or Python's None. */
module Wrappers {
  datatype Option<+T> = None | Some(value: T)
}
