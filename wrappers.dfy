/** Optional values, standing for the nil-able pointers and `(value, ok)` pairs of the container code. */
module Wrappers {

  datatype Option<+T> = None | Some(value: T)
}
