/** Option, standing in for JavaScript's `null` and for DOM lookups that find nothing. */
module Wrappers {
  datatype Option<+T> = None | Some(value: T)
}
