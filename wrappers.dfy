/** Optional values: JavaScript's `null` for a value-typed piece of state. */
module Wrappers {
  datatype Option<+T> = None | Some(value: T)
}
