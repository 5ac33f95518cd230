/** The optional value used for lookups that may miss (JavaScript's `undefined` from `find`). */
module Wrappers {
  datatype Option<+T> = None | Some(value: T)
}
