/**
 * A value that may be absent: JavaScript's `null` versus an object, a key
 * missing from an object versus its value, or no timer pending versus one.
 */
module Wrappers {
  datatype Option<+T> = None | Some(value: T)
}
