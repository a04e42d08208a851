/** Option type for values that may be absent (JavaScript's `undefined` / `null`). */
module Wrappers {
  datatype Option<+T> = None | Some(value: T)
}
