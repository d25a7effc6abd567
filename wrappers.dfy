/** Option, used where the JavaScript source has `null` or an empty query result. */
module Wrappers {
  datatype Option<+T> = None | Some(value: T)
}
