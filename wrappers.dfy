/** The optional value used where the page code has `null` or `undefined`. */
module Wrappers {

  datatype Option<+T> = None | Some(value: T)
}
