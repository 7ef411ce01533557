/** The stock optional value, used where the source returns a zero value with `false`. */
module Wrappers {
  datatype Option<+T> = None | Some(value: T)
}
