/** The optional value used where the store answers "no value" (`null`). */
module Wrappers {
  datatype Option<+T> = None | Some(value: T)
}
