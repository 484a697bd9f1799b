/** The optional value used for fields that JavaScript leaves `undefined`. */
module Wrappers {
  datatype Option<+T> = None | Some(value: T)
}
