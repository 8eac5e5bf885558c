/** The optional value used for fields the source leaves `undefined`. */
module Wrappers {

  datatype Option<+T> = None | Some(value: T)
}
