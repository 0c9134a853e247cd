/** The optional value used where the source produces `NaN` or `undefined`. */
module Wrappers {

  datatype Option<+T> = None | Some(value: T)
}
