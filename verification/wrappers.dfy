/** The optional value used where the script has `undefined` or a missing property. */
module Wrappers {

  datatype Option<+T> = None | Some(value: T)
}
