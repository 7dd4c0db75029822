/** The optional value used where the modelled code signals failure. */
module Wrappers {
  datatype Option<+T> = None | Some(value: T)
}
