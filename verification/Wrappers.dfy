/** The optional value used wherever the program has a zero value or a missing map entry. */
module Wrappers {

  datatype Option<+T> = None | Some(value: T)
}
