/** A nullable reference or an optional reading, as a value. */
module Wrappers {

  datatype Option<+T> = None | Some(value: T)
}
