/** A nullable reference or an operation that may fail to produce a value. */
module Wrappers {

  datatype Option<+T> = None | Some(value: T)
}
