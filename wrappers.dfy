/** The optional value used wherever the harness gets back either a value or `None`. */
module Wrappers {

  datatype Option<+T> = None | Some(value: T)
}
