/** The optional value used wherever JavaScript code may produce "nothing". */
module Wrappers {

  datatype Option<+T> = None | Some(value: T)
}
