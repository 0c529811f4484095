/** The optional value used where the JavaScript code may yield `undefined`. */
module Wrappers {

  datatype Option<+T> = None | Some(value: T)
}
