/** The optional value shared by the JavaScript and the Python models. */
module Wrappers {
  datatype Option<+T> = None | Some(value: T)
}
