/** The optional value used wherever code.go returns a pointer that may be nil. */
module Wrappers {

  datatype Option<+T> = None | Some(value: T)
}
