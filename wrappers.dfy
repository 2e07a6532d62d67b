/** A value that may be absent, as a JSON field that the server may leave out. */
module Wrappers {

  datatype Option<+T> = None | Some(value: T)
}
