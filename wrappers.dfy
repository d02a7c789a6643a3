/** An optional value: a key of a request body that may be absent. */
module Wrappers {

  datatype Option<+T> = None | Some(value: T)
}
