/** Go's "value or nil" for errors and optional values. */
module Wrappers {

  datatype Option<+T> = None | Some(value: T)

}
