/** An optional value: Go's nil interfaces and nil errors are None. */
module Wrappers {
  datatype Option<T> = None | Some(value: T)
}
