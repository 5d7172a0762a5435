/** The usual optional value, for inputs that are refused and answers that may be absent. */
module Wrappers {
  datatype Option<T> = None | Some(value: T)
}
