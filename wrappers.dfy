/** The optional value the demos return where Python returns `None`. */
module Wrappers {
  datatype Option<T> = None | Some(value: T)
}
