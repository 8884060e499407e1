/** The optional value shared by the other modules: a missing flag, no best genome. */
module Wrappers {
  datatype Option<T> = None | Some(value: T)
}
