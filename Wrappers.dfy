/** The optional value used where the source returns a null pointer or an empty std::optional. */
module Wrappers {
  datatype Option<+T> = None | Some(value: T)
}
