/** The optional-value wrapper the model uses for operations that may refuse. */
module Wrappers {
  datatype Option<T> = None | Some(value: T)
}
