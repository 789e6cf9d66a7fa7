/** The optional value every module of the model uses. */
module Wrappers {

  datatype Option<T> = None | Some(value: T)
}
