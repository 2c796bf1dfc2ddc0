/** The optional value shared by the other modules: a JavaScript `undefined`
    is `None`. */
module Wrappers {
  datatype Option<T> = None | Some(value: T)
}
