/** Option type used for nullable results (a null pointer is `None`). */
module Wrappers {

  datatype Option<+T> = None | Some(value: T)
}
