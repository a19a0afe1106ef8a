/** The optional value used wherever horror.py passes `None`. */
module Wrappers {
  datatype Option<T> = None | Some(value: T)
}
