/** The optional value used by table lookups and non-blocking receives. */
module Wrappers {
  datatype Option<T> = None | Some(value: T)
}
