module Wrappers {
  /** A value that may be missing: null, a failed search, an error reply. */
  datatype Option<T> = None | Some(value: T)
}
