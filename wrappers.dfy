// An optional value: a three.js attribute or uniform that may be absent (null).
module Wrappers {
  datatype Option<T> = None | Some(value: T)
}
