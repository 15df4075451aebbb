/** Small value types shared by both services. */
module Wrappers {

  /** An optional value; a nil pointer or an absent entry is None. */
  datatype Option<+T> = None | Some(value: T)

  /** A Go `error` built by errors.New: all it carries is its message. */
  datatype Error = Error(message: string)
}
