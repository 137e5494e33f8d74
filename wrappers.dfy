/** Small option type shared by the modules of this project. */
module Wrappers {

  /** A value that may be absent: a query parameter that was not given, a
      hostname that could not be parsed, a capture that threw. */
  datatype Option<+T> = None | Some(value: T)
}
