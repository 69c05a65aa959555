/** A value that may be absent: a missing header, a missing body field,
    or a link of an optional chain that is `undefined`. */
module Wrappers {

  datatype Option<+T> = None | Some(value: T)
}
