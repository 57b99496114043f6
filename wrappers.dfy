/** The Some/None datatype, used for Python's `None` (an absent host header,
    a module global that has not been set yet). */
module Wrappers {

  datatype Option<+T> = None | Some(value: T)
}
