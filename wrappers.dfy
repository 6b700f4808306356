/** The optional value used for results that the original code signals with
    a sentinel (a NULL pointer) or by leaving a macro undefined (`#error`). */
module Wrappers {

  datatype Option<+T> = None | Some(value: T)
}
