/** A missing-or-present value, standing for an argument a JavaScript caller may leave undefined. */
module Wrappers {
  datatype Option<+T> = None | Some(value: T)
}
