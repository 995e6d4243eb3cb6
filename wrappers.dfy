/** An optional value, standing for Python's `None` beside a present value. */
module Wrappers {

  datatype Option<+T> = None | Some(value: T)
}
