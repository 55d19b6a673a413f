/** An optional value: the Python `None` versus a present value. */
module Wrappers {

  datatype Option<+T> = None | Some(value: T)

}
