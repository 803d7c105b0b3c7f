/** The optional value used wherever the plugin works with a possibly-NULL string. */
module Wrappers {

  /** `None` stands for a NULL pointer, `Some(v)` for a present value. */
  datatype Option<+T> = None | Some(value: T)
}
