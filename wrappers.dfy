/** An optional value, used across the model. */
module Wrappers {

  /** An optional value: `None` when absent. */
  datatype Option<+T> = None | Some(value: T)
}
