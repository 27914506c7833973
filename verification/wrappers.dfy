/** An optional value, used wherever the source calls parseInt: None stands for NaN. */
module Wrappers {
  datatype Option<T> = None | Some(value: T)
}
