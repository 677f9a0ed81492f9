/** The conventional Some/None datatype; `None` stands for a pandas NaN or a missing value. */
module Wrappers {
  datatype Option<+T> = None | Some(value: T)
}
