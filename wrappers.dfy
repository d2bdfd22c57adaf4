/** The optional value used for parsed numeric fields; `None` stands for NaN. */
module Wrappers {
  datatype Option<+T> = None | Some(value: T)
}
