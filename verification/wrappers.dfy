/** The optional-value datatype used for attribute values and parser attributes. */
module Wrappers {

  /** `None` stands for Python's `None`. */
  datatype Option<+T> = None | Some(value: T)
}
