/** The optional-value wrapper shared by all modules (Python's `None` or a value). */
module Wrappers {

  datatype Option<+T> = None | Some(value: T)
}
