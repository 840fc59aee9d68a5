/** The usual optional-value datatype, standing for Python's `Optional[...]`. */
module Wrappers {

  datatype Option<+T> = None | Some(value: T)
}
