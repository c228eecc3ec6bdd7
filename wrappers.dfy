/** The optional-value wrapper used throughout the model: Python's `None` is `None`,
    any other value `v` is `Some(v)`. */
module Wrappers {

  datatype Option<+T> = None | Some(value: T)
}
