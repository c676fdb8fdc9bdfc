/** The optional-value datatype used across the model. `None` stands for a
    JavaScript property that is missing, or a value that is `undefined`. */
module Wrappers {

  datatype Option<+T> = None | Some(value: T)
}
