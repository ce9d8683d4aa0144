/** The optional-value datatype used throughout the model for JavaScript
    values that may be `null` or `undefined`, and for numbers that may be `NaN`. */
module Wrappers {

  datatype Option<+T> = None | Some(value: T)
}
