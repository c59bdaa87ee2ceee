/** Small failure-compatible wrapper used across the model: Go's `nil`-or-value and
    `error`-or-`nil` results are both written as an Option. */
module Wrappers {

  datatype Option<+T> = None | Some(value: T)
}
