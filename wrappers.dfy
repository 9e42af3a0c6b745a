/** The optional value used throughout the model for Ruby's `nil`-or-value results. */
module Wrappers {

  datatype Option<+T> = None | Some(value: T)
}
