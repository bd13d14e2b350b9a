/** The optional-value datatype used throughout the model. */
module Wrappers {

  /** Either nothing or one value of type T. */
  datatype Option<+T> = None | Some(value: T)
}
