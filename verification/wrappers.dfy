/** The optional value used for the output name that the sweep carries from one title to the next. */
module Wrappers {

  datatype Option<+T> = None | Some(value: T)
}
