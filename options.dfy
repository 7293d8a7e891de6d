/** The optional-value datatype used for the failure paths of the model. */
module Options {
  datatype Option<+T> = None | Some(value: T)
}
