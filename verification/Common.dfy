/** Shared by all parts of the model. */
module Common {
  datatype Option<+T> = None | Some(value: T)
}
