/** The absent-or-present value used across the model. */
module Optional {

  datatype Option<+T> = None | Some(value: T)
}
