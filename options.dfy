/** Rust's `Option<T>`, used for every optional field of the model. */
module Options {

  datatype Option<+T> = None | Some(value: T)
}
