/** Rust's `Option`, used for `peek()`, `last()` and map lookups. */
module Options {
  datatype Option<T> = None | Some(value: T)
}
