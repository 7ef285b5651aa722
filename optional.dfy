/** An optional value: the model's stand-in for JavaScript's `null` and for a failed match. */
module Optional {
  datatype Option<+T> = None | Some(value: T)
}
