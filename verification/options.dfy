/** An optional value: the model's form of Go's empty string, nil pointer or missing key. */
module Options {
  datatype Option<+T> = None | Some(value: T)
}
