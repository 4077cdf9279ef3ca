/** An optional value: what the source writes as a nil pointer or a missing map entry. */
module Options {
  datatype Option<+T> = None | Some(value: T)
}
