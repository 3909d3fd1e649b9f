/** A value that may be absent: the model's stand-in for `number | null`
    and for a missing pathname. */
module Options {
  datatype Option<+T> = None | Some(value: T)
}
