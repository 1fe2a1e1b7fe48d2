/** An optional value: `None` plays the part of a null pointer. */
module Maybe {
  datatype Option<+T> = None | Some(value: T)
}
