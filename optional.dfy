/** A value that may be absent: the model of a JavaScript `number | null` field. */
module Optional {
  datatype Option<+T> = None | Some(value: T)
}
