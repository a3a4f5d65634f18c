/** A value that may be absent: Go's nil results and errors without detail. */
module Options {

  datatype Option<+T> = None | Some(value: T)
}
