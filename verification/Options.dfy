module Options {
  /** A value that may be absent: Go's nil error, nil context or missing handle. */
  datatype Option<+T> = None | Some(value: T)
}
