/** An optional value: Go's nil pointer or nil error on one side, a value on the other. */
module Maybe {

  datatype Option<+T> = None | Some(value: T)
}
