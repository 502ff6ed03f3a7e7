/** The optional values of the model: a GPS fix that may be invalid, a parsed number that may be NaN. */
module Optional {

  datatype Option<T> = None | Some(value: T)
}
