/** The usual Some/None datatype, used for values Python represents with `None`. */
module Optional {

  datatype Option<+T> = None | Some(value: T)

}
