/** The optional value used for lookups that can miss and fields that can be absent. */
module Options {

  datatype Option<+T> = None | Some(value: T)
}
