/** The conventional optional value, used for nullable columns, lookups and labels. */
module Options {
  datatype Option<+T> = None | Some(value: T)
}
