/** The usual Some/None wrapper, used for lookups that may miss and for parsers that may reject. */
module Options {
  datatype Option<+T> = None | Some(value: T)
}
