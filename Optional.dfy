/** The usual optional value, used for absent keys, failed parses and missing files. */
module Optional {
  datatype Option<T> = None | Some(value: T)
}
