/** An optional value: the "comma ok" results of Go lookups and parsers. */
module Optional {

  datatype Option<+T> = None | Some(value: T)
}
