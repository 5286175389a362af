/** The usual optional value, used for the answers of the engine's queries. */
module Optional {
  datatype Option<T> = None | Some(value: T)
}
