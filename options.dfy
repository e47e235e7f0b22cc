/** An optional value: a JSON field or a DOM lookup that may be absent. */
module Options {

  datatype Option<+T> = None | Some(value: T)
}
