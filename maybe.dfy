/** An optional value: stands for the `undefined` / `null` cases of the client code. */
module Maybe {

  datatype Option<T> = None | Some(value: T)
}
