/** An optional value: how an omitted component prop (JavaScript `undefined`)
    is distinguished from a supplied one. */
module Options {

  datatype Option<+T> = None | Some(value: T)
}
