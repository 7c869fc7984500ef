/** Kotlin's nullable values (`String?`, `Int?`): `None` stands for `null`. */
module Options {

  datatype Option<+T> = None | Some(value: T)
}
