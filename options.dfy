/** The optional value used wherever the crawler has `null`, `undefined` or a failed
    `match`/`find`. */
module Options {

  datatype Option<+T> = None | Some(value: T)
}
