/** The absence value JavaScript writes as `undefined` or `null`. */
module Optional {

  datatype Option<+T> = None | Some(value: T)

}
