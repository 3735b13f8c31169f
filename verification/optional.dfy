/** The Some/None datatype used wherever the source has a nullable value
    (`null`, `undefined`, a missing query parameter). */
module Optional {

  datatype Option<+T> = None | Some(value: T)
}
