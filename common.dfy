/** Small shared datatypes. */
module Common {

  /** An optional value: JavaScript's `undefined` becomes None. */
  datatype Option<+T> = None | Some(value: T)
}
