/** Small value wrappers shared by every module. */
module Wrappers {
  datatype Option<T> = None | Some(value: T)

  datatype Result<T, E> = Ok(value: T) | Err(error: E)

  /** A JavaScript slot that is `undefined`, `null`, or holds a value. */
  datatype Nullable<T> = Undef | Null | Val(value: T)
  {
    /** JavaScript `x === null || x === undefined`. */
    predicate IsNullish() { !Val? }
  }

  /** A JavaScript number restricted to the integers it takes in this program. */
  datatype Num = NaN | Fin(n: int)
}
