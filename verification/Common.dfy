/** Datatypes shared by every component of the model. */
module Common {

  /** A nullable column, or a lookup that may miss. */
  datatype Option<+T> = None | Some(value: T)

  /** `GREATEST(x, 0)`. */
  function Clamp(x: int): nat {
    if x < 0 then 0 else x
  }
}
