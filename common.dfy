/** Small value wrappers shared by the other modules. */
module Common {

  /** A value that may be absent: a cell that did not parse as a number. */
  datatype Option<+T> = None | Some(value: T)

  /** The outcome of a run that can abort. */
  datatype Result<+T, +E> = Ok(value: T) | Err(error: E)

  function Abs(x: real): (r: real)
    ensures r >= 0.0 && (r == x || r == -x)
  {
    if x < 0.0 then -x else x
  }
}
