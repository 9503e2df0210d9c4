/** Values shared by the root finder and the option model: Python's None,
    a result that is either a value or a raised exception, and the
    exceptions the calculator raises. */
module Common {

  /** A value or Python's None. */
  datatype Maybe<+T> = None | Some(value: T)

  /** The Python exceptions the calculator raises, with their messages. */
  datatype PyError =
    | NameError(msg: string)
    | KeyError(key: string)
    | TypeError(msg: string)
    | UnboundLocalError(name: string)

  /** Either a value or the exception raised instead of returning it. */
  datatype Result<+T> = Ok(value: T) | Err(error: PyError)

  function Abs(x: real): (r: real)
    ensures r >= 0.0 && (r == x || r == -x)
  {
    if x < 0.0 then -x else x
  }

  /** x lies in the closed interval spanned by a and b, whichever is larger. */
  predicate Within(x: real, a: real, b: real)
  {
    (a <= x <= b) || (b <= x <= a)
  }
}
