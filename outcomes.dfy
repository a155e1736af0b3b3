/** Success and failure values standing in for the Python exceptions the core raises. */
module Outcomes {

  /** The exception classes the modelled code can raise. */
  datatype Error =
    | KeyError
    | ValueError
    | TypeError
    | IndexError
    | RuntimeError
    | ZeroDivisionError
    | StopIteration
    | AttributeError
    | FileNotFoundError

  datatype Option<+T> = None | Some(value: T)

  /** A value, or the exception raised while computing it. */
  datatype Result<+T> = Ok(value: T) | Err(error: Error)

  /** How a procedure with no useful return value ended. */
  datatype Status = Done | Raised(error: Error)

  /** The zero- or one-element sequence holding the value of an option. */
  function OptionSeq<T>(o: Option<T>): (s: seq<T>)
    ensures |s| <= 1
    ensures o.Some? <==> |s| == 1
    ensures o.Some? ==> s[0] == o.value
  {
    if o.Some? then [o.value] else []
  }
}
