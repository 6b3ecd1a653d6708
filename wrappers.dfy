/** Failure-carrying values used in place of the source's exceptions. */
module Wrappers {

  datatype Option<+T> = None | Some(value: T)

  /** The outcome of a call that returns nothing: it either completes or raises `Fail(message)`. */
  datatype Outcome = Pass | Fail(message: string)

  /** The outcome of a call that returns a value or raises `Err(message)`. */
  datatype Result<+T> = Ok(value: T) | Err(message: string) {
    function ToOutcome(): (o: Outcome)
      ensures o.Pass? <==> Ok?
      ensures Err? ==> o == Fail(message)
    {
      match this
      case Ok(_) => Pass
      case Err(m) => Fail(m)
    }
  }
}
