/**
 * Small value types shared by both Lambda handlers: an optional value (a
 * dictionary key that may be absent), a result that either carries a value
 * or the exception that was raised instead, and the scalar values an event
 * payload may carry in the fields the handlers read.
 */
module Values {

  datatype Option<+T> = None | Some(value: T) {
    /** `d.get(key, default)` on a field modelled by this option. */
    function GetOr(default: T): T {
      match this
      case Some(v) => v
      case None => default
    }
  }

  datatype Result<+T, +E> = Ok(value: T) | Err(error: E) {
    predicate IsFailure() {
      Err?
    }

    function PropagateFailure<U>(): Result<U, E>
      requires Err?
    {
      Err(error)
    }

    function Extract(): T
      requires Ok?
    {
      value
    }
  }

  /** A JSON scalar found in an event: a string or an integer. */
  datatype Scalar = Str(text: string) | Int(number: int)
}
