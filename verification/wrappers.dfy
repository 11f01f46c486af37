/** Failure-carrying values shared by every module.

    Go functions of the provider return `(*T, error)`: a nil pointer with a nil
    error means "no such row", a non-nil error carries the engine's text.  Here
    that shape is `Result<Option<T>>`.
 */
module Wrappers {

  /** A value that may be absent (a nil pointer in Go). */
  datatype Option<+T> = None | Some(value: T) {

    /** The carried value, or `default` when absent. */
    function GetOr(default: T): T {
      match this
      case Some(v) => v
      case None => default
    }
  }

  /** Either a value or an error message (Go's `error`). */
  datatype Result<+T> = Ok(value: T) | Err(msg: string) {

    predicate IsFailure() {
      Err?
    }

    function PropagateFailure<U>(): Result<U>
      requires Err?
    {
      Err(msg)
    }

    function Extract(): T
      requires Ok?
    {
      value
    }
  }

  /** Go's `fmt.Errorf("<context>: %w", err)`: prefix an error with its context. */
  function Wrap<T>(context: string, r: Result<T>): (w: Result<T>)
    ensures w.Ok? <==> r.Ok?
    ensures r.Ok? ==> w == r
    ensures r.Err? ==> w.msg == context + ": " + r.msg
  {
    match r
    case Ok(_) => r
    case Err(m) => Err(context + ": " + m)
  }
}
