// Result and Option values used throughout the model for Go's (value, error)
// pairs, thrown TypeScript errors and optional JSON fields.
module Wrappers {
  datatype Option<T> = None | Some(value: T)

  /** A value or an error message. Go's `fmt.Errorf("ctx: %w", err)` becomes
      `Wrap("ctx", r)`; a fixed `errors.New(msg)` becomes `Err(msg)`. */
  datatype Result<T> = Ok(value: T) | Err(error: string)
  {
    predicate IsFailure() { Err? }

    function PropagateFailure<U>(): Result<U>
      requires Err?
    {
      Err(error)
    }

    function Extract(): T
      requires Ok?
    {
      value
    }
  }

  /** The message of an error wrapped with `%w` under a context. */
  function Wrapped(context: string, error: string): string
  {
    context + ": " + error
  }

  /** `fmt.Errorf(context + ": %w", err)` applied to a failed result; a success
      passes through unchanged. */
  function Wrap<T>(context: string, r: Result<T>): (w: Result<T>)
    ensures w.Ok? <==> r.Ok?
    ensures r.Ok? ==> w == r
    ensures r.Err? ==> w.error == Wrapped(context, r.error)
  {
    match r
    case Ok(_) => r
    case Err(e) => Err(Wrapped(context, e))
  }
}
