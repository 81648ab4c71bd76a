/** Failure-compatible wrappers and the exceptions the guard-rail code raises. */
module Results {

  /** The Python exceptions the modelled code can raise, with their messages. */
  datatype Error =
    | NotImplementedError(msg: string)
    | TypeError(msg: string)
    | AttributeError(msg: string)
    | KeyError(key: string)
    | ValueError(msg: string)
    | AssertionError(msg: string)
    | RefResolutionError(reference: string)
    | RuntimeError(msg: string)
    | IOError(msg: string)

  datatype Option<+T> = None | Some(value: T)

  /** A value or the exception that aborted the computation. */
  datatype Result<+T> = Ok(value: T) | Err(error: Error) {
    predicate IsFailure() { Err? }

    function PropagateFailure<U>(): Result<U>
      requires Err?
    {
      Err(error)
    }

    function Extract(): T
      requires Ok?
    {
      value
    }
  }

  /** What a state-changing method reports: it completed, or it raised. */
  datatype Outcome = Pass | Fail(error: Error)

  /** The outcome of a computation, forgetting its value. */
  function OutcomeOf<T>(r: Result<T>): Outcome
  {
    if r.Ok? then Pass else Fail(r.error)
  }
}
