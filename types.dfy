/** Values shared by every part of the breaker: the three state types, the
    result and error values a request produces, and one call of the
    state-change notifier. */
module Types {

  datatype Option<T> = None | Some(value: T)

  /** The three operating states of a breaker. */
  datatype StateType = Closed | HalfOpen | Open

  /** What a request returns as its result: Go's `interface{}`, possibly nil. */
  datatype Value = Nil | Data(payload: int)

  /** An error value: the breaker's own "circuit breaker is open" sentinel,
      or an error produced by the protected work. */
  datatype Error = ErrOpenState | WorkError(code: int)

  /** How a call ends: it returns a result and an error (nil when absent),
      or it panics with a payload. The same type describes what the work did
      and what the breaker hands back to its caller; a `Panicked` reply is
      the breaker re-raising the work's panic. */
  datatype Outcome = Returned(res: Value, err: Option<Error>) | Panicked(payload: int)

  /** The reply of a rejected call: no result, the sentinel error. */
  const Rejected: Outcome := Returned(Nil, Some(ErrOpenState))

  /** One call of the state-change notifier: breaker name, old and new state. */
  datatype Notice = Notice(name: string, from: StateType, to: StateType)

  /** The work never returns the breaker's own sentinel error. */
  predicate FromWork(o: Outcome)
  {
    !(o.Returned? && o.err == Some(ErrOpenState))
  }

  /** The work returned normally with a non-nil error. */
  predicate IsFailure(o: Outcome)
  {
    o.Returned? && o.err.Some?
  }

  /** The work returned normally with a nil error. */
  predicate IsSuccess(o: Outcome)
  {
    o.Returned? && o.err.None?
  }
}
