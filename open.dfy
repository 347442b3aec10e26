/** The Open state (open.go): every request is rejected with the sentinel
    error without running; a timer moves the breaker to HalfOpen. */
module StateOpen {
  import opened Types
  import opened Counters

  /** `openState`: its counts, never updated while Open, and its timer. */
  class OpenState {
    const counts: Counts
    /** The timeout timer is armed and its goroutine running. */
    var timing: bool

    constructor ()
      ensures fresh(counts) && counts.Snapshot() == Zero && !timing
    {
      counts := new Counts();
      timing := false;
    }

    /** Arms the timeout timer. */
    method OnEnter()
      modifies this
      ensures timing
    {
      timing := true;
    }

    /** Clears the counts and stops the timer. */
    method OnLeave()
      modifies this, counts
      ensures counts.Snapshot() == Zero && !timing
    {
      counts.Clear();
      timing := false;
    }

    function GetType(): StateType
    {
      Open
    }

    /** Rejects the request without running it; nothing changes. For work
        that does not itself return `ErrOpenState`, the reply differs from
        anything the work could have produced. */
    method Execute(o: Outcome) returns (reply: Outcome)
      ensures reply == Returned(Nil, Some(ErrOpenState))
      ensures FromWork(o) ==> reply != o
    {
      reply := Rejected;
    }

    /** The timer fires: the breaker must move to HalfOpen exactly when the
        timer is armed and the breaker is still Open. */
    method OnTimeout(current: StateType) returns (fire: bool)
      ensures fire <==> timing && current == Open
    {
      fire := timing && current == Open;
    }
  }
}
