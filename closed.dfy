/** The Closed state (closed.go): every request runs and is counted; a
    failure that makes `readyToTrip` true asks the breaker to move to Open;
    while a reset interval is configured, a ticker clears the counts. */
module StateClosed {
  import opened Types
  import opened Counters

  /** What one execution in Closed leaves behind: the tally, the reply to the
      caller, and whether the breaker must trip to Open. */
  datatype Verdict = Verdict(counts: Tally, reply: Outcome, trip: bool)

  /** One execution in Closed, on a copy of the tally: the request is counted
      before the work runs, then its outcome; a panic counts as a failure. */
  function Respond(readyToTrip: Tally -> bool, c: Tally, o: Outcome): (v: Verdict)
    ensures v.counts.requests == c.requests + 1
    ensures IsSuccess(o) ==> v.counts == Succeeded(Requested(c))
    ensures !IsSuccess(o) ==> v.counts == Failed(Requested(c))
    ensures v.trip <==> IsFailure(o) && readyToTrip(Failed(Requested(c)))
    ensures v.reply == if IsFailure(o) then Returned(Nil, o.err) else o
    ensures Sound(c) ==> Sound(v.counts)
    ensures Settled(c) ==> Settled(v.counts)
  {
    match o
    case Panicked(_) => Verdict(Failed(Requested(c)), o, false)
    case Returned(res, err) =>
      if err.Some? then
        var after := Failed(Requested(c));
        Verdict(after, Returned(Nil, err), readyToTrip(after))
      else
        Verdict(Succeeded(Requested(c)), Returned(res, None), false)
  }

  /** `closedState`: its counts and its ticker. */
  class ClosedState {
    const counts: Counts
    /** A ticker is armed and its goroutine running. */
    var ticking: bool

    constructor ()
      ensures fresh(counts) && counts.Snapshot() == Zero && !ticking
    {
      counts := new Counts();
      ticking := false;
    }

    /** Arms the ticker only when a positive interval is configured. */
    method OnEnter(interval: int)
      modifies this
      ensures ticking == (interval > 0)
    {
      if interval > 0 {
        ticking := true;
      } else {
        ticking := false;
      }
    }

    /** Clears the counts and stops the ticker. */
    method OnLeave()
      modifies this, counts
      ensures counts.Snapshot() == Zero && !ticking
    {
      counts.Clear();
      ticking := false;
    }

    function GetType(): StateType
    {
      Closed
    }

    /** Runs the request (its outcome `o`), counting it; `trip` asks the
        breaker to change to Open, after which the reply is returned. */
    method Execute(readyToTrip: Tally -> bool, o: Outcome) returns (reply: Outcome, trip: bool)
      modifies counts
      ensures var v := Respond(readyToTrip, old(counts.Snapshot()), o);
        counts.Snapshot() == v.counts && reply == v.reply && trip == v.trip
    {
      counts.OnRequest();
      match o
      case Panicked(_) =>
        counts.OnFailure();
        reply, trip := o, false;
      case Returned(res, err) =>
        if err.Some? {
          counts.OnFailure();
          trip := readyToTrip(counts.Snapshot());
          reply := Returned(Nil, err);
        } else {
          counts.OnSuccess();
          reply, trip := Returned(res, None), false;
        }
    }

    /** One tick of the ticker: if it is armed and the breaker is still
        Closed, the counts are cleared and `bump` asks for a new generation. */
    method OnTick(current: StateType) returns (bump: bool)
      modifies counts
      ensures bump == (ticking && current == Closed)
      ensures counts.Snapshot() == if bump then Zero else old(counts.Snapshot())
    {
      bump := ticking && current == Closed;
      if bump {
        counts.Clear();
      }
    }
  }
}
