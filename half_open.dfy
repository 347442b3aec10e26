/** The HalfOpen state (half_open.go): every probe request runs; the
    generation it started in is recorded, and its outcome is applied only if
    the breaker is still in that generation when the request returns. A
    failure reopens the breaker; enough consecutive successes close it. */
module StateHalfOpen {
  import opened Types
  import opened Counters

  /** The token a probe carries from start to finish: the generation read
      before the request ran. */
  datatype Probe = Probe(generation: nat)

  /** What the end of a probe leaves behind: the tally, the reply to the
      caller, and the state the breaker must change to, if any. */
  datatype Verdict = Verdict(counts: Tally, reply: Outcome, next: Option<StateType>)

  /** The end of a probe that started with token `p`, on a copy of the tally,
      when the breaker is at generation `current`. A panic is counted as a
      failure whatever the generation; any other outcome of a superseded
      generation is handed back untouched. */
  function Settle(maxRequests: nat, current: nat, p: Probe, c: Tally, o: Outcome): (v: Verdict)
    ensures o.Panicked? ==> v == Verdict(Failed(c), o, None)
    ensures o.Returned? && p.generation != current ==> v == Verdict(c, o, None)
    ensures o.Returned? && p.generation == current ==>
      v.counts == if IsFailure(o) then Failed(c) else Succeeded(c)
    ensures v.next == Some(Open) <==> p.generation == current && IsFailure(o)
    ensures v.next == Some(Closed) <==>
      p.generation == current && IsSuccess(o) && c.consecutiveSuccesses + 1 >= maxRequests
    ensures v.next != Some(HalfOpen)
    ensures v.reply == if p.generation == current && IsFailure(o) then Returned(Nil, o.err) else o
    ensures Sound(c) ==> Sound(v.counts)
  {
    match o
    case Panicked(_) => Verdict(Failed(c), o, None)
    case Returned(res, err) =>
      if p.generation != current then
        Verdict(c, o, None)
      else if err.Some? then
        Verdict(Failed(c), Returned(Nil, err), Some(Open))
      else
        var after := Succeeded(c);
        Verdict(after, Returned(res, None),
                if after.consecutiveSuccesses >= maxRequests then Some(Closed) else None)
  }

  /** `halfOpenState`: its counts; it owns no timer. */
  class HalfOpenState {
    const counts: Counts

    constructor ()
      ensures fresh(counts) && counts.Snapshot() == Zero
    {
      counts := new Counts();
    }

    /** Nothing to arm. */
    method OnEnter()
    {
    }

    /** Clears the counts. */
    method OnLeave()
      modifies counts
      ensures counts.Snapshot() == Zero
    {
      counts.Clear();
    }

    function GetType(): StateType
    {
      HalfOpen
    }

    /** The start of a probe: every probe is admitted, the generation is
        recorded and the request counted before the work runs. */
    method BeginProbe(generation: nat) returns (p: Probe)
      modifies counts
      ensures p.generation == generation
      ensures counts.Snapshot() == Requested(old(counts.Snapshot()))
    {
      p := Probe(generation);
      counts.OnRequest();
    }

    /** The end of a probe with token `p` and outcome `o`, the breaker being
        at generation `current`; `next` asks the breaker to change state. */
    method FinishProbe(maxRequests: nat, current: nat, p: Probe, o: Outcome)
      returns (reply: Outcome, next: Option<StateType>)
      modifies counts
      ensures var v := Settle(maxRequests, current, p, old(counts.Snapshot()), o);
        counts.Snapshot() == v.counts && reply == v.reply && next == v.next
    {
      if o.Panicked? {
        counts.OnFailure();
        return o, None;
      }
      if current != p.generation {
        return o, None;
      }
      if o.err.Some? {
        counts.OnFailure();
        return Returned(Nil, o.err), Some(Open);
      }
      counts.OnSuccess();
      if counts.consecutiveSuccesses >= maxRequests {
        next := Some(Closed);
      } else {
        next := None;
      }
      reply := Returned(o.res, None);
    }
  }
}
