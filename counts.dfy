/** The five tallies a state keeps: `Counts` in counts.go. The class is the
    object a state owns and updates in place; `Tally` is the copy that
    `getCounts` hands out and `readyToTrip` inspects. Go's `uint32` fields
    are unbounded `nat`s here. */
module Counters {

  datatype Tally = Tally(
    requests: nat,
    totalSuccesses: nat,
    totalFailures: nat,
    consecutiveSuccesses: nat,
    consecutiveFailures: nat)

  /** All five tallies zero: a fresh or cleared `Counts`. */
  const Zero: Tally := Tally(0, 0, 0, 0, 0)

  /** Builds a copy from its five tallies, in field order. */
  function NewCounts(r: nat, ts: nat, tf: nat, cs: nat, cf: nat): (c: Tally)
    ensures c.requests == r && c.totalSuccesses == ts && c.totalFailures == tf
    ensures c.consecutiveSuccesses == cs && c.consecutiveFailures == cf
  {
    Tally(r, ts, tf, cs, cf)
  }

  /** The copy after `onRequest`. */
  function Requested(t: Tally): Tally
  {
    t.(requests := t.requests + 1)
  }

  /** The copy after `onSuccess`. */
  function Succeeded(t: Tally): Tally
  {
    t.(totalSuccesses := t.totalSuccesses + 1,
       consecutiveSuccesses := t.consecutiveSuccesses + 1,
       consecutiveFailures := 0)
  }

  /** The copy after `onFailure`. */
  function Failed(t: Tally): Tally
  {
    t.(totalFailures := t.totalFailures + 1,
       consecutiveFailures := t.consecutiveFailures + 1,
       consecutiveSuccesses := 0)
  }

  /** At most one of the two consecutive runs is under way. */
  predicate Exclusive(t: Tally)
  {
    t.consecutiveSuccesses == 0 || t.consecutiveFailures == 0
  }

  /** A consecutive run never exceeds the total of its kind. */
  predicate RunsWithinTotals(t: Tally)
  {
    t.consecutiveSuccesses <= t.totalSuccesses && t.consecutiveFailures <= t.totalFailures
  }

  /** Both invariants of a tally that starts cleared. */
  predicate Sound(t: Tally)
  {
    Exclusive(t) && RunsWithinTotals(t)
  }

  /** Every counted request has its outcome counted: no request in flight. */
  predicate Settled(t: Tally)
  {
    t.requests == t.totalSuccesses + t.totalFailures
  }

  /** The four mutations of a `Counts`. */
  datatype CountOp = OnRequest | OnSuccess | OnFailure | Clear

  function Apply(t: Tally, op: CountOp): Tally
  {
    match op
    case OnRequest => Requested(t)
    case OnSuccess => Succeeded(t)
    case OnFailure => Failed(t)
    case Clear => Zero
  }

  /** The tally after the mutations `ops`, first to last. */
  function Replay(t: Tally, ops: seq<CountOp>): Tally
    decreases |ops|
  {
    if ops == [] then t else Replay(Apply(t, ops[0]), ops[1..])
  }

  /** Each mutation keeps both consecutive runs exclusive and within their totals. */
  lemma ApplyKeepsSound(t: Tally, op: CountOp)
    requires Sound(t)
    ensures Sound(Apply(t, op))
  {
  }

  /** From a cleared tally, any sequence of mutations keeps at most one
      consecutive run going, and each run within its total. */
  lemma {:induction false} ReplayKeepsSound(t: Tally, ops: seq<CountOp>)
    requires Sound(t)
    ensures Sound(Replay(t, ops))
    decreases |ops|
  {
    if ops != [] {
      ApplyKeepsSound(t, ops[0]);
      ReplayKeepsSound(Apply(t, ops[0]), ops[1..]);
    }
  }

  /** Replaying ends in a cleared tally if it ends with `Clear`, and clearing
      twice is clearing once. */
  lemma {:induction false} ReplayEndingInClear(t: Tally, ops: seq<CountOp>)
    ensures Replay(t, ops + [Clear]) == Zero
    ensures Replay(t, ops + [Clear, Clear]) == Replay(t, ops + [Clear])
    decreases |ops|
  {
    if ops == [] {
      assert Replay(Apply(t, Clear), [Clear]) == Replay(Zero, [Clear]) == Zero;
      assert ops + [Clear, Clear] == [Clear, Clear];
    } else {
      assert (ops + [Clear])[1..] == ops[1..] + [Clear];
      assert (ops + [Clear, Clear])[1..] == ops[1..] + [Clear, Clear];
      ReplayEndingInClear(Apply(t, ops[0]), ops[1..]);
    }
  }

  /** A request followed by its outcome keeps `requests` equal to the number
      of counted outcomes. */
  lemma CompletedRequestSettles(t: Tally)
    requires Settled(t)
    ensures Settled(Succeeded(Requested(t))) && Settled(Failed(Requested(t)))
    ensures !Settled(Requested(t))
  {
  }

  /** The tallies of one state, updated in place (counts.go:8-15). */
  class Counts {
    var requests: nat
    var totalSuccesses: nat
    var totalFailures: nat
    var consecutiveSuccesses: nat
    var consecutiveFailures: nat

    /** `&Counts{}`: all tallies zero. */
    constructor ()
      ensures Snapshot() == Zero
    {
      requests, totalSuccesses, totalFailures := 0, 0, 0;
      consecutiveSuccesses, consecutiveFailures := 0, 0;
    }

    /** The copy `*c`. */
    function Snapshot(): Tally
      reads this
    {
      Tally(requests, totalSuccesses, totalFailures, consecutiveSuccesses, consecutiveFailures)
    }

    method OnRequest()
      modifies this
      ensures requests == old(requests) + 1
      ensures totalSuccesses == old(totalSuccesses) && totalFailures == old(totalFailures)
      ensures consecutiveSuccesses == old(consecutiveSuccesses)
      ensures consecutiveFailures == old(consecutiveFailures)
      ensures Snapshot() == Requested(old(Snapshot()))
    {
      requests := requests + 1;
    }

    method OnFailure()
      modifies this
      ensures totalFailures == old(totalFailures) + 1
      ensures consecutiveFailures == old(consecutiveFailures) + 1
      ensures consecutiveSuccesses == 0
      ensures requests == old(requests) && totalSuccesses == old(totalSuccesses)
      ensures Snapshot() == Failed(old(Snapshot()))
    {
      totalFailures := totalFailures + 1;
      consecutiveFailures := consecutiveFailures + 1;
      consecutiveSuccesses := 0;
    }

    method OnSuccess()
      modifies this
      ensures totalSuccesses == old(totalSuccesses) + 1
      ensures consecutiveSuccesses == old(consecutiveSuccesses) + 1
      ensures consecutiveFailures == 0
      ensures requests == old(requests) && totalFailures == old(totalFailures)
      ensures Snapshot() == Succeeded(old(Snapshot()))
    {
      totalSuccesses := totalSuccesses + 1;
      consecutiveSuccesses := consecutiveSuccesses + 1;
      consecutiveFailures := 0;
    }

    method Clear()
      modifies this
      ensures requests == 0 && totalSuccesses == 0 && totalFailures == 0
      ensures consecutiveSuccesses == 0 && consecutiveFailures == 0
      ensures Snapshot() == Zero
    {
      requests := 0;
      totalSuccesses := 0;
      totalFailures := 0;
      consecutiveSuccesses := 0;
      consecutiveFailures := 0;
    }
  }
}
