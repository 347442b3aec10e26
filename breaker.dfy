/** The coordinator (breaker.go): defaults the settings, owns the three
    states, the generation and the current state, and switches state through
    `ChangeState`. Every method is proved to do what the matching function
    of `StateMachine` does, and to keep that module's invariant. */
module Breaker {
  import opened Types
  import opened Counters
  import opened Defaults
  import StateClosed
  import StateOpen
  import StateHalfOpen
  import StateMachine
  import MachineProperties

  /** The settings a breaker is built from (settings.go). An absent
      callback is `None`; `onStateChange` says whether a notifier is
      installed. */
  datatype Settings = Settings(
    name: string,
    maxRequests: nat,
    interval: int,
    timeout: int,
    readyToTrip: Option<Tally -> bool>,
    onStateChange: bool,
    isSuccessful: Option<Option<Error> -> bool>)

  /** The configuration a breaker runs with: at least one half-open success
      is needed to close, the interval is never negative (zero: no reset),
      the timeout is always positive, and the trip predicate is the given
      one or the default. */
  function Configure(st: Settings): (cfg: StateMachine.Config)
    ensures cfg.name == st.name && cfg.notifies == st.onStateChange
    ensures cfg.maxRequests >= 1
    ensures st.maxRequests != 0 ==> cfg.maxRequests == st.maxRequests
    ensures st.maxRequests == 0 ==> cfg.maxRequests == 1
    ensures cfg.interval >= 0
    ensures st.interval > 0 ==> cfg.interval == st.interval
    ensures st.interval <= 0 ==> cfg.interval == DefaultInterval
    ensures cfg.timeout > 0
    ensures st.timeout > 0 ==> cfg.timeout == st.timeout
    ensures st.timeout <= 0 ==> cfg.timeout == DefaultTimeout
    ensures st.readyToTrip.Some? ==> cfg.readyToTrip == st.readyToTrip.value
    ensures st.readyToTrip.None? ==> cfg.readyToTrip == DefaultReadyToTrip
  {
    StateMachine.Config(
      st.name,
      if st.maxRequests == 0 then 1 else st.maxRequests,
      if st.interval <= 0 then DefaultInterval else st.interval,
      if st.timeout <= 0 then DefaultTimeout else st.timeout,
      if st.readyToTrip.None? then DefaultReadyToTrip else st.readyToTrip.value,
      st.onStateChange)
  }

  /** `CircuitBreaker`. The notifier's calls are recorded in `notices`. */
  class CircuitBreaker {
    const name: string
    const maxRequests: nat
    const interval: int
    const timeout: int
    const readyToTrip: Tally -> bool
    /** Stored, but never consulted: the states test the error directly. */
    const isSuccessful: Option<Error> -> bool
    const notifies: bool

    /** The breaker's own three states. */
    const closed: StateClosed.ClosedState
    const open: StateOpen.OpenState
    const halfOpen: StateHalfOpen.HalfOpenState

    var state: StateType
    var generation: nat
    var notices: seq<Notice>

    /** Every object the breaker is made of. */
    ghost function Repr(): set<object>
    {
      {this, closed, open, halfOpen, closed.counts, open.counts, halfOpen.counts}
    }

    /** Each state owns its own counts. */
    predicate Wired()
    {
      closed.counts != open.counts && closed.counts != halfOpen.counts
      && open.counts != halfOpen.counts
    }

    function Config(): StateMachine.Config
    {
      StateMachine.Config(name, maxRequests, interval, timeout, readyToTrip, notifies)
    }

    /** The breaker as a value. */
    function Model(): StateMachine.Machine
      reads this, closed, open, halfOpen, closed.counts, open.counts, halfOpen.counts
    {
      StateMachine.Machine(state, generation,
        closed.counts.Snapshot(), open.counts.Snapshot(), halfOpen.counts.Snapshot(),
        closed.ticking, open.timing, notices)
    }

    ghost predicate Valid()
      reads Repr()
    {
      Wired() && maxRequests >= 1 && interval >= 0 && timeout > 0
      && StateMachine.Inv(Config(), Model())
    }

    /** `NewCircuitBreaker`: defaults the settings, builds the three states
        and enters Closed; no state was current before, so neither the
        generation nor the notifier is touched. */
    constructor (st: Settings)
      ensures Valid() && fresh(closed) && fresh(open) && fresh(halfOpen)
      ensures fresh(closed.counts) && fresh(open.counts) && fresh(halfOpen.counts)
      ensures Config() == Configure(st)
      ensures st.isSuccessful.Some? ==> isSuccessful == st.isSuccessful.value
      ensures st.isSuccessful.None? ==> isSuccessful == DefaultIsSuccessful
      ensures Model() == StateMachine.Initial(Config())
    {
      name := st.name;
      notifies := st.onStateChange;
      if st.maxRequests == 0 {
        maxRequests := 1;
      } else {
        maxRequests := st.maxRequests;
      }
      if st.interval <= 0 {
        interval := DefaultInterval;
      } else {
        interval := st.interval;
      }
      if st.timeout <= 0 {
        timeout := DefaultTimeout;
      } else {
        timeout := st.timeout;
      }
      if st.readyToTrip.None? {
        readyToTrip := DefaultReadyToTrip;
      } else {
        readyToTrip := st.readyToTrip.value;
      }
      if st.isSuccessful.None? {
        isSuccessful := DefaultIsSuccessful;
      } else {
        isSuccessful := st.isSuccessful.value;
      }
      closed := new StateClosed.ClosedState();
      open := new StateOpen.OpenState();
      halfOpen := new StateHalfOpen.HalfOpenState();
      generation := 0;
      notices := [];
      state := Closed;
      new;
      closed.OnEnter(interval);
      MachineProperties.InitialKeepsInv(Config());
    }

    function Name(): string
    {
      name
    }

    /** A copy of the current state's counts. */
    function Counts(): (c: Tally)
      reads this, closed.counts, open.counts, halfOpen.counts
      ensures c == StateMachine.CountsOf(Model())
    {
      match state
      case Closed => closed.counts.Snapshot()
      case Open => open.counts.Snapshot()
      case HalfOpen => halfOpen.counts.Snapshot()
    }

    method IncreaseGeneration()
      modifies this`generation
      ensures generation == old(generation) + 1
    {
      generation := generation + 1;
    }

    /** `changeState`. */
    method ChangeState(to: StateType)
      requires Wired()
      modifies this, closed, open, closed.counts, open.counts, halfOpen.counts
      ensures Model() == StateMachine.ChangeState(Config(), old(Model()), to)
    {
      var prev := state;
      if prev != to {
        match prev {
          case Closed => closed.OnLeave();
          case Open => open.OnLeave();
          case HalfOpen => halfOpen.OnLeave();
        }
        IncreaseGeneration();
        if notifies {
          notices := notices + [Notice(name, prev, to)];
        }
      }
      state := to;
      match to {
        case Closed => closed.OnEnter(interval);
        case Open => open.OnEnter();
        case HalfOpen => halfOpen.OnEnter();
      }
    }

    /** `Execute`: the current state handles the whole call. */
    method Execute(o: Outcome) returns (reply: Outcome)
      requires Valid()
      modifies this, closed, open, closed.counts, open.counts, halfOpen.counts
      ensures Valid()
      ensures Model() == StateMachine.Execute(Config(), old(Model()), o).machine
      ensures reply == StateMachine.Execute(Config(), old(Model()), o).reply
    {
      MachineProperties.ExecuteKeepsInv(Config(), Model(), o);
      match state
      case Closed =>
        var trip;
        reply, trip := closed.Execute(readyToTrip, o);
        if trip {
          ChangeState(Open);
        }
      case Open =>
        reply := open.Execute(o);
      case HalfOpen =>
        var p := BeginProbe();
        reply := FinishProbe(p, o);
    }

    /** The first half of a half-open call: the probe is admitted and counted,
        and carries the generation it started in. */
    method BeginProbe() returns (p: StateHalfOpen.Probe)
      requires Valid() && state == HalfOpen
      modifies halfOpen.counts
      ensures Valid()
      ensures (Model(), p) == StateMachine.Begin(old(Model()))
    {
      MachineProperties.BeginKeepsInv(Config(), Model());
      p := halfOpen.BeginProbe(generation);
    }

    /** The second half of a half-open call, whatever happened since its
        first half. */
    method FinishProbe(p: StateHalfOpen.Probe, o: Outcome) returns (reply: Outcome)
      requires Valid()
      modifies this, closed, open, closed.counts, open.counts, halfOpen.counts
      ensures Valid()
      ensures Model() == StateMachine.Finish(Config(), old(Model()), p, o).machine
      ensures reply == StateMachine.Finish(Config(), old(Model()), p, o).reply
    {
      MachineProperties.FinishKeepsInv(Config(), Model(), p, o);
      var next;
      reply, next := halfOpen.FinishProbe(maxRequests, generation, p, o);
      if next.Some? {
        ChangeState(next.value);
      }
    }

    /** The Closed-state ticker fires. */
    method Tick()
      requires Valid()
      modifies this, closed.counts
      ensures Valid()
      ensures Model() == StateMachine.Tick(old(Model()))
    {
      MachineProperties.TickKeepsInv(Config(), Model());
      var bump := closed.OnTick(state);
      if bump {
        IncreaseGeneration();
      }
    }

    /** The Open-state timer fires. */
    method TimeoutFired()
      requires Valid()
      modifies this, closed, open, closed.counts, open.counts, halfOpen.counts
      ensures Valid()
      ensures Model() == StateMachine.Timeout(Config(), old(Model()))
    {
      MachineProperties.TimeoutKeepsInv(Config(), Model());
      var fire := open.OnTimeout(state);
      if fire {
        ChangeState(HalfOpen);
      }
    }
  }
}
