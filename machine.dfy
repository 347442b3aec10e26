/** The whole breaker as a value: its current state, generation, the tallies
    of the three states, which timers are armed and the notifier calls made
    so far. Each operation of the breaker is a function here; the class in
    breaker.dfy is proved to follow them, and the lemmas in properties.dfy
    are proved about them. */
module StateMachine {
  import opened Types
  import opened Counters
  import StateClosed
  import StateHalfOpen

  /** The settings a breaker runs with, after defaulting. `notifies` says
      whether a state-change callback is installed. */
  datatype Config = Config(
    name: string,
    maxRequests: nat,
    interval: int,
    timeout: int,
    readyToTrip: Tally -> bool,
    notifies: bool)

  datatype Machine = Machine(
    state: StateType,
    generation: nat,
    closed: Tally,
    open: Tally,
    halfOpen: Tally,
    ticking: bool,
    timing: bool,
    notices: seq<Notice>)

  /** A state change together with the reply to the call that caused it. */
  datatype Step = Step(machine: Machine, reply: Outcome)

  /** A new breaker: Closed, generation 0, all tallies zero, the ticker armed
      when an interval is configured, no notifier call. */
  function Initial(cfg: Config): (m: Machine)
    ensures m.state == Closed && m.generation == 0 && m.notices == []
    ensures m.closed == Zero && m.open == Zero && m.halfOpen == Zero
    ensures m.ticking <==> cfg.interval > 0
    ensures !m.timing
  {
    Machine(Closed, 0, Zero, Zero, Zero, cfg.interval > 0, false, [])
  }

  /** The tally kept by the state of type `s`. */
  function TallyOf(m: Machine, s: StateType): Tally
  {
    match s
    case Closed => m.closed
    case Open => m.open
    case HalfOpen => m.halfOpen
  }

  /** The tally of the current state: what `Counts()` returns. */
  function CountsOf(m: Machine): Tally
  {
    TallyOf(m, m.state)
  }

  /** `onLeave` of the current state: clear its tally and stop its timer. */
  function Leave(m: Machine): Machine
  {
    match m.state
    case Closed => m.(closed := Zero, ticking := false)
    case Open => m.(open := Zero, timing := false)
    case HalfOpen => m.(halfOpen := Zero)
  }

  /** `onEnter` of the current state: arm its timer, if it has one. */
  function Enter(cfg: Config, m: Machine): Machine
  {
    match m.state
    case Closed => m.(ticking := cfg.interval > 0)
    case Open => m.(timing := true)
    case HalfOpen => m
  }

  /** `changeState`: to another type, leave the old state, bump the
      generation, notify, install and enter the new state; to the current
      type, only enter it again. */
  function ChangeState(cfg: Config, m: Machine, to: StateType): (r: Machine)
    ensures r.state == to
    ensures m.state != to ==> r.generation == m.generation + 1
    ensures m.state == to ==> r.generation == m.generation
    ensures r.notices == if m.state != to && cfg.notifies
                         then m.notices + [Notice(cfg.name, m.state, to)]
                         else m.notices
    ensures m.state != to ==> TallyOf(r, m.state) == Zero
    ensures forall s :: s != m.state || s == to ==> TallyOf(r, s) == TallyOf(m, s)
  {
    if m.state != to then
      var left := Leave(m);
      var bumped := left.(generation := left.generation + 1);
      var noted := if cfg.notifies
                   then bumped.(notices := bumped.notices + [Notice(cfg.name, m.state, to)])
                   else bumped;
      Enter(cfg, noted.(state := to))
    else
      Enter(cfg, m.(state := to))
  }

  /** The start of a half-open probe: the request is counted and the current
      generation recorded. */
  function Begin(m: Machine): (Machine, StateHalfOpen.Probe)
  {
    (m.(halfOpen := Requested(m.halfOpen)), StateHalfOpen.Probe(m.generation))
  }

  /** The end of a half-open probe with token `p` and outcome `o`. */
  function Finish(cfg: Config, m: Machine, p: StateHalfOpen.Probe, o: Outcome): Step
  {
    var v := StateHalfOpen.Settle(cfg.maxRequests, m.generation, p, m.halfOpen, o);
    var settled := m.(halfOpen := v.counts);
    if v.next.Some? then Step(ChangeState(cfg, settled, v.next.value), v.reply)
    else Step(settled, v.reply)
  }

  /** `Execute`: one whole call, handled by the current state. */
  function Execute(cfg: Config, m: Machine, o: Outcome): Step
  {
    match m.state
    case Closed =>
      var v := StateClosed.Respond(cfg.readyToTrip, m.closed, o);
      var counted := m.(closed := v.counts);
      Step(if v.trip then ChangeState(cfg, counted, Open) else counted, v.reply)
    case Open =>
      Step(m, Rejected)
    case HalfOpen =>
      var (started, p) := Begin(m);
      Finish(cfg, started, p, o)
  }

  /** A tick of the Closed-state ticker. */
  function Tick(m: Machine): Machine
  {
    if m.ticking && m.state == Closed then
      m.(closed := Zero, generation := m.generation + 1)
    else
      m
  }

  /** The Open-state timer fires. */
  function Timeout(cfg: Config, m: Machine): Machine
  {
    if m.timing && m.state == Open then ChangeState(cfg, m, HalfOpen) else m
  }

  /** What can happen to a breaker: a whole call, the start or the end of a
      half-open probe, a tick, the timeout. */
  datatype Event =
    | Call(o: Outcome)
    | StartProbe
    | EndProbe(p: StateHalfOpen.Probe, result: Outcome)
    | IntervalTick
    | OpenTimeout

  /** The breaker after one event. A probe can only start in HalfOpen: in the
      other states a call is a whole `Call`. */
  function Next(cfg: Config, m: Machine, e: Event): Machine
  {
    match e
    case Call(o) => Execute(cfg, m, o).machine
    case StartProbe => if m.state == HalfOpen then Begin(m).0 else m
    case EndProbe(p, o) => Finish(cfg, m, p, o).machine
    case IntervalTick => Tick(m)
    case OpenTimeout => Timeout(cfg, m)
  }

  /** The breaker after the events `es`, first to last. */
  function Run(cfg: Config, m: Machine, es: seq<Event>): Machine
    decreases |es|
  {
    if es == [] then m else Run(cfg, Next(cfg, m, es[0]), es[1..])
  }

  /** The breaker after the whole calls `os`, first to last, and its replies. */
  function Serve(cfg: Config, m: Machine, os: seq<Outcome>): (Machine, seq<Outcome>)
    decreases |os|
  {
    if os == [] then (m, [])
    else
      var s := Execute(cfg, m, os[0]);
      var (last, replies) := Serve(cfg, s.machine, os[1..]);
      (last, [s.reply] + replies)
  }

  /** What holds of every breaker reachable from `Initial`: every tally is
      sound, Open never counts, Closed keeps nothing while it is not current,
      and exactly the current state's timer is armed (the ticker only when
      an interval is configured). */
  ghost predicate Inv(cfg: Config, m: Machine)
  {
    Sound(m.closed) && Sound(m.open) && Sound(m.halfOpen)
    && m.open == Zero
    && (m.state != Closed ==> m.closed == Zero && !m.ticking)
    && (m.state == Closed ==> (m.ticking <==> cfg.interval > 0))
    && (m.timing <==> m.state == Open)
  }
}
