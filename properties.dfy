/** Properties of the breaker model over single operations and over whole
    traces of events: the reachable-state invariant, the generation fence,
    Open's rejection, tripping under the default predicate and closing after
    enough half-open successes. */
module MachineProperties {
  import opened Types
  import opened Counters
  import opened Defaults
  import opened StateMachine
  import StateClosed
  import StateHalfOpen

  // ----- the reachable-state invariant -----

  lemma InitialKeepsInv(cfg: Config)
    ensures Inv(cfg, Initial(cfg))
  {
  }

  /** Changing state from a reachable breaker keeps the invariant. */
  lemma ChangeStateKeepsInv(cfg: Config, m: Machine, to: StateType)
    requires Inv(cfg, m)
    ensures Inv(cfg, ChangeState(cfg, m, to))
  {
  }

  lemma ExecuteKeepsInv(cfg: Config, m: Machine, o: Outcome)
    requires Inv(cfg, m)
    ensures Inv(cfg, Execute(cfg, m, o).machine)
  {
    match m.state
    case Closed =>
      var v := StateClosed.Respond(cfg.readyToTrip, m.closed, o);
      ChangeStateKeepsInv(cfg, m.(closed := v.counts), Open);
    case Open =>
    case HalfOpen =>
      var (started, p) := Begin(m);
      FinishKeepsInv(cfg, started, p, o);
  }

  lemma BeginKeepsInv(cfg: Config, m: Machine)
    requires Inv(cfg, m)
    ensures Inv(cfg, Begin(m).0)
  {
  }

  lemma FinishKeepsInv(cfg: Config, m: Machine, p: StateHalfOpen.Probe, o: Outcome)
    requires Inv(cfg, m)
    ensures Inv(cfg, Finish(cfg, m, p, o).machine)
  {
    var v := StateHalfOpen.Settle(cfg.maxRequests, m.generation, p, m.halfOpen, o);
    if v.next.Some? {
      ChangeStateKeepsInv(cfg, m.(halfOpen := v.counts), v.next.value);
    }
  }

  lemma TickKeepsInv(cfg: Config, m: Machine)
    requires Inv(cfg, m)
    ensures Inv(cfg, Tick(m))
  {
  }

  lemma TimeoutKeepsInv(cfg: Config, m: Machine)
    requires Inv(cfg, m)
    ensures Inv(cfg, Timeout(cfg, m))
  {
    if m.timing && m.state == Open {
      ChangeStateKeepsInv(cfg, m, HalfOpen);
    }
  }

  lemma NextKeepsInv(cfg: Config, m: Machine, e: Event)
    requires Inv(cfg, m)
    ensures Inv(cfg, Next(cfg, m, e))
  {
    match e
    case Call(o) => ExecuteKeepsInv(cfg, m, o);
    case StartProbe => BeginKeepsInv(cfg, m);
    case EndProbe(p, o) => FinishKeepsInv(cfg, m, p, o);
    case IntervalTick => TickKeepsInv(cfg, m);
    case OpenTimeout => TimeoutKeepsInv(cfg, m);
  }

  /** Whatever events arrive, in whatever interleaving of probes, every
      tally stays sound, Open never counts and exactly the current state's
      timer is armed. */
  lemma {:induction false} RunKeepsInv(cfg: Config, m: Machine, es: seq<Event>)
    requires Inv(cfg, m)
    ensures Inv(cfg, Run(cfg, m, es))
    decreases |es|
  {
    if es != [] {
      NextKeepsInv(cfg, m, es[0]);
      RunKeepsInv(cfg, Next(cfg, m, es[0]), es[1..]);
    }
  }

  // ----- the generation fence -----

  /** One event either leaves generation and state as they were, or bumps
      the generation by exactly one. */
  lemma NextFence(cfg: Config, m: Machine, e: Event)
    ensures var n := Next(cfg, m, e);
      (n.generation == m.generation && n.state == m.state) || n.generation == m.generation + 1
  {
  }

  /** The generation never decreases, and while it has not moved the state
      type has not moved either. */
  lemma {:induction false} RunFence(cfg: Config, m: Machine, es: seq<Event>)
    ensures Run(cfg, m, es).generation >= m.generation
    ensures Run(cfg, m, es).generation == m.generation ==> Run(cfg, m, es).state == m.state
    decreases |es|
  {
    if es != [] {
      NextFence(cfg, m, es[0]);
      RunFence(cfg, Next(cfg, m, es[0]), es[1..]);
    }
  }

  /** A probe that started in HalfOpen and finds the generation unchanged,
      whatever happened meanwhile, finishes in HalfOpen; one that finds it
      changed and returned normally leaves the breaker as it is and gets its
      own result and error back. */
  lemma ProbeFence(cfg: Config, m: Machine, es: seq<Event>, o: Outcome)
    requires m.state == HalfOpen
    ensures var (started, p) := Begin(m);
      var now := Run(cfg, started, es);
      p.generation <= now.generation
      && (p.generation == now.generation ==> now.state == HalfOpen)
      && (p.generation != now.generation && o.Returned? ==> Finish(cfg, now, p, o) == Step(now, o))
  {
    var (started, p) := Begin(m);
    RunFence(cfg, started, es);
  }

  /** As written, a panicking probe is counted as a failure on the half-open
      tally even when its generation is superseded. */
  lemma StalePanicIsCounted(cfg: Config, m: Machine, p: StateHalfOpen.Probe, payload: int)
    requires p.generation != m.generation
    ensures Finish(cfg, m, p, Panicked(payload))
         == Step(m.(halfOpen := Failed(m.halfOpen)), Panicked(payload))
  {
  }

  // ----- single calls -----

  /** The sentinel error comes back exactly when the breaker is Open. */
  lemma RejectedExactlyWhenOpen(cfg: Config, m: Machine, o: Outcome)
    requires FromWork(o)
    ensures Execute(cfg, m, o).reply == Rejected <==> m.state == Open
  {
  }

  /** Outside Open, a call hands back what the work did: its panic, its
      result, or (dropping the result) its error. */
  lemma ExecuteReply(cfg: Config, m: Machine, o: Outcome)
    requires m.state != Open
    ensures Execute(cfg, m, o).reply == if IsFailure(o) then Returned(Nil, o.err) else o
  {
  }

  /** A panic is recorded as one more request and one more failure, is
      re-raised, and changes no state (Closed or HalfOpen alike). */
  lemma PanicIsCountedAndReraised(cfg: Config, m: Machine, payload: int)
    requires m.state != Open
    ensures var s := Execute(cfg, m, Panicked(payload));
      s.reply == Panicked(payload) && s.machine.state == m.state
      && s.machine.generation == m.generation
      && CountsOf(s.machine) == Failed(Requested(CountsOf(m)))
  {
  }

  /** A failed probe reopens the breaker with zero counts. */
  lemma HalfOpenFailureReopens(cfg: Config, m: Machine, o: Outcome)
    requires Inv(cfg, m) && m.state == HalfOpen && IsFailure(o)
    ensures var s := Execute(cfg, m, o);
      s.machine.state == Open && CountsOf(s.machine) == Zero
      && s.machine.generation == m.generation + 1 && s.reply == Returned(Nil, o.err)
  {
  }

  /** The interval tick clears Closed's counts and bumps the generation
      exactly when the breaker is Closed and an interval is configured. */
  lemma TickEffect(cfg: Config, m: Machine)
    requires Inv(cfg, m)
    ensures m.state == Closed && cfg.interval > 0 ==>
      Tick(m) == m.(closed := Zero, generation := m.generation + 1)
    ensures m.state != Closed || cfg.interval <= 0 ==> Tick(m) == m
  {
  }

  /** The timeout moves an Open breaker to HalfOpen and is ignored in any
      other state. */
  lemma TimeoutEffect(cfg: Config, m: Machine)
    requires Inv(cfg, m)
    ensures m.state == Open ==>
      Timeout(cfg, m).state == HalfOpen && Timeout(cfg, m).generation == m.generation + 1
    ensures m.state != Open ==> Timeout(cfg, m) == m
  {
  }

  /** A success in Closed counts a request and a success and is returned. */
  lemma ClosedSuccessStep(cfg: Config, m: Machine, o: Outcome)
    requires m.state == Closed && IsSuccess(o)
    ensures Execute(cfg, m, o) == Step(m.(closed := Succeeded(Requested(m.closed))), o)
  {
  }

  /** A failure in Closed counts a request and a failure; the breaker trips
      to Open exactly when the predicate holds of the counts with that
      failure, and the error is returned without the result. */
  lemma ClosedFailureStep(cfg: Config, m: Machine, o: Outcome)
    requires m.state == Closed && IsFailure(o)
    ensures var counted := m.(closed := Failed(Requested(m.closed)));
      Execute(cfg, m, o)
      == Step(if cfg.readyToTrip(counted.closed) then ChangeState(cfg, counted, Open) else counted,
              Returned(Nil, o.err))
  {
  }

  /** A success in HalfOpen counts a request and a success; the breaker
      closes exactly when the consecutive successes reach `maxRequests`. */
  lemma HalfOpenSuccessStep(cfg: Config, m: Machine, o: Outcome)
    requires m.state == HalfOpen && IsSuccess(o)
    ensures var counted := m.(halfOpen := Succeeded(Requested(m.halfOpen)));
      Execute(cfg, m, o)
      == Step(if counted.halfOpen.consecutiveSuccesses >= cfg.maxRequests
              then ChangeState(cfg, counted, Closed) else counted, o)
  {
  }

  // ----- runs of whole calls -----

  /** Serving `a` then `b` is serving `a + b`. */
  lemma {:induction false} ServeAppend(cfg: Config, m: Machine, a: seq<Outcome>, b: seq<Outcome>)
    ensures Serve(cfg, m, a + b).0 == Serve(cfg, Serve(cfg, m, a).0, b).0
    ensures Serve(cfg, m, a + b).1 == Serve(cfg, m, a).1 + Serve(cfg, Serve(cfg, m, a).0, b).1
    decreases |a|
  {
    if a == [] {
      assert a + b == b;
    } else {
      assert (a + b)[1..] == a[1..] + b;
      ServeAppend(cfg, Execute(cfg, m, a[0]).machine, a[1..], b);
    }
  }

  /** However many calls arrive while Open, each is rejected and nothing
      changes: the counts stay as they are. */
  lemma {:induction false} OpenRejectsEveryCall(cfg: Config, m: Machine, os: seq<Outcome>)
    requires m.state == Open
    ensures Serve(cfg, m, os).0 == m
    ensures |Serve(cfg, m, os).1| == |os|
    ensures forall i :: 0 <= i < |os| ==> Serve(cfg, m, os).1[i] == Rejected
    decreases |os|
  {
    if os != [] {
      OpenRejectsEveryCall(cfg, m, os[1..]);
    }
  }

  /** `n` failed calls, each returning error `WorkError(code)`. */
  function Failures(n: nat, code: int): (os: seq<Outcome>)
  {
    seq(n, _ => Returned(Nil, Some(WorkError(code))))
  }

  /** `n` successful calls, each returning `res`. */
  function Successes(n: nat, res: Value): (os: seq<Outcome>)
  {
    seq(n, _ => Returned(res, None))
  }

  /** Under the default predicate, failures that keep the consecutive run at
      five or below leave the breaker Closed, each one counted. */
  lemma {:induction false} ClosedFailureRun(cfg: Config, m: Machine, code: int, n: nat)
    requires cfg.readyToTrip == DefaultReadyToTrip
    requires m.state == Closed && m.closed.consecutiveFailures + n <= 5
    ensures Serve(cfg, m, Failures(n, code)).0
         == m.(closed := Tally(m.closed.requests + n, m.closed.totalSuccesses,
                               m.closed.totalFailures + n,
                               if n == 0 then m.closed.consecutiveSuccesses else 0,
                               m.closed.consecutiveFailures + n))
    decreases n
  {
    if n > 0 {
      var s := Execute(cfg, m, Returned(Nil, Some(WorkError(code))));
      assert Failures(n, code)[1..] == Failures(n - 1, code);
      ClosedFailureRun(cfg, s.machine, code, n - 1);
    }
  }

  /** Under the default predicate, from a Closed breaker with no failure run,
      five consecutive failures leave it Closed and the sixth trips it to
      Open with all counts zero. */
  lemma DefaultTripsOnSixthFailure(cfg: Config, m: Machine, code: int)
    requires cfg.readyToTrip == DefaultReadyToTrip
    requires Inv(cfg, m) && m.state == Closed && m.closed.consecutiveFailures == 0
    ensures Serve(cfg, m, Failures(5, code)).0.state == Closed
    ensures var r := Serve(cfg, m, Failures(6, code)).0;
      r.state == Open && CountsOf(r) == Zero && r.generation == m.generation + 1
  {
    var fail := Returned(Nil, Some(WorkError(code)));
    ClosedFailureRun(cfg, m, code, 5);
    var m5 := Serve(cfg, m, Failures(5, code)).0;
    assert m5.closed.consecutiveFailures == 5;
    assert Failures(6, code) == Failures(5, code) + [fail];
    ServeAppend(cfg, m, Failures(5, code), [fail]);
    var s := Execute(cfg, m5, fail);
    assert Serve(cfg, m5, [fail]).0 == s.machine;
    assert DefaultReadyToTrip(Failed(Requested(m5.closed)));
    assert s.machine == ChangeState(cfg, m5.(closed := Failed(Requested(m5.closed))), Open);
  }

  /** Successful probes that keep the consecutive run below `maxRequests`
      leave the breaker HalfOpen, each one counted. */
  lemma {:induction false} HalfOpenSuccessRun(cfg: Config, m: Machine, res: Value, n: nat)
    requires m.state == HalfOpen && m.halfOpen.consecutiveSuccesses + n < cfg.maxRequests
    ensures Serve(cfg, m, Successes(n, res)).0
         == m.(halfOpen := Tally(m.halfOpen.requests + n, m.halfOpen.totalSuccesses + n,
                                 m.halfOpen.totalFailures,
                                 m.halfOpen.consecutiveSuccesses + n,
                                 if n == 0 then m.halfOpen.consecutiveFailures else 0))
    decreases n
  {
    if n > 0 {
      var s := Execute(cfg, m, Returned(res, None));
      assert Successes(n, res)[1..] == Successes(n - 1, res);
      HalfOpenSuccessRun(cfg, s.machine, res, n - 1);
    }
  }

  /** From a fresh HalfOpen, `maxRequests - 1` successful probes keep it
      HalfOpen and the next one closes the breaker with all counts zero. */
  lemma HalfOpenClosesAfterMaxRequests(cfg: Config, m: Machine, res: Value)
    requires cfg.maxRequests >= 1
    requires Inv(cfg, m) && m.state == HalfOpen && m.halfOpen == Zero
    ensures Serve(cfg, m, Successes(cfg.maxRequests - 1, res)).0.state == HalfOpen
    ensures var r := Serve(cfg, m, Successes(cfg.maxRequests, res)).0;
      r.state == Closed && CountsOf(r) == Zero && r.generation == m.generation + 1
  {
    var k := cfg.maxRequests - 1;
    HalfOpenSuccessRun(cfg, m, res, k);
    assert Successes(k + 1, res) == Successes(k, res) + [Returned(res, None)];
    ServeAppend(cfg, m, Successes(k, res), [Returned(res, None)]);
  }

  // ----- runs without split probes -----

  /** No state but the current one holds counts, and every counted request
      has its outcome counted. */
  ghost predicate Quiet(m: Machine)
  {
    (forall s :: s != m.state ==> TallyOf(m, s) == Zero) && Settled(CountsOf(m))
  }

  /** An event that is not half of a split probe. */
  predicate Whole(e: Event)
  {
    !e.StartProbe? && !e.EndProbe?
  }

  lemma NextKeepsQuiet(cfg: Config, m: Machine, e: Event)
    requires Inv(cfg, m) && Quiet(m) && Whole(e)
    ensures Quiet(Next(cfg, m, e))
  {
    match e
    case Call(o) =>
      if m.state == HalfOpen {
        CompletedRequestSettles(m.halfOpen);
      } else if m.state == Closed {
        CompletedRequestSettles(m.closed);
        var v := StateClosed.Respond(cfg.readyToTrip, m.closed, o);
        var n := Next(cfg, m, e);
        forall s | s != n.state
          ensures TallyOf(n, s) == Zero
        {
          if !v.trip {
            assert TallyOf(n, s) == TallyOf(m, s);
          } else if s == HalfOpen {
            assert TallyOf(m, HalfOpen) == Zero;
            assert TallyOf(n, s) == TallyOf(m.(closed := v.counts), s);
          }
        }
      }
    case IntervalTick =>
      var n := Tick(m);
      forall s | s != n.state
        ensures TallyOf(n, s) == Zero
      {
        assert TallyOf(n, s) == TallyOf(m, s);
      }
    case OpenTimeout =>
  }

  /** With no other state holding counts, the timeout opens a probe window
      whose counts are all zero. */
  lemma TimeoutOpensClearedWindow(cfg: Config, m: Machine)
    requires Inv(cfg, m) && Quiet(m) && m.state == Open
    ensures Timeout(cfg, m).state == HalfOpen && CountsOf(Timeout(cfg, m)) == Zero
  {
  }

  /** As written, a stale probe that panics while the breaker is Open puts
      a failure on the half-open counts, which entering HalfOpen does not
      clear: the next probe window starts with one failure and no request. */
  lemma StalePanicSurvivesIntoNextWindow(cfg: Config, m: Machine, p: StateHalfOpen.Probe, payload: int)
    requires Inv(cfg, m) && Quiet(m) && m.state == Open && p.generation != m.generation
    ensures var w := Timeout(cfg, Finish(cfg, m, p, Panicked(payload)).machine);
      w.state == HalfOpen && CountsOf(w) == NewCounts(0, 0, 1, 0, 1) && !Settled(CountsOf(w))
  {
    assert TallyOf(m, HalfOpen) == Zero;
  }

  /** When every call runs to completion before the next event, only the
      current state holds counts, and `requests` equals successes plus
      failures after every event. */
  lemma {:induction false} WholeRunKeepsQuiet(cfg: Config, m: Machine, es: seq<Event>)
    requires Inv(cfg, m) && Quiet(m)
    requires forall i :: 0 <= i < |es| ==> Whole(es[i])
    ensures Quiet(Run(cfg, m, es))
    decreases |es|
  {
    if es != [] {
      NextKeepsQuiet(cfg, m, es[0]);
      NextKeepsInv(cfg, m, es[0]);
      WholeRunKeepsQuiet(cfg, Next(cfg, m, es[0]), es[1..]);
    }
  }
}
