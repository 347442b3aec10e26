/** The scenarios of breaker_test.go, stated on the breaker model: the
    default breaker tripping after six failures and recovering through
    HalfOpen, the custom breaker with a failure-ratio predicate, a periodic
    reset and a late probe, and a panicking request. */
module Scenarios {
  import opened Types
  import opened Counters
  import opened Defaults
  import opened StateMachine
  import opened MachineProperties
  import opened Breaker
  import StateHalfOpen

  /** The reply of the test helper `fail`'s request. */
  const Fail: Outcome := Returned(Nil, Some(WorkError(1)))

  /** The reply of the test helper `succeed`'s request. */
  const Ok: Outcome := Returned(Nil, None)

  /** Every setting left at its zero value except a two-second timeout. */
  const DefaultTestSettings: Settings := Settings("", 0, 0, 2 * Second, None, false, None)

  /** The custom test predicate: at least three requests, and at least 60%
      of them failed (in exact arithmetic). */
  function RatioTrip(c: Tally): bool
  {
    c.requests >= 3 && c.totalFailures * 5 >= c.requests * 3
  }

  /** The custom test settings: name "cb", three half-open successes, a
      three-second reset interval, a two-second timeout, the ratio predicate
      and a notifier. */
  const CustomTestSettings: Settings :=
    Settings("cb", 3, 3 * Second, 2 * Second, Some(RatioTrip), true, None)

  /** One round of the custom test's loop: a success, then a failure. */
  function Round(cfg: Config, m: Machine): Machine
  {
    Execute(cfg, Execute(cfg, m, Ok).machine, Fail).machine
  }

  /** New breakers: defaults for zero and negative settings, Closed with all
      counts zero. */
  lemma NewBreakerDefaults()
    ensures var cfg := Configure(Settings("", 0, 0, 0, None, false, None));
      cfg.name == "" && cfg.maxRequests == 1 && cfg.interval == 0
      && cfg.timeout == 60 * Second && !cfg.notifies && cfg.readyToTrip == DefaultReadyToTrip
      && Initial(cfg).state == Closed && CountsOf(Initial(cfg)) == Zero
    ensures var cfg := Configure(CustomTestSettings);
      cfg.name == "cb" && cfg.maxRequests == 3 && cfg.interval == 3 * Second
      && cfg.timeout == 2 * Second && cfg.notifies && cfg.readyToTrip == RatioTrip
      && Initial(cfg).state == Closed && CountsOf(Initial(cfg)) == Zero
    ensures var cfg := Configure(Settings("ncb", 0, -30 * Second, -90 * Second, None, false, None));
      cfg.name == "ncb" && cfg.maxRequests == 1 && cfg.interval == 0
      && cfg.timeout == 60 * Second && !cfg.notifies && cfg.readyToTrip == DefaultReadyToTrip
      && Initial(cfg).state == Closed && CountsOf(Initial(cfg)) == Zero
  {
  }

  /** The default configuration the default-breaker scenario runs with. */
  function DefaultTestConfig(): (cfg: Config)
    ensures cfg == Configure(DefaultTestSettings)
    ensures cfg.readyToTrip == DefaultReadyToTrip && cfg.maxRequests == 1
    ensures cfg.interval == 0 && !cfg.notifies
  {
    Configure(DefaultTestSettings)
  }

  /** The default breaker with Closed tallies `c` and nothing else set. */
  function ClosedWith(c: Tally): Machine
  {
    Machine(Closed, 0, c, Zero, Zero, false, false, [])
  }

  /** TestDefaultCircuitBreaker, first part: five failures, a success and a
      failure leave the breaker Closed with the counts the test expects. */
  lemma DefaultBreakerCounts()
    ensures var cfg := DefaultTestConfig();
      var m1 := Serve(cfg, Initial(cfg), Failures(5, 1)).0;
      var m2 := Execute(cfg, m1, Ok).machine;
      var m3 := Execute(cfg, m2, Fail).machine;
      m1 == ClosedWith(NewCounts(5, 0, 5, 0, 5))
      && m2 == ClosedWith(NewCounts(6, 1, 5, 1, 0))
      && m3 == ClosedWith(NewCounts(7, 1, 6, 0, 1))
  {
    var cfg := DefaultTestConfig();
    var m0 := Initial(cfg);
    ClosedFailureRun(cfg, m0, 1, 5);
    var m1 := Serve(cfg, m0, Failures(5, 1)).0;
    ClosedSuccessStep(cfg, m1, Ok);
    var m2 := Execute(cfg, m1, Ok).machine;
    ClosedFailureStep(cfg, m2, Fail);
  }

  /** TestDefaultCircuitBreaker, second part: five more failures make six in a
      row, and the breaker trips to Open with generation 1. */
  lemma DefaultBreakerTrips()
    ensures var cfg := DefaultTestConfig();
      Serve(cfg, ClosedWith(NewCounts(7, 1, 6, 0, 1)), Failures(5, 1)).0
        == Machine(Open, 1, Zero, Zero, Zero, false, true, [])
  {
    var cfg := DefaultTestConfig();
    var m3 := ClosedWith(NewCounts(7, 1, 6, 0, 1));
    ClosedFailureRun(cfg, m3, 1, 4);
    var m3a := Serve(cfg, m3, Failures(4, 1)).0;
    assert m3a == ClosedWith(NewCounts(11, 1, 10, 0, 5));
    assert Failures(5, 1) == Failures(4, 1) + [Fail];
    ServeAppend(cfg, m3, Failures(4, 1), [Fail]);
    ClosedFailureStep(cfg, m3a, Fail);
  }

  /** TestDefaultCircuitBreaker, last part: Open rejects calls; after the
      timeout a failed probe reopens, and after the next timeout a successful
      probe closes the breaker. */
  lemma DefaultBreakerRecovers()
    ensures var cfg := DefaultTestConfig();
      var m4 := Machine(Open, 1, Zero, Zero, Zero, false, true, []);
      var m6 := Timeout(cfg, m4);
      var m7 := Execute(cfg, m6, Fail).machine;
      var m8 := Timeout(cfg, m7);
      var m9 := Execute(cfg, m8, Ok).machine;
      Serve(cfg, m4, [Ok, Fail]) == (m4, [Rejected, Rejected])
      && m6 == Machine(HalfOpen, 2, Zero, Zero, Zero, false, false, [])
      && m7 == Machine(Open, 3, Zero, Zero, Zero, false, true, [])
      && m8 == Machine(HalfOpen, 4, Zero, Zero, Zero, false, false, [])
      && m9 == Machine(Closed, 5, Zero, Zero, Zero, false, false, [])
  {
    var cfg := DefaultTestConfig();
    var m4 := Machine(Open, 1, Zero, Zero, Zero, false, true, []);
    OpenRejectsEveryCall(cfg, m4, [Ok, Fail]);
    var replies := Serve(cfg, m4, [Ok, Fail]).1;
    assert replies[0] == Rejected && replies[1] == Rejected;
    assert replies == [Rejected, Rejected];
    var m8 := Machine(HalfOpen, 4, Zero, Zero, Zero, false, false, []);
    HalfOpenSuccessStep(cfg, m8, Ok);
  }

  /** The configuration the custom-breaker scenario runs with. */
  function CustomTestConfig(): (cfg: Config)
    ensures cfg == Configure(CustomTestSettings)
    ensures cfg.readyToTrip == RatioTrip && cfg.maxRequests == 3
    ensures cfg.interval == 3 * Second && cfg.notifies && cfg.name == "cb"
  {
    Configure(CustomTestSettings)
  }

  /** The custom breaker, Closed in generation `gen` with tallies `c`, its
      ticker armed and no notifier call yet. */
  function TickingWith(gen: nat, c: Tally): Machine
  {
    Machine(Closed, gen, c, Zero, Zero, true, false, [])
  }

  /** A round in Closed that does not trip counts both of its calls. */
  lemma RoundInClosed(cfg: Config, m: Machine)
    requires m.state == Closed
    requires !cfg.readyToTrip(Failed(Requested(Succeeded(Requested(m.closed)))))
    ensures Round(cfg, m) == m.(closed := Failed(Requested(Succeeded(Requested(m.closed)))))
  {
    ClosedSuccessStep(cfg, m, Ok);
    ClosedFailureStep(cfg, m.(closed := Succeeded(Requested(m.closed))), Fail);
  }

  /** Each round of a success and a failure keeps the failure ratio at one
      half, below the custom predicate's three fifths: the breaker stays
      Closed and counts both calls. */
  lemma CustomRound(k: nat, cf: nat)
    ensures Round(CustomTestConfig(), TickingWith(0, NewCounts(2 * k, k, k, 0, cf)))
         == TickingWith(0, NewCounts(2 * k + 2, k + 1, k + 1, 0, 1))
  {
    var t := NewCounts(2 * k + 2, k + 1, k + 1, 0, 1);
    assert Failed(Requested(Succeeded(Requested(NewCounts(2 * k, k, k, 0, cf))))) == t;
    assert !RatioTrip(t);
    RoundInClosed(CustomTestConfig(), TickingWith(0, NewCounts(2 * k, k, k, 0, cf)));
  }

  /** TestCustomCircuitBreaker, first part: five rounds leave the breaker
      Closed with ten requests, five of each outcome. */
  lemma CustomBreakerRounds()
    ensures var cfg := CustomTestConfig();
      Round(cfg, Round(cfg, Round(cfg, Round(cfg, Round(cfg, Initial(cfg))))))
      == TickingWith(0, NewCounts(10, 5, 5, 0, 1))
  {
    var cfg := CustomTestConfig();
    assert Initial(cfg) == TickingWith(0, NewCounts(0, 0, 0, 0, 0));
    CustomRound(0, 0);
    CustomRound(1, 1);
    CustomRound(2, 1);
    CustomRound(3, 1);
    CustomRound(4, 1);
  }

  /** TestCustomCircuitBreaker, second part: one more success; the interval
      elapses and clears the counts (a new generation); a failure alone does
      not trip (fewer than three requests); a success and a failure make two
      failures in three requests, which trips to Open and notifies. */
  lemma CustomBreakerResetsAndTrips()
    ensures var cfg := CustomTestConfig();
      var a := Execute(cfg, TickingWith(0, NewCounts(10, 5, 5, 0, 1)), Ok).machine;
      var b := Tick(a);
      var c := Execute(cfg, b, Fail).machine;
      var d := Round(cfg, c);
      a == TickingWith(0, NewCounts(11, 6, 5, 1, 0))
      && b == TickingWith(1, Zero)
      && c == TickingWith(1, NewCounts(1, 0, 1, 0, 1))
      && d == Machine(Open, 2, Zero, Zero, Zero, false, true, [Notice("cb", Closed, Open)])
  {
    var cfg := CustomTestConfig();
    ClosedSuccessStep(cfg, TickingWith(0, NewCounts(10, 5, 5, 0, 1)), Ok);
    ClosedFailureStep(cfg, TickingWith(1, Zero), Fail);
    var c := TickingWith(1, NewCounts(1, 0, 1, 0, 1));
    ClosedSuccessStep(cfg, c, Ok);
    var c' := Execute(cfg, c, Ok).machine;
    assert c' == TickingWith(1, NewCounts(2, 1, 1, 1, 0));
    ClosedFailureStep(cfg, c', Fail);
    assert RatioTrip(NewCounts(3, 1, 2, 0, 1));
  }

  /** TestCustomCircuitBreaker, last part: the timeout opens the probe window;
      two successes stay HalfOpen; a probe starts; the third success closes
      the breaker, notifying each change; the probe started before it then
      returns, and its outcome is discarded. */
  lemma CustomBreakerProbes()
    ensures var cfg := CustomTestConfig();
      var d := Machine(Open, 2, Zero, Zero, Zero, false, true, [Notice("cb", Closed, Open)]);
      var e := Timeout(cfg, d);
      var f := Execute(cfg, Execute(cfg, e, Ok).machine, Ok).machine;
      var (g, late) := Begin(f);
      var h := Execute(cfg, g, Ok).machine;
      var i := Finish(cfg, h, late, Ok);
      e == Machine(HalfOpen, 3, Zero, Zero, Zero, false, false,
                   [Notice("cb", Closed, Open), Notice("cb", Open, HalfOpen)])
      && f == e.(halfOpen := NewCounts(2, 2, 0, 2, 0))
      && g == e.(halfOpen := NewCounts(3, 2, 0, 2, 0))
      && h == Machine(Closed, 4, Zero, Zero, Zero, true, false,
                      e.notices + [Notice("cb", HalfOpen, Closed)])
      && i == Step(h, Ok)
  {
    var cfg := CustomTestConfig();
    var e := Machine(HalfOpen, 3, Zero, Zero, Zero, false, false,
                     [Notice("cb", Closed, Open), Notice("cb", Open, HalfOpen)]);
    HalfOpenSuccessStep(cfg, e, Ok);
    var e1 := Execute(cfg, e, Ok).machine;
    assert e1 == e.(halfOpen := NewCounts(1, 1, 0, 1, 0));
    HalfOpenSuccessStep(cfg, e1, Ok);
    var g := e.(halfOpen := NewCounts(3, 2, 0, 2, 0));
    HalfOpenSuccessStep(cfg, g, Ok);
  }

  /** TestPanicInRequest: the panic is re-raised and counted as one request
      and one failure. */
  lemma PanicScenario(payload: int)
    ensures var cfg := Configure(Settings("", 0, 0, 0, None, false, None));
      var s := Execute(cfg, Initial(cfg), Panicked(payload));
      s.reply == Panicked(payload) && s.machine.state == Closed
      && CountsOf(s.machine) == NewCounts(1, 0, 1, 0, 1)
  {
  }

  /** A probe started in the default scenario's first probe window, superseded
      by a failed probe and a new timeout: as written,
      its normal return is discarded, but its panic lands on the half-open
      tally of the new probe window, which then counts a failure for which
      no request was counted. */
  lemma LateProbeAfterReopening(payload: int)
    ensures var cfg := DefaultTestConfig();
      var m := Machine(HalfOpen, 2, Zero, Zero, Zero, false, false, []);
      var (started, late) := Begin(m);
      var (both, other) := Begin(started);
      var reopened := Timeout(cfg, Finish(cfg, both, other, Fail).machine);
      reopened == Machine(HalfOpen, 4, Zero, Zero, Zero, false, false, [])
      && Finish(cfg, reopened, late, Ok) == Step(reopened, Ok)
      && Finish(cfg, reopened, late, Panicked(payload))
         == Step(reopened.(halfOpen := NewCounts(0, 0, 1, 0, 1)), Panicked(payload))
      && !Settled(CountsOf(Finish(cfg, reopened, late, Panicked(payload)).machine))
  {
    var cfg := DefaultTestConfig();
    var both := Machine(HalfOpen, 2, Zero, Zero, Zero, false, false, []).(halfOpen := NewCounts(2, 0, 0, 0, 0));
    var closedAgain := Finish(cfg, both, StateHalfOpen.Probe(2), Fail).machine;
    assert closedAgain == Machine(Open, 3, Zero, Zero, Zero, false, true, []);
  }
}
