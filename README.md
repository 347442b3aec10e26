# gobreaker circuit breaker in Dafny

A model of the circuit breaker of `gobreaker` (the `mostafa-asg` fork), with proofs about it.
The breaker wraps calls to a remote service and is always in one of three states:

- **Closed**: every call runs and is counted. A failure that makes the `ReadyToTrip` predicate true
  trips the breaker to Open. An optional interval ticker clears the counts periodically and starts a
  new generation.
- **Open**: every call is rejected with `ErrOpenState` and the work is not run. When the timeout
  timer fires, the breaker moves to HalfOpen.
- **HalfOpen**: every call runs as a probe. A failed probe reopens the breaker. `MaxRequests`
  consecutive successful probes close it. A probe that returns after the generation has moved on is
  ignored, and its result and error go back to the caller unchanged.

Each state owns its own `Counts`: requests, total successes and failures, and consecutive
successes and failures. A change to a different state clears the old state's counts, bumps the
generation, and calls the `OnStateChange` notifier if one is installed.

The project has two layers:

- **Objects updated in place, as in the source.** `Counters.Counts` holds the five counters.
  `StateClosed.ClosedState`, `StateOpen.OpenState` and `StateHalfOpen.HalfOpenState` each own a
  `Counts` object and a flag saying whether their timer is armed. `Breaker.CircuitBreaker` holds the
  configuration, the three states, the current state type, the generation and the notifier's calls.
  Every method states its new state as a function of the old one.
- **The same breaker as a value.** `StateMachine.Machine` is the breaker as a value, and every
  operation is a function on it. Each `CircuitBreaker` method is proved to compute the matching
  function: `Model() == StateMachine.X(old(Model()))`. `MachineProperties` proves the breaker's
  promises about these functions, for single calls and for whole traces of events.

`Scenarios` restates the test file's scenarios step by step and proves the counts and states the
tests expect.

Modelling conventions:

- **The called work.** A call's work is represented by its outcome `Outcome`: it returned a result
  and an optional error, or it panicked with a payload.
- **The sentinel error.** `ErrOpenState` is a separate constructor of `Error`. That work never
  returns it itself is an assumption of the model, stated as `FromWork` where a property needs it:
  in Go the sentinel is an exported variable (open.go:8), so work that wraps another breaker can
  return it, and the caller cannot tell it from a rejection.
- **Timers.** The interval ticker and the Open timeout are events, `Tick` and `TimeoutFired`.
  The ticker fires only while the ticker is armed and the breaker is Closed. The timeout fires only
  while the timer is armed and the breaker is Open. These are the same checks the goroutines in
  closed.go and open.go make.
- **Overlapping probes.** A half-open call can overlap with other events, so it is split into
  `BeginProbe` and `FinishProbe`:
  - `BeginProbe` counts the request and returns a token holding the generation read before the work
    ran.
  - `FinishProbe` settles the probe against the generation current when the work returns.
  - The traces of `StateMachine.Run` are a superset of the interleavings of these halves with whole
    calls and timer events: `Run` also accepts an `EndProbe` whose token no earlier `StartProbe`
    issued, or one finished twice, which the source cannot produce. The invariant and fence lemmas
    over `Run` hold for all of these, so they also hold for the traces the source can produce.
- **State changes.** A state asks the breaker for a state change by returning it (`trip`, `next`),
  rather than calling back into the breaker. The breaker then performs `ChangeState` at the same
  point in the sequence where the source calls `changeState`.

A source behaviour that the model keeps as written: the panic handler of a half-open probe
(half_open.go:20-26) records a failure without looking at the generation. A probe that started in
an earlier probe window and panics after the breaker has moved on therefore adds a failure to the
half-open counts, whatever the current state, and no request was counted for it there. If
HalfOpen is current, the failure lands on the open probe window (`StalePanicIsCounted`,
`LateProbeAfterReopening`). If the breaker is Open or Closed, the failure stays on the half-open
counts, because entering HalfOpen does not clear them (half_open.go:53-55), so the next probe
window starts with one failure and no request (`StalePanicSurvivesIntoNextWindow`). Without such a
panic, a probe window opens with zero counts (`TimeoutOpensClearedWindow`).

In the model, where a Closed call is one indivisible step, this stale panic is the only way
"requests equals successes plus failures" can break once every call has returned. While a call is
still running, its request is already counted and its outcome is not, so the identity does not hold
then either (`CompletedRequestSettles`). `WholeRunKeepsQuiet` shows that the identity holds while
calls do not overlap. In the source there are two more ways, both outside the model because a
Closed call cannot overlap other events here:
- A Closed call that spans an interval tick is counted as a request before the tick clears the
  counts (closed.go:66, 33-35), and its outcome after it (closed.go:77). The counts end at
  (0,1,0,1,0).
- A Closed call that spans a trip has its outcome counted on Closed's counts after they were
  cleared on leaving (closed.go:46). Entering Closed again does not clear them (closed.go:22-43),
  so the next Closed window starts unsettled.

## Model

| member | source | states |
|---|---|---|
| Counters.NewCounts | counts.go:17-25 | builds a counts copy whose five fields are the five arguments, in field order |
| Counters.Counts.constructor | closed.go:14-20 | a new `Counts` has all five counters zero |
| Counters.Counts.OnRequest | counts.go:27-32 | adds one request and leaves the other four counters unchanged |
| Counters.Counts.OnFailure | counts.go:34-41 | adds one to total and consecutive failures, resets consecutive successes, leaves requests and total successes unchanged |
| Counters.Counts.OnSuccess | counts.go:43-50 | adds one to total and consecutive successes, resets consecutive failures, leaves requests and total failures unchanged |
| Counters.Counts.Clear | counts.go:52-61 | sets all five counters to zero |
| Counters.ApplyKeepsSound | counts.go:27-61 | each of the four mutations keeps the two consecutive runs exclusive, each within its total |
| Counters.ReplayKeepsSound | counts.go:27-61 | any sequence of mutations keeps the counts sound |
| Counters.ReplayEndingInClear | counts.go:52-61 | any sequence of mutations that ends in a clear leaves all counts zero; clearing twice is clearing once |
| Counters.CompletedRequestSettles | counts.go:27-50 | a request followed by its success or failure keeps requests equal to successes plus failures; a request alone breaks that equality |
| Defaults.DefaultReadyToTrip | defaults.go:10-12 | trips exactly when at least six failures came in a row; five do not trip |
| Defaults.DefaultIsSuccessful | defaults.go:14-16 | a call succeeded exactly when it returned no error |
| Defaults.DefaultReadyToTripMonotone | defaults.go:10-12 | a longer failure run never turns the default predicate off |
| Breaker.Configure | breaker.go:35-60 | maxRequests 0 becomes 1, otherwise kept; interval at or below 0 becomes the default 0, otherwise kept; timeout at or below 0 becomes 60 s, otherwise kept; a missing trip predicate becomes the default; name and notifier kept |
| Breaker.CircuitBreaker.constructor | breaker.go:32-75 | the configuration is `Configure` of the settings; the success test is the given one or the default; the breaker starts Closed in generation 0 with zero counts, no notifier call and the ticker armed only for a positive interval; the invariant holds |
| Breaker.CircuitBreaker.Counts | breaker.go:82-84 | returns a copy of the counts of the current state |
| Breaker.CircuitBreaker.IncreaseGeneration | breaker.go:95-97 | the generation grows by exactly one |
| Breaker.CircuitBreaker.ChangeState | breaker.go:99-113 | the breaker's new state is `StateMachine.ChangeState` of its old state |
| Breaker.CircuitBreaker.Execute | breaker.go:91-93 | the new state and the reply are those of `StateMachine.Execute`; the invariant is kept |
| Breaker.CircuitBreaker.BeginProbe | half_open.go:28-29 | the probe is counted and its token carries the current generation, as `StateMachine.Begin`; the invariant is kept |
| Breaker.CircuitBreaker.FinishProbe | half_open.go:30-46 | the new state and the reply are those of `StateMachine.Finish`; the invariant is kept |
| Breaker.CircuitBreaker.Tick | closed.go:32-36 | the new state is `StateMachine.Tick` of the old one; the invariant is kept |
| Breaker.CircuitBreaker.TimeoutFired | open.go:33-36 | the new state is `StateMachine.Timeout` of the old one; the invariant is kept |
| StateClosed.Respond | closed.go:57-79 | a Closed call counts one request and then a success, or a failure for an error or a panic; it trips exactly when the call returned an error and the predicate holds of the updated counts; an error is returned without the result; a panic is re-raised; sound and settled counts stay so |
| StateClosed.ClosedState.constructor | closed.go:14-20 | a Closed state starts with fresh zero counts and no ticker |
| StateClosed.ClosedState.OnEnter | closed.go:22-43 | the ticker is armed exactly when the interval is positive |
| StateClosed.ClosedState.OnLeave | closed.go:45-51 | the counts are cleared and the ticker stopped |
| StateClosed.ClosedState.Execute | closed.go:57-79 | updates the counts in place and returns the reply and the trip request of `Respond` |
| StateClosed.ClosedState.OnTick | closed.go:32-36 | the tick clears the counts and asks for a new generation exactly when the ticker is armed and the breaker is Closed; otherwise the counts are unchanged |
| StateOpen.OpenState.constructor | open.go:17-24 | an Open state starts with fresh zero counts and no timer |
| StateOpen.OpenState.OnEnter | open.go:26-42 | the timeout timer is armed |
| StateOpen.OpenState.OnLeave | open.go:44-48 | the counts are cleared and the timer stopped |
| StateOpen.OpenState.Execute | open.go:54-56 | every call is rejected with `ErrOpenState`; for work that does not itself return `ErrOpenState`, the reply differs from what the work would have returned |
| StateOpen.OpenState.OnTimeout | open.go:33-36 | asks to move to HalfOpen exactly when the timer is armed and the breaker is still Open |
| StateHalfOpen.Settle | half_open.go:19-47 | a panic counts a failure, is re-raised and changes no state; a stale normal return changes nothing and hands back result and error; a current failure counts a failure and asks for Open; a current success counts a success and asks for Closed exactly when consecutive successes reach `maxRequests`; HalfOpen is never requested; sound counts stay sound |
| StateHalfOpen.HalfOpenState.constructor | half_open.go:8-13 | a HalfOpen state starts with fresh zero counts |
| StateHalfOpen.HalfOpenState.OnLeave | half_open.go:57-59 | the counts are cleared |
| StateHalfOpen.HalfOpenState.BeginProbe | half_open.go:28-29 | counts the request and returns a token holding the generation read before the work |
| StateHalfOpen.HalfOpenState.FinishProbe | half_open.go:19-47 | updates the counts in place and returns the reply and state request of `Settle` |
| StateMachine.Initial | breaker.go:68-72 | a new breaker is Closed in generation 0, all counts zero, no notifier call, ticker armed exactly for a positive interval, no timeout timer |
| StateMachine.ChangeState | breaker.go:99-113 | the current state becomes `to`; for a different type the generation grows by one, the old state's counts are cleared and the notifier records (name, from, to) if installed; for the same type nothing but re-entry happens; no other state's counts change |
| MachineProperties.InitialKeepsInv | breaker.go:68-72 | a new breaker satisfies the invariant: sound counts, Open never counts, exactly the current state's timer armed |
| MachineProperties.ChangeStateKeepsInv | breaker.go:99-113 | a state change keeps the invariant |
| MachineProperties.ExecuteKeepsInv | breaker.go:91-93 | a whole call keeps the invariant |
| MachineProperties.BeginKeepsInv | half_open.go:28-29 | starting a probe keeps the invariant |
| MachineProperties.FinishKeepsInv | half_open.go:19-47 | finishing a probe, however stale, keeps the invariant |
| MachineProperties.TickKeepsInv | closed.go:32-36 | an interval tick keeps the invariant |
| MachineProperties.TimeoutKeepsInv | open.go:33-36 | the timeout keeps the invariant |
| MachineProperties.NextKeepsInv | breaker.go:91-113 | any single event keeps the invariant |
| MachineProperties.RunKeepsInv | breaker.go:91-113 | any trace of events, including interleaved probes, keeps the invariant |
| MachineProperties.NextFence | breaker.go:95-113 | one event either leaves generation and state type unchanged or bumps the generation by exactly one |
| MachineProperties.RunFence | breaker.go:95-113 | over any trace the generation never decreases, and while it has not moved the state type has not moved |
| MachineProperties.ProbeFence | half_open.go:28-33 | a probe that finds its generation still current finds the breaker HalfOpen; a stale probe that returned normally leaves the breaker as it is and gets its own result and error back |
| MachineProperties.StalePanicIsCounted | half_open.go:20-26 | a panicking probe counts a failure on the current half-open counts even when its generation is stale |
| MachineProperties.StalePanicSurvivesIntoNextWindow | half_open.go:20-26 | a stale probe that panics while the breaker is Open puts a failure on the half-open counts, and the next probe window opens with counts (0,0,1,0,1), which are not settled |
| MachineProperties.TimeoutOpensClearedWindow | open.go:33-36 | when no other state holds counts, the timeout opens HalfOpen with all counts zero |
| MachineProperties.RejectedExactlyWhenOpen | open.go:54-56 | for work that does not itself return `ErrOpenState`, a call gets `ErrOpenState` back exactly when the breaker is Open |
| MachineProperties.ExecuteReply | closed.go:57-79 | outside Open a call returns the work's panic, its result, or its error without the result |
| MachineProperties.PanicIsCountedAndReraised | closed.go:58-64 | a panic outside Open counts one request and one failure, is re-raised, and leaves state and generation unchanged |
| MachineProperties.HalfOpenFailureReopens | half_open.go:35-39 | a failed probe reopens the breaker with zero counts, one generation later, and returns the error |
| MachineProperties.TickEffect | closed.go:25-36 | a tick clears the Closed counts and bumps the generation exactly when the breaker is Closed with a positive interval; otherwise it changes nothing |
| MachineProperties.TimeoutEffect | open.go:30-36 | the timeout moves an Open breaker to HalfOpen one generation later and is ignored in other states |
| MachineProperties.ClosedSuccessStep | closed.go:66-78 | a success in Closed counts a request and a success and returns the result |
| MachineProperties.ClosedFailureStep | closed.go:66-74 | a failure in Closed counts a request and a failure and trips to Open exactly when the predicate holds of those counts |
| MachineProperties.HalfOpenSuccessStep | half_open.go:41-46 | a success in HalfOpen counts a request and a success and closes exactly when consecutive successes reach `maxRequests` |
| MachineProperties.ServeAppend | breaker.go:91-93 | serving two call sequences one after the other is serving their concatenation |
| MachineProperties.OpenRejectsEveryCall | open.go:54-56 | an Open breaker rejects every call of a sequence, and nothing changes |
| MachineProperties.ClosedFailureRun | closed.go:66-74 | under the default predicate, failures that keep the run at five or fewer leave the breaker Closed with each failure counted |
| MachineProperties.DefaultTripsOnSixthFailure | defaults.go:10-12 | under the default predicate, five failures in a row keep the breaker Closed and the sixth trips it to Open with zero counts, one generation later |
| MachineProperties.HalfOpenSuccessRun | half_open.go:41-46 | successful probes that keep the run below `maxRequests` leave the breaker HalfOpen with each success counted |
| MachineProperties.HalfOpenClosesAfterMaxRequests | half_open.go:41-46 | from a fresh HalfOpen, `maxRequests - 1` successes keep it HalfOpen and the next one closes it with zero counts |
| MachineProperties.NextKeepsQuiet | counts.go:27-50 | a whole event keeps counts only in the current state and keeps requests equal to successes plus failures |
| MachineProperties.WholeRunKeepsQuiet | counts.go:27-50 | over any trace of whole calls and timer events, only the current state holds counts and requests equal successes plus failures |
| Scenarios.NewBreakerDefaults | breaker_test.go:73-103 | empty settings give name "", maxRequests 1, interval 0, a 60 s timeout, the default trip predicate and no notifier; the custom settings give "cb", 3, 3 s, 2 s, the custom predicate and a notifier; negative durations give "ncb", 1, interval 0, a 60 s timeout and no notifier; each new breaker is Closed with zero counts |
| Scenarios.DefaultBreakerCounts | breaker_test.go:110-123 | five failures, a success and a failure give counts (5,0,5,0,5), (6,1,5,1,0) and (7,1,6,0,1) in Closed |
| Scenarios.DefaultBreakerTrips | breaker_test.go:125-129 | five more failures trip the breaker to Open with zero counts |
| Scenarios.DefaultBreakerRecovers | breaker_test.go:131-155 | Open rejects calls; the timeout gives HalfOpen; a failure reopens; the next timeout gives HalfOpen; a success closes with zero counts |
| Scenarios.RoundInClosed | breaker_test.go:161-164 | a success and a failure in Closed that do not trip count both calls |
| Scenarios.CustomRound | breaker_test.go:161-164 | one round of the custom test keeps the failure ratio at one half, below three fifths, so the breaker stays Closed |
| Scenarios.CustomBreakerRounds | breaker_test.go:158-166 | five rounds leave counts (10,5,5,0,1) in Closed |
| Scenarios.CustomBreakerResetsAndTrips | breaker_test.go:168-182 | a success gives (11,6,5,1,0); the interval tick clears the counts; a failure gives (1,0,1,0,1); a success and a failure trip to Open and notify (cb, Closed, Open) |
| Scenarios.CustomBreakerProbes | breaker_test.go:184-203 | the timeout gives HalfOpen and notifies; two successes give (2,2,0,2,0); a started probe gives (3,2,0,2,0); a success closes and notifies; the late probe's result is then returned unchanged and ignored |
| Scenarios.PanicScenario | breaker_test.go:206-210 | a panicking request is re-raised and counted as (1,0,1,0,1) |
| Scenarios.LateProbeAfterReopening | half_open.go:20-33 | a probe from an earlier probe window is ignored if it returns normally, but its panic puts a failure on the new window's counts, which are then not settled |

## Left out

- Concurrency: mutexes, `sync/atomic`, goroutines, tickers and channels are not modelled. Each
  operation is one atomic step, timer firings are explicit events, and a half-open call is split at
  the point where its work runs. Races between a Closed call and a tick are not modelled: a Closed
  call is one indivisible step.
- The in-flight Closed call that `TestGeneration` (breaker_test.go:212-227) lets finish after an
  interval tick is not modelled. closed.go has no generation check, so such a call's outcome would
  land on the cleared counts, while the test expects the counts to stay zero. The model follows
  closed.go, and whole Closed calls cannot overlap a tick.
- Durations and timing: the interval and timeout values are kept, but no clock is modelled. A timer
  event stands for the moment Go's ticker fires.
- Counters.Counts: `uint32` counters and the `uint64` generation are unbounded `nat`s. Wrap-around
  after 2^32 requests is not modelled.
- The shared package-level `closed`, `open` and `halfOpen` variables are not modelled. In the source,
  every breaker overwrites them. In the model, each breaker owns its three states.
- `isSuccessful` is stored by the constructor and never consulted, as in the source. The states
  test the error directly.
- The `MaxRequests` admission cap described in settings.go is not enforced by half_open.go, and the
  model admits every probe as the code does.
- The custom test's trip predicate divides as floating point. `Scenarios.RatioTrip` states the same
  comparison in exact integer arithmetic.
- Callback panics: `readyToTrip` is taken as total, and the notifier as a log of its calls that
  cannot fail. In the source, a panicking `readyToTrip` (closed.go:71) is caught by the deferred
  handler (closed.go:58-64), which counts a second failure for the one request. A panicking
  `OnStateChange` (breaker.go:107) leaves the generation bumped and the old state left, while
  `currentState` is not updated (breaker.go:111).
- The notifier is modelled as a log of its calls. Any other effect of the callback, such as the
  test's global variable, is not part of this model.
- `StateType.String` (state_type.go) and `Name` carry no contract worth stating. The request
  function's result value is an opaque `Value`.
- state.go's `state` interface is not modelled as an abstraction. Each state is its own class, and
  the breaker dispatches on the state type.
