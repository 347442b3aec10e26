/** The defaults a breaker falls back on (defaults.go). Durations are Go
    `time.Duration` values: integer nanoseconds. */
module Defaults {
  import opened Types
  import opened Counters

  /** `time.Second` in nanoseconds. */
  const Second: int := 1_000_000_000

  /** No periodic reset while Closed. */
  const DefaultInterval: int := 0

  /** Sixty seconds in Open before probing. */
  const DefaultTimeout: int := 60 * Second

  /** Trips once more than five failures have come in a row. */
  function DefaultReadyToTrip(counts: Tally): (trip: bool)
    ensures trip <==> counts.consecutiveFailures >= 6
    ensures counts.consecutiveFailures == 5 ==> !trip
  {
    counts.consecutiveFailures > 5
  }

  /** A call succeeded exactly when it returned no error. */
  function DefaultIsSuccessful(err: Option<Error>): (ok: bool)
    ensures ok <==> err == None
  {
    err == None
  }

  /** The default predicate only becomes true as a failure run grows. */
  lemma DefaultReadyToTripMonotone(a: Tally, b: Tally)
    requires a.consecutiveFailures <= b.consecutiveFailures
    ensures DefaultReadyToTrip(a) ==> DefaultReadyToTrip(b)
  {
  }
}
