/** The per-endpoint circuit breaker: pure decisions over the three columns an endpoint row
    stores for it. */
module Breakers {
  import opened Prelude

  datatype BreakerState = Closed | Open | HalfOpen

  datatype Breaker = Breaker(state: BreakerState, consecutiveFailures: nat, openedAt: Option<Time>)

  /** The columns of a freshly created endpoint. */
  const FRESH: Breaker := Breaker(Closed, 0, None)

  predicate ShouldSkipForOpenBreaker(b: Breaker, now: Time, cooldown: Time) {
    && b.state.Open?
    && b.openedAt.Some?
    && now - b.openedAt.value < cooldown
  }

  function NextBreakerState(b: Breaker, now: Time, success: bool, threshold: int): Breaker {
    if success then
      Breaker(Closed, 0, None)
    else
      var failures := b.consecutiveFailures + 1;
      if b.state.HalfOpen? || failures >= threshold then
        Breaker(Open, failures, Some(now))
      else
        Breaker(Closed, failures, None)
  }

  /** One request that was really sent to the endpoint: when its attempt started, and
      whether the answer was a 2xx. */
  datatype Send = Send(at: Time, ok: bool)

  /** The number of failed sends since the last successful one. */
  function TrailingFailures(h: seq<Send>): nat {
    if h == [] || h[|h| - 1].ok then 0 else 1 + TrailingFailures(h[..|h| - 1])
  }

  /** What the breaker columns should be, said of the send history alone and without any
      reference to the transition function. */
  function BreakerOf(h: seq<Send>, threshold: int): Breaker {
    var failures := TrailingFailures(h);
    if failures > 0 && failures >= threshold
    then Breaker(Open, failures, Some(h[|h| - 1].at))
    else Breaker(Closed, failures, None)
  }
}
