/** One delivery attempt as a function: retry budget, circuit breaker, deferral and backoff
    together. The in-place service method is proved against this function, and every history
    theorem is proved about it. */
module Attempts {
  import opened Prelude
  import opened Breakers
  import opened Deliveries

  datatype Settings = Settings(maxAttempts: int, failureThreshold: int, cooldown: Time)

  datatype ErrorClass = HttpError | Timeout | ConnectionError | SsrfBlocked

  /** What the outbound sender reports. */
  datatype SendResult = SendResult(statusCode: Option<int>, errorClass: Option<ErrorClass>) {
    predicate Succeeded() {
      errorClass.None? && statusCode.Some? && 200 <= statusCode.value < 300
    }
  }

  /** A delivery_attempts row. `startedAt` is the instant signed into the request headers
      that the row stores. */
  datatype AttemptRow = AttemptRow(
    attemptNo: nat, responseStatus: Option<int>, errorClass: Option<ErrorClass>, startedAt: Time)
  {
    predicate Ok() {
      errorClass.None? && responseStatus.Some? && 200 <= responseStatus.value < 300
    }
  }

  datatype Effect =
    | Deferred(delivery: Delivery)
    | Sent(delivery: Delivery, breaker: Breaker, row: AttemptRow)

  function Attempt(cfg: Settings, d: Delivery, b: Breaker, now: Time, result: SendResult, delay: Time): Effect {
    if ShouldSkipForOpenBreaker(b, now, cfg.cooldown) then
      Deferred(Reschedule(d, b.openedAt.value + cfg.cooldown))
    else
      var probing := if b.state.Open? then b.(state := HalfOpen) else b;
      Sent(
        RecordOutcome(d, result.Succeeded(), now + delay, cfg.maxAttempts),
        NextBreakerState(probing, now, result.Succeeded(), cfg.failureThreshold),
        AttemptRow(d.attemptCount + 1, result.statusCode, result.errorClass, now))
  }
}
