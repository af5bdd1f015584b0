/** The deliveries row and the only five ways the repository rewrites it. */
module Deliveries {
  import opened Prelude

  datatype DeliveryState = Pending | Delivered | Retrying | Dead

  datatype Delivery = Delivery(
    eventId: Id,
    endpointId: Id,
    state: DeliveryState,
    attemptCount: nat,
    nextRetryAt: Option<Time>)
  {
    predicate Live() { state.Pending? || state.Retrying? }
  }

  function Create(eventId: Id, endpointId: Id): Delivery {
    Delivery(eventId, endpointId, Pending, 0, None)
  }

  function MarkDelivered(d: Delivery): Delivery {
    d.(state := Delivered, attemptCount := d.attemptCount + 1, nextRetryAt := None)
  }

  function MarkRetrying(d: Delivery, at: Time): Delivery {
    d.(state := Retrying, attemptCount := d.attemptCount + 1, nextRetryAt := Some(at))
  }

  function MarkDead(d: Delivery): Delivery {
    d.(state := Dead, attemptCount := d.attemptCount + 1, nextRetryAt := None)
  }

  /** A breaker-open deferral: no attempt is counted. */
  function Reschedule(d: Delivery, at: Time): Delivery {
    d.(state := Retrying, nextRetryAt := Some(at))
  }

  function ResetForReplay(d: Delivery): Delivery {
    d.(state := Pending, attemptCount := 0, nextRetryAt := None)
  }

  /** How an attempt that really sent its request leaves the row. */
  function RecordOutcome(d: Delivery, ok: bool, retryAt: Time, maxAttempts: int): Delivery {
    if ok then MarkDelivered(d)
    else if d.attemptCount + 1 >= maxAttempts then MarkDead(d)
    else MarkRetrying(d, retryAt)
  }
}
