/** The transactional store behind one service call, its repositories, and the two services
    that rewrite delivery rows in place: the delivery attempt and the dead-letter replay. */
module Services {
  import opened Prelude
  import opened Breakers
  import opened Deliveries
  import opened Attempts
  import H = EndpointHistory
  import T = RetryTimes

  /** The committed rows the two services read and write: the tenant of each event, the
      breaker columns of each endpoint, the deliveries, and the append-only attempt log. */
  datatype Tables = Tables(
    events: map<Id, Id>,
    endpoints: map<Id, Breaker>,
    deliveries: map<Id, Delivery>,
    attempts: map<Id, seq<AttemptRow>>)

  function LogOf(t: Tables, id: Id): seq<AttemptRow> {
    if id in t.attempts then t.attempts[id] else []
  }

  datatype Outcome = Done(delivery: Delivery) | NotFound | NotDead(state: DeliveryState)

  // ---------------------------------------------------------------- specification

  /** A delivery, its event and its endpoint are all there. */
  predicate Attemptable(t: Tables, id: Id) {
    && id in t.deliveries
    && t.deliveries[id].eventId in t.events
    && t.deliveries[id].endpointId in t.endpoints
  }

  function AttemptTables(cfg: Settings, t: Tables, id: Id, now: Time, result: SendResult, delay: Time): Tables
    requires Attemptable(t, id)
  {
    var d := t.deliveries[id];
    match Attempt(cfg, d, t.endpoints[d.endpointId], now, result, delay)
    case Deferred(d') => t.(deliveries := t.deliveries[id := d'])
    case Sent(d', b', row) =>
      t.(deliveries := t.deliveries[id := d'],
         endpoints := t.endpoints[d.endpointId := b'],
         attempts := t.attempts[id := LogOf(t, id) + [row]])
  }

  predicate Replayable(t: Tables, id: Id, tenant: Id) {
    && id in t.deliveries
    && t.deliveries[id].eventId in t.events
    && t.events[t.deliveries[id].eventId] == tenant
  }

  function ReplayTables(t: Tables, id: Id): Tables
    requires id in t.deliveries
  {
    if t.deliveries[id].state.Dead?
    then t.(deliveries := t.deliveries[id := ResetForReplay(t.deliveries[id])])
    else t
  }

  // ---------------------------------------------------------------- unit of work

  /** One session over the store. What the session has written is visible to it alone until
      `Commit`; leaving without a commit throws it away. */
  class UnitOfWork {
    var committed: Tables
    var session: Tables

    constructor (t: Tables)
      ensures committed == session == t
    {
      committed, session := t, t;
    }

    method Enter()
      modifies this`session
      ensures session == committed
    {
      session := committed;
    }

    method Commit()
      modifies this`committed
      ensures committed == session
    {
      committed := session;
    }

    method Rollback()
      modifies this`session
      ensures session == committed
    {
      session := committed;
    }

    method PutDelivery(id: Id, d: Delivery)
      requires id in session.deliveries
      modifies this`session
      ensures session == old(session).(deliveries := old(session).deliveries[id := d])
    {
      session := session.(deliveries := session.deliveries[id := d]);
    }

    method SetBreakerState(id: Id, state: BreakerState, openedAt: Option<Time>) returns (b: Breaker)
      requires id in session.endpoints
      modifies this`session
      ensures b == Breaker(state, old(session).endpoints[id].consecutiveFailures, openedAt)
      ensures session == old(session).(endpoints := old(session).endpoints[id := b])
    {
      b := session.endpoints[id].(state := state, openedAt := openedAt);
      session := session.(endpoints := session.endpoints[id := b]);
    }

    method RecordDeliveryOutcome(id: Id, b: Breaker)
      requires id in session.endpoints
      modifies this`session
      ensures session == old(session).(endpoints := old(session).endpoints[id := b])
    {
      session := session.(endpoints := session.endpoints[id := b]);
    }

    method CreateAttempt(id: Id, row: AttemptRow)
      modifies this`session
      ensures session == old(session).(attempts := old(session).attempts[id := LogOf(old(session), id) + [row]])
    {
      session := session.(attempts := session.attempts[id := LogOf(session, id) + [row]]);
    }
  }

  // ---------------------------------------------------------------- services

  class DeliveryAttemptService {
    const uow: UnitOfWork
    const settings: Settings

    constructor (uow: UnitOfWork, settings: Settings)
      ensures this.uow == uow && this.settings == settings
    {
      this.uow, this.settings := uow, settings;
    }

    /** One attempt. `now` is the clock read, `result` what the receiver answers if a request
        is really sent, `delay` the backoff draw if one is needed. */
    method Attempt(id: Id, now: Time, result: SendResult, delay: Time) returns (outcome: Outcome)
      modifies uow
      ensures uow.session == uow.committed
      ensures if Attemptable(old(uow.committed), id)
              then && uow.committed == AttemptTables(settings, old(uow.committed), id, now, result, delay)
                   && outcome == Done(uow.committed.deliveries[id])
              else uow.committed == old(uow.committed) && outcome == NotFound
      ensures outcome == NotFound <==>
                || id !in old(uow.committed).deliveries
                || old(uow.committed).deliveries[id].eventId !in old(uow.committed).events
                || old(uow.committed).deliveries[id].endpointId !in old(uow.committed).endpoints
    {
      uow.Enter();
      if id !in uow.session.deliveries {
        uow.Rollback();
        return NotFound;
      }
      var delivery := uow.session.deliveries[id];
      if delivery.eventId !in uow.session.events {
        uow.Rollback();
        return NotFound;
      }
      if delivery.endpointId !in uow.session.endpoints {
        uow.Rollback();
        return NotFound;
      }
      var endpoint := uow.session.endpoints[delivery.endpointId];

      if ShouldSkipForOpenBreaker(endpoint, now, settings.cooldown) {
        delivery := Reschedule(delivery, endpoint.openedAt.value + settings.cooldown);
        uow.PutDelivery(id, delivery);
        uow.Commit();
        uow.Rollback();
        return Done(delivery);
      }

      if endpoint.state.Open? {
        endpoint := uow.SetBreakerState(delivery.endpointId, HalfOpen, endpoint.openedAt);
      }
      var transition := NextBreakerState(endpoint, now, result.Succeeded(), settings.failureThreshold);
      uow.RecordDeliveryOutcome(delivery.endpointId, transition);

      var attemptNo := delivery.attemptCount + 1;
      uow.CreateAttempt(id, AttemptRow(attemptNo, result.statusCode, result.errorClass, now));

      var exhausted := attemptNo >= settings.maxAttempts;
      if result.Succeeded() {
        delivery := MarkDelivered(delivery);
      } else if exhausted {
        delivery := MarkDead(delivery);
      } else {
        delivery := MarkRetrying(delivery, now + delay);
      }
      uow.PutDelivery(id, delivery);
      uow.Commit();
      uow.Rollback();
      return Done(delivery);
    }
  }

  class ReplayService {
    const uow: UnitOfWork

    constructor (uow: UnitOfWork)
      ensures this.uow == uow
    {
      this.uow := uow;
    }

    /** The database half of a replay. Another tenant's delivery looks exactly like one that
        does not exist, and only a dead delivery is reset. */
    method Replay(id: Id, tenant: Id) returns (outcome: Outcome)
      modifies uow
      ensures uow.session == uow.committed
      ensures if Replayable(old(uow.committed), id, tenant)
              then && uow.committed == ReplayTables(old(uow.committed), id)
                   && outcome == (if old(uow.committed).deliveries[id].state.Dead?
                                  then Done(uow.committed.deliveries[id])
                                  else NotDead(old(uow.committed).deliveries[id].state))
              else uow.committed == old(uow.committed) && outcome == NotFound
      ensures outcome == NotFound <==>
                || id !in old(uow.committed).deliveries
                || old(uow.committed).deliveries[id].eventId !in old(uow.committed).events
                || old(uow.committed).events[old(uow.committed).deliveries[id].eventId] != tenant
      ensures match outcome
              case NotFound => uow.committed == old(uow.committed)
              case NotDead(state) =>
                uow.committed == old(uow.committed) && state == old(uow.committed).deliveries[id].state && state != Dead
              case Done(row) =>
                && T.ResetRow(old(uow.committed).deliveries[id], row)
                && uow.committed == old(uow.committed).(deliveries := old(uow.committed).deliveries[id := row])
    {
      uow.Enter();
      if id !in uow.session.deliveries {
        uow.Rollback();
        return NotFound;
      }
      var delivery := uow.session.deliveries[id];
      if delivery.eventId !in uow.session.events || uow.session.events[delivery.eventId] != tenant {
        uow.Rollback();
        return NotFound;
      }
      if !delivery.state.Dead? {
        uow.Rollback();
        return NotDead(delivery.state);
      }
      delivery := ResetForReplay(delivery);
      uow.PutDelivery(id, delivery);
      uow.Commit();
      uow.Rollback();
      return Done(delivery);
    }
  }

  // ---------------------------------------------------------------- column by column

  /** What an attempt commits: the delivery's own row and the breaker of its endpoint as the breaker
      and the answer decide, one more log row if a request was sent, and nothing else. */
  lemma AttemptInColumns(cfg: Settings, t: Tables, id: Id, now: Time, result: SendResult, delay: Time)
    requires Attemptable(t, id)
    ensures var t', row := AttemptTables(cfg, t, id, now, result, delay), t.deliveries[id];
            var b, op := t.endpoints[row.endpointId], H.Process(0, now, result, delay);
            && id in t'.deliveries && t'.deliveries == t.deliveries[id := t'.deliveries[id]] && t'.events == t.events
            && if T.CoolingDown(cfg, b, now)
               then T.DeferralRow(cfg, b, row, t'.deliveries[id]) && t'.endpoints == t.endpoints && t'.attempts == t.attempts
               else && T.SendRow(cfg, op, row, t'.deliveries[id])
                    && T.SendLogged(op, row, LogOf(t, id), LogOf(t', id))
                    && t'.attempts == t.attempts[id := LogOf(t', id)]
                    && row.endpointId in t'.endpoints && T.SendBreaker(cfg, op, b, t'.endpoints[row.endpointId])
                    && t'.endpoints == t.endpoints[row.endpointId := t'.endpoints[row.endpointId]]
  {
  }

  /** A call of either service. */
  datatype ServiceCall =
    | AttemptCall(id: Id, now: Time, result: SendResult, delay: Time)
    | ReplayCall(id: Id, tenant: Id)

  /** What a call commits. */
  function Serve(cfg: Settings, t: Tables, call: ServiceCall): Tables {
    match call
    case AttemptCall(id, now, result, delay) =>
      if Attemptable(t, id) then AttemptTables(cfg, t, id, now, result, delay) else t
    case ReplayCall(id, tenant) => if Replayable(t, id, tenant) then ReplayTables(t, id) else t
  }

  function ServeAll(cfg: Settings, t: Tables, calls: seq<ServiceCall>): Tables {
    if calls == [] then t else Serve(cfg, ServeAll(cfg, t, calls[..|calls| - 1]), calls[|calls| - 1])
  }

  /** Calls never move a delivery to another event or endpoint, nor an event to another tenant. */
  lemma {:induction false} OwnersStay(cfg: Settings, t: Tables, calls: seq<ServiceCall>)
    ensures var t' := ServeAll(cfg, t, calls);
            && t'.events == t.events && t'.deliveries.Keys == t.deliveries.Keys
            && forall d | d in t.deliveries :: T.SamePair(t.deliveries[d], t'.deliveries[d])
  {
    if calls != [] {
      OwnersStay(cfg, t, calls[..|calls| - 1]);
      ServeKeepsOwners(cfg, ServeAll(cfg, t, calls[..|calls| - 1]), calls[|calls| - 1]);
    }
  }

  lemma ServeKeepsOwners(cfg: Settings, t: Tables, call: ServiceCall)
    ensures var t' := Serve(cfg, t, call);
            && t'.events == t.events && t'.deliveries.Keys == t.deliveries.Keys
            && forall d | d in t.deliveries :: T.SamePair(t.deliveries[d], t'.deliveries[d])
  {
  }

  /** Tenants are isolated: in any sequence of calls, a replay changes at most the row it names, that
      row was dead, and its event has belonged to the calling tenant from the start. */
  lemma ReplayStaysInTenant(cfg: Settings, t: Tables, calls: seq<ServiceCall>, n: nat, d: Id)
    requires n < |calls| && calls[n].ReplayCall? && d in t.deliveries
    ensures var before, after := ServeAll(cfg, t, calls[..n]), ServeAll(cfg, t, calls[..n + 1]);
            && d in before.deliveries && d in after.deliveries
            && after.endpoints == before.endpoints && after.attempts == before.attempts
            && (after.deliveries[d] == before.deliveries[d]
                || (&& d == calls[n].id
                    && t.deliveries[d].eventId in t.events && t.events[t.deliveries[d].eventId] == calls[n].tenant
                    && T.ResetRow(before.deliveries[d], after.deliveries[d])))
  {
    OwnersStay(cfg, t, calls[..n]);
    assert calls[..n + 1][..n] == calls[..n] && calls[..n + 1][n] == calls[n];
  }

  // ------------------------------------------- the services run the endpoint histories

  /** `w` shows endpoint `e` and its deliveries `ids` as they are committed in `t`. */
  ghost predicate Views(t: Tables, e: Id, ids: seq<Id>, w: H.World) {
    && H.WellFormed(w)
    && |ids| == |w.rows|
    && e in t.endpoints && w.breaker == t.endpoints[e]
    && (forall i, j | 0 <= i < j < |ids| :: ids[i] != ids[j])
    && forall i | 0 <= i < |ids| ::
         && Attemptable(t, ids[i])
         && t.deliveries[ids[i]] == w.rows[i]
         && w.rows[i].endpointId == e
         && LogOf(t, ids[i]) == w.logs[i]
  }

  /** Committing an attempt on a viewed delivery is one history step, so every history theorem
      speaks of what the service commits. */
  lemma AttemptIsHistoryStep(cfg: Settings, t: Tables, e: Id, ids: seq<Id>, w: H.World,
                             i: nat, now: Time, result: SendResult, delay: Time)
    requires Views(t, e, ids, w) && i < |ids|
    ensures Views(AttemptTables(cfg, t, ids[i], now, result, delay), e, ids,
                  H.Step(cfg, w, H.Process(i, now, result, delay)))
  {
    var t' := AttemptTables(cfg, t, ids[i], now, result, delay);
    var w' := H.Step(cfg, w, H.Process(i, now, result, delay));
    forall k | 0 <= k < |ids|
      ensures Attemptable(t', ids[k]) && t'.deliveries[ids[k]] == w'.rows[k]
      ensures w'.rows[k].endpointId == e && LogOf(t', ids[k]) == w'.logs[k]
    {
      assert Attemptable(t, ids[k]);
      if k != i { assert ids[k] != ids[i]; }
    }
  }

  /** An attempt against another endpoint is invisible to this endpoint's history. */
  lemma AttemptElsewhereIsInvisible(cfg: Settings, t: Tables, e: Id, ids: seq<Id>, w: H.World,
                                    id: Id, now: Time, result: SendResult, delay: Time)
    requires Views(t, e, ids, w)
    requires Attemptable(t, id) && t.deliveries[id].endpointId != e
    ensures Views(AttemptTables(cfg, t, id, now, result, delay), e, ids, w)
  {
    var t' := AttemptTables(cfg, t, id, now, result, delay);
    forall k | 0 <= k < |ids|
      ensures Attemptable(t', ids[k]) && t'.deliveries[ids[k]] == w.rows[k]
      ensures w.rows[k].endpointId == e && LogOf(t', ids[k]) == w.logs[k]
    {
      assert Attemptable(t, ids[k]);
      assert ids[k] != id;
    }
  }

  lemma ReplayIsHistoryStep(cfg: Settings, t: Tables, e: Id, ids: seq<Id>, w: H.World, i: nat)
    requires Views(t, e, ids, w) && i < |ids|
    ensures Views(ReplayTables(t, ids[i]), e, ids, H.Step(cfg, w, H.Replay(i)))
  {
    var t' := ReplayTables(t, ids[i]);
    var w' := H.Step(cfg, w, H.Replay(i));
    forall k | 0 <= k < |ids|
      ensures Attemptable(t', ids[k]) && t'.deliveries[ids[k]] == w'.rows[k]
      ensures w'.rows[k].endpointId == e && LogOf(t', ids[k]) == w'.logs[k]
    {
      assert Attemptable(t, ids[k]);
      if k != i { assert ids[k] != ids[i]; }
    }
  }
}
