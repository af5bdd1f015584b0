/** What each group of actions leaves alone, and the shape of what it changes. The invariants
    are proved from these facts. */
module Frames {
  import opened Prelude
  import opened Deliveries
  import opened Protocol

  // ------------------------------------------------- environment, scheduler and replay

  lemma EnvFrame(s: State, a: EnvAction)
    requires EnvEnabled(s, a)
    ensures var s' := EnvApply(s, a);
            && s'.redis == s.redis && s'.txs == s.txs && s'.tasks == s.tasks
            && s'.hand == s.hand && s'.replaying == s.replaying && s'.reading == s.reading
            && s.ledger.ids <= s'.ledger.ids && s'.ledger.hazards == s.ledger.hazards
            && s'.ledger.fanout == s.ledger.fanout
            && (if a.DeleteEndpoint?
                then forall d :: d in s'.store.deliveries <==>
                       d in s.store.deliveries && s.store.deliveries[d].endpointId != a.endpoint
                else s'.store.deliveries == s.store.deliveries)
            && forall d | d in s'.store.deliveries :: s'.store.deliveries[d] == s.store.deliveries[d]
  {
  }

  lemma SchedulerFrame(s: State, w: Id, a: SchedulerAction)
    requires SchedulerEnabled(s, w, a)
    ensures var s' := SchedulerApply(s, w, a);
            && s'.store == s.store && s'.txs == s.txs && s'.tasks == s.tasks && s'.replaying == s.replaying
            && s'.reading == s.reading && s'.clock == s.clock
            && s'.redis.delivered == s.redis.delivered && s'.redis.pel == s.redis.pel
            && s.redis.entries <= s'.redis.entries
            && s'.ledger.ids == s.ledger.ids && s.ledger.hazards <= s'.ledger.hazards
            && s'.ledger.fanout == s.ledger.fanout
  {
  }

  lemma ReplayFrame(s: State, w: Id, a: ReplayAction)
    requires ReplayEnabled(s, w, a)
    ensures var s' := ReplayApply(s, w, a);
            && s'.txs == s.txs && s'.tasks == s.tasks && s'.hand == s.hand && s'.clock == s.clock
            && s'.redis.delivered == s.redis.delivered && s'.redis.pel == s.redis.pel
            && s'.redis.retry == s.redis.retry && s.redis.entries <= s'.redis.entries
            && s.ledger.ids <= s'.ledger.ids && s.ledger.hazards <= s'.ledger.hazards
            && s'.ledger.fanout == s.ledger.fanout
            && s'.store.deliveries == (if a.CommitReset?
                                       then s.store.deliveries[a.delivery := ResetForReplay(s.store.deliveries[a.delivery])]
                                       else s.store.deliveries)
  {
  }

  /** Hazards are only ever added. */
  lemma HazardsGrow(s: State, cfg: Config, a: Action)
    requires Enabled(s, cfg, a)
    ensures s.ledger.hazards <= Apply(s, cfg, a).ledger.hazards
  {
    match a
    case Environment(e) => EnvFrame(s, e);
    case RelayStep(x, r) => RelayFrame(s, x, r);
    case WorkStep(t, w) => WorkLedgerFrame(s, cfg, t, w);
    case SchedulerStep(w, b) => SchedulerFrame(s, w, b);
    case ReplayStep(w, b) => ReplayFrame(s, w, b);
  }

  // ---------------------------------------------------------------- relay commands

  /** What one relay command does to the transactions and to the set of delivery rows. */
  lemma RelayFrame(s: State, x: Id, a: RelayAction)
    requires RelayEnabled(s, x, a)
    ensures var s' := RelayApply(s, x, a);
            && s'.tasks == s.tasks && s'.hand == s.hand && s'.replaying == s.replaying && s'.reading == s.reading
            && s'.redis.delivered == s.redis.delivered && s'.redis.pel == s.redis.pel
            && s'.redis.retry == s.redis.retry && s.redis.entries <= s'.redis.entries
            && s'.txs - {x} == s.txs - {x}
            && s.ledger.ids <= s'.ledger.ids && s'.ledger.hazards == s.ledger.hazards
            && s'.store.deliveries == (if a.CommitFanOut? then s.store.deliveries + s.txs[x].created else s.store.deliveries)
  {
  }

  /** Publishing is the only relay command that Redis sees. */
  lemma RelayEntries(s: State, x: Id, a: RelayAction)
    requires RelayEnabled(s, x, a)
    ensures var s' := RelayApply(s, x, a);
            && s'.ledger.sends == s.ledger.sends
            && |s'.redis.entries| <= |s.redis.entries| + 1
            && (if |s'.redis.entries| > |s.redis.entries|
                then x in s.txs && s.txs[x].unpublished == Some(s'.redis.entries[|s.redis.entries|].delivery)
                else s'.redis == s.redis)
  {
  }

  /** The acting transaction after the command. */
  lemma RelayTx(s: State, x: Id, a: RelayAction)
    requires RelayEnabled(s, x, a)
    ensures var s' := RelayApply(s, x, a);
            if a.CommitFanOut? || a.RollBack? then x !in s'.txs
            else && x in s'.txs
                 && (a.ClaimDue? || x in s.txs)
                 && s'.txs[x].created == (if a.ClaimDue? then map[]
                                          else if a.CreateDelivery?
                                          then s.txs[x].created[a.delivery := Create(s.txs[x].current.value, a.endpoint)]
                                          else s.txs[x].created)
                 && s'.txs[x].unpublished == (if a.CreateDelivery? then Some(a.delivery)
                                              else if a.Publish? || a.ClaimDue? then None
                                              else s.txs[x].unpublished)
                 && (s'.txs[x].unpublished.Some? && !a.ReadTargets? ==> s'.txs[x].current.Some?)
  {
  }

  lemma OtherTx(s: State, x: Id, a: RelayAction, y: Id)
    requires RelayEnabled(s, x, a) && y != x
    ensures var s' := RelayApply(s, x, a);
            (y in s'.txs <==> y in s.txs) && (y in s.txs ==> s'.txs[y] == s.txs[y])
  {
    var s' := RelayApply(s, x, a);
    RelayFrame(s, x, a);
    assert y in s'.txs <==> y in s'.txs - {x};
    assert y in s.txs <==> y in s.txs - {x};
    if y in s.txs {
      assert (s'.txs - {x})[y] == (s.txs - {x})[y];
    }
  }

  /** A known delivery that no open transaction inserted is never inserted later. */
  lemma StaysOutOfTxs(s: State, x: Id, a: RelayAction, d: Id)
    requires RelayEnabled(s, x, a) && d in s.ledger.ids && !Uncommitted(s, d)
    ensures !Uncommitted(RelayApply(s, x, a), d)
  {
    var s' := RelayApply(s, x, a);
    forall y | y in s'.txs ensures d !in s'.txs[y].created {
      if y == x { RelayTx(s, x, a); } else { OtherTx(s, x, a, y); }
    }
  }

  // ---------------------------------------------------------------- coroutines

  /** What a coroutine step leaves alone: it rewrites rows and moves messages, but never adds
      or removes a row or a stream entry. */
  lemma WorkFrame(s: State, cfg: Config, t: Id, a: WorkAction)
    requires WorkEnabled(s, cfg, t, a)
    ensures var s' := WorkApply(s, cfg, t, a);
            && s'.clock == s.clock
            && s'.txs == s.txs && s'.hand == s.hand && s'.replaying == s.replaying && s'.reading == s.reading
            && s'.redis.entries == s.redis.entries
  {
    WorkTxs(s, cfg, t, a);
    WorkHands(s, cfg, t, a);
    WorkEntries(s, cfg, t, a);
  }

  lemma WorkTxs(s: State, cfg: Config, t: Id, a: WorkAction)
    requires WorkEnabled(s, cfg, t, a)
    ensures WorkApply(s, cfg, t, a).txs == s.txs
  {
  }

  lemma WorkHands(s: State, cfg: Config, t: Id, a: WorkAction)
    requires WorkEnabled(s, cfg, t, a)
    ensures WorkApply(s, cfg, t, a).hand == s.hand && WorkApply(s, cfg, t, a).replaying == s.replaying
    ensures WorkApply(s, cfg, t, a).reading == s.reading
  {
  }

  lemma WorkEntries(s: State, cfg: Config, t: Id, a: WorkAction)
    requires WorkEnabled(s, cfg, t, a)
    ensures WorkApply(s, cfg, t, a).redis.entries == s.redis.entries && WorkApply(s, cfg, t, a).clock == s.clock
  {
  }

  lemma WorkStoreFrame(s: State, cfg: Config, t: Id, a: WorkAction)
    requires WorkEnabled(s, cfg, t, a)
    ensures var s' := WorkApply(s, cfg, t, a);
            && s'.store.events == s.store.events && s'.store.outbox == s.store.outbox
            && s'.store.endpoints == s.store.endpoints
  {
  }

  lemma WorkHazards(s: State, cfg: Config, t: Id, a: WorkAction)
    requires WorkEnabled(s, cfg, t, a)
    ensures s.ledger.hazards <= WorkApply(s, cfg, t, a).ledger.hazards
  {
  }

  lemma WorkFanOutAccount(s: State, cfg: Config, t: Id, a: WorkAction)
    requires WorkEnabled(s, cfg, t, a)
    ensures WorkApply(s, cfg, t, a).ledger.fanout == s.ledger.fanout
  {
  }

  /** Only a coroutine's first command draws an identifier: its own. */
  lemma StartIds(s: State, cfg: Config, t: Id, a: WorkAction)
    requires WorkEnabled(s, cfg, t, a) && (a.ReadNext? || a.ClaimStale?)
    ensures WorkApply(s, cfg, t, a).ledger.ids == s.ledger.ids + {t}
  {
  }

  lemma LaterIds(s: State, cfg: Config, t: Id, a: WorkAction)
    requires WorkEnabled(s, cfg, t, a) && !a.ReadNext? && !a.ClaimStale?
    ensures WorkApply(s, cfg, t, a).ledger.ids == s.ledger.ids
  {
  }

  lemma WorkLedgerFrame(s: State, cfg: Config, t: Id, a: WorkAction)
    requires WorkEnabled(s, cfg, t, a)
    ensures var s' := WorkApply(s, cfg, t, a);
            && s'.ledger.fanout == s.ledger.fanout
            && s'.ledger.ids == (if a.ReadNext? || a.ClaimStale? then s.ledger.ids + {t} else s.ledger.ids)
            && s.ledger.hazards <= s'.ledger.hazards
  {
    WorkHazards(s, cfg, t, a);
    WorkFanOutAccount(s, cfg, t, a);
    if a.ReadNext? || a.ClaimStale? { StartIds(s, cfg, t, a); } else { LaterIds(s, cfg, t, a); }
  }

  /** Only the two commits rewrite a row, and it is the row of the coroutine's own message. */
  lemma WorkRows(s: State, cfg: Config, t: Id, a: WorkAction)
    requires WorkEnabled(s, cfg, t, a)
    ensures var s' := WorkApply(s, cfg, t, a);
            if a.CommitDeferral? || a.CommitAttempt?
            then var d := TaskMessage(s, t).delivery;
                 d in s'.store.deliveries && s'.store.deliveries == s.store.deliveries[d := s'.store.deliveries[d]]
            else s'.store.deliveries == s.store.deliveries
  {
  }

  /** Only the acting coroutine moves. */
  lemma WorkTasks(s: State, cfg: Config, t: Id, a: WorkAction)
    requires WorkEnabled(s, cfg, t, a)
    ensures WorkApply(s, cfg, t, a).tasks - {t} == s.tasks - {t}
  {
  }

  /** It keeps its message, and it starts at a message just handed out. */
  lemma WorkTask(s: State, cfg: Config, t: Id, a: WorkAction)
    requires WorkEnabled(s, cfg, t, a) && t in WorkApply(s, cfg, t, a).tasks
    ensures var u := WorkApply(s, cfg, t, a).tasks[t];
            if a.ReadNext? then u == Task(s.redis.delivered, Dispatcher, Read)
            else if a.ClaimStale? then u == Task(a.msg, Reaper, Read)
            else t in s.tasks && u.msg == s.tasks[t].msg && u.role == s.tasks[t].role
  {
  }

  /** An acknowledgement and a death end the coroutine. */
  lemma EndLeavesNoTask(s: State, cfg: Config, t: Id, a: WorkAction)
    requires WorkEnabled(s, cfg, t, a) && (a.Ack? || a.Abort?)
    ensures t !in WorkApply(s, cfg, t, a).tasks
  {
  }

  lemma WorkRedis(s: State, cfg: Config, t: Id, a: WorkAction)
    requires WorkEnabled(s, cfg, t, a)
    ensures var s' := WorkApply(s, cfg, t, a);
            && s'.redis.delivered == s.redis.delivered + (if a.ReadNext? then 1 else 0)
            && s'.redis.pel.Keys == (if a.ReadNext? then s.redis.pel.Keys + {s.redis.delivered}
                                     else if a.Ack? then s.redis.pel.Keys - {s.tasks[t].msg}
                                     else s.redis.pel.Keys)
            && s'.redis.retry == (if a.ScheduleRetry? then s.redis.retry[TaskMessage(s, t) := s.tasks[t].phase.at]
                                  else s.redis.retry)
  {
  }

  /** The other coroutines, seen one at a time. */
  lemma OtherTask(s: State, cfg: Config, t: Id, a: WorkAction, u: Id)
    requires WorkEnabled(s, cfg, t, a) && u != t
    ensures var s' := WorkApply(s, cfg, t, a);
            (u in s'.tasks <==> u in s.tasks) && (u in s.tasks ==> s'.tasks[u] == s.tasks[u])
  {
    var s' := WorkApply(s, cfg, t, a);
    WorkTasks(s, cfg, t, a);
    assert u in s'.tasks <==> u in s'.tasks - {t};
    assert u in s.tasks <==> u in s.tasks - {t};
    if u in s.tasks {
      assert (s'.tasks - {t})[u] == (s.tasks - {t})[u];
    }
  }

  // ---------------------------------------------------------------- what only ever grows

  /** Facts that no step of anybody takes back; an acknowledged message is never pending again. */
  ghost predicate Grows(s: State, s': State) {
    && s.redis.entries <= s'.redis.entries
    && s.redis.delivered <= s'.redis.delivered
    && s.ledger.ids <= s'.ledger.ids
    && s.ledger.done <= s'.ledger.done
    && s.clock <= s'.clock
    && forall m | m in s'.redis.pel && m < s.redis.delivered :: m in s.redis.pel
  }

  lemma EnvGrows(s: State, a: EnvAction)
    requires EnvEnabled(s, a)
    ensures Grows(s, EnvApply(s, a))
  {
  }

  lemma RelayGrows(s: State, x: Id, a: RelayAction)
    requires RelayEnabled(s, x, a)
    ensures Grows(s, RelayApply(s, x, a))
  {
    RelayFrame(s, x, a);
  }

  lemma WorkDone(s: State, cfg: Config, t: Id, a: WorkAction)
    requires WorkEnabled(s, cfg, t, a)
    ensures s.ledger.done <= WorkApply(s, cfg, t, a).ledger.done
  {
  }

  lemma WorkPel(s: State, cfg: Config, t: Id, a: WorkAction)
    requires WorkEnabled(s, cfg, t, a)
    ensures forall m | m in WorkApply(s, cfg, t, a).redis.pel && m < s.redis.delivered :: m in s.redis.pel
  {
    WorkRedis(s, cfg, t, a);
    assert forall m :: m in WorkApply(s, cfg, t, a).redis.pel <==> m in WorkApply(s, cfg, t, a).redis.pel.Keys;
  }

  lemma WorkGrows(s: State, cfg: Config, t: Id, a: WorkAction)
    requires WorkEnabled(s, cfg, t, a)
    ensures Grows(s, WorkApply(s, cfg, t, a))
  {
    WorkFrame(s, cfg, t, a);
    WorkLedgerFrame(s, cfg, t, a);
    WorkRedis(s, cfg, t, a);
    WorkDone(s, cfg, t, a);
    WorkPel(s, cfg, t, a);
  }

  lemma SchedulerGrows(s: State, w: Id, a: SchedulerAction)
    requires SchedulerEnabled(s, w, a)
    ensures Grows(s, SchedulerApply(s, w, a))
  {
    SchedulerFrame(s, w, a);
  }

  lemma ReplayGrows(s: State, w: Id, a: ReplayAction)
    requires ReplayEnabled(s, w, a)
    ensures Grows(s, ReplayApply(s, w, a))
  {
    ReplayFrame(s, w, a);
  }

  lemma EverythingGrows(s: State, cfg: Config, a: Action)
    requires Enabled(s, cfg, a)
    ensures Grows(s, Apply(s, cfg, a))
  {
    match a
    case Environment(e) => EnvGrows(s, e);
    case RelayStep(x, r) => RelayGrows(s, x, r);
    case WorkStep(t, w) => WorkGrows(s, cfg, t, w);
    case SchedulerStep(w, b) => SchedulerGrows(s, w, b);
    case ReplayStep(w, b) => ReplayGrows(s, w, b);
  }

  /** One more step of a run. */
  lemma ExtendRun(cfg: Config, states: seq<State>, actions: seq<Action>, a: Action)
    requires IsRun(cfg, states, actions) && Enabled(states[|actions|], cfg, a)
    ensures IsRun(cfg, states + [Apply(states[|actions|], cfg, a)], actions + [a])
  {
    var states', actions' := states + [Apply(states[|actions|], cfg, a)], actions + [a];
    forall i | 0 <= i < |actions'| ensures StepAt(cfg, states', actions', i) {
      if i < |actions| { assert StepAt(cfg, states, actions, i); }
    }
  }
}
