/** The guarantee is not unconditional: for each of the four crash windows, a concrete run at whose
    end a delivery that still has work to do is abandoned for good. */
module LostRetry {
  import opened Prelude
  import opened Deliveries
  import opened AttemptLogs
  import opened Protocol
  import opened Hazards
  import opened Scenarios

  // ---------------------------------------------------------------- a scheduler dies

  /** The attempt failed and the retry is committed, but not scheduled yet. */
  function Retrying(): State {
    var s := Waiting(None);
    s.(store := s.store.(deliveries := map[DELIVERY := Delivery(EVENT, ENDPOINT, DeliveryState.Retrying, 1, Some(0))],
                         log := map[DELIVERY := [LogRow(1, false)]]),
       tasks := map[WORKER := Task(0, Dispatcher, MustSchedule(0))],
       ledger := s.ledger.(recorded := map[DELIVERY := 1], committed := {0}))
  }

  lemma ReachRetrying(cfg: Config)
    requires cfg.maxAttempts >= 2
    ensures Reachable(cfg, Retrying())
  {
    ReachWaiting(cfg, None);
    var a := WorkStep(WORKER, CommitAttempt(false, 0));
    ReachStep(cfg, Waiting(None), a);
    var s1 := Apply(Waiting(None), cfg, a);
    assert s1.store.log[DELIVERY] == [LogRow(1, false)];
    assert s1 == Retrying();
  }

  /** The retry is scheduled and the message acknowledged. */
  function Scheduled(): State {
    var s := Retrying();
    s.(redis := Redis([Entry(None)], 1, map[], map[Entry(None) := 0]),
       tasks := map[],
       ledger := s.ledger.(done := {0}))
  }

  lemma ReachScheduled(cfg: Config)
    requires cfg.maxAttempts >= 2
    ensures Reachable(cfg, Scheduled())
  {
    ReachRetrying(cfg);
    var a1, a2 := WorkStep(WORKER, ScheduleRetry), WorkStep(WORKER, Ack);
    ReachStep(cfg, Retrying(), a1);
    var s1 := Apply(Retrying(), cfg, a1);
    ReachStep(cfg, s1, a2);
    assert Apply(s1, cfg, a2) == Scheduled();
  }

  /** The scheduler pops the due retry and dies before it re-adds it: the delivery has spent one
      of its attempts, its row says "retrying", and nothing will ever attempt it again. */
  lemma SchedulerDeathAbandons(cfg: Config)
    requires cfg.maxAttempts >= 2
    ensures exists s :: Reachable(cfg, s) && Abandoned(s, DELIVERY)
              && DELIVERY in s.store.deliveries && s.store.deliveries[DELIVERY].state.Retrying?
              && s.store.deliveries[DELIVERY].attemptCount < cfg.maxAttempts
  {
    ReachScheduled(cfg);
    PopsTo();
    ReachStep(cfg, Scheduled(), SchedulerStep(SCHEDULER, PopDue(Entry(None))));
    ReachStep(cfg, Popped(), SchedulerStep(SCHEDULER, CrashScheduler));
    DiesAbandoning();
  }

  /** The scheduler has taken the only member out of the retry set. */
  function Popped(): State {
    var s := Scheduled();
    s.(redis := Redis([Entry(None)], 1, map[], map[]), hand := map[SCHEDULER := [Entry(None)]])
  }

  lemma PopsTo()
    ensures SchedulerEnabled(Scheduled(), SCHEDULER, PopDue(Entry(None)))
    ensures SchedulerApply(Scheduled(), SCHEDULER, PopDue(Entry(None))) == Popped()
  {
    var s' := SchedulerApply(Scheduled(), SCHEDULER, PopDue(Entry(None)));
    assert s'.redis.retry == map[];
    assert HandOf(Scheduled(), SCHEDULER) + [Entry(None)] == [Entry(None)];
    assert s'.hand == map[SCHEDULER := [Entry(None)]];
  }

  lemma DiesAbandoning()
    ensures var s := SchedulerApply(Popped(), SCHEDULER, CrashScheduler);
            Abandoned(s, DELIVERY) && s.store == Scheduled().store
  {
    assert SchedulerApply(Popped(), SCHEDULER, CrashScheduler).hand == map[SCHEDULER := []];
  }

  // ---------------------------------------------------------------- a replay dies

  /** The replay dies between its commit and its publication: whatever the budget, the delivery has
      all of it again, and nothing will ever attempt it. */
  lemma ReplayDeathAbandons(cfg: Config)
    requires cfg.maxAttempts >= 1
    ensures exists s :: Reachable(cfg, s) && Abandoned(s, DELIVERY)
              && DELIVERY in s.store.deliveries && s.store.deliveries[DELIVERY].state.Pending?
              && Hazard(DELIVERY, ReplayCrash) in s.ledger.hazards
  {
    var s, row := ReachDead(cfg, None);
    var s1, w := ReadIt(cfg, s, None, row, map[]);
    var s2 := ResetIt(cfg, s1, None, row, map[w := DeadRead(DELIVERY, row)], w);
    assert s2.reading == map[];
    var a := ReplayStep(w, CrashReplay);
    ReachStep(cfg, s2, a);
    assert Abandoned(Apply(s2, cfg, a), DELIVERY);
  }

  // ---------------------------------------------------------------- a reaper drops too early

  /** The dispatcher that read the message found no row yet, and left the message alone. */
  function Left(): State {
    var s := Marked(None);
    s.(redis := Redis([Entry(None)], 1, map[0 := 0], map[]),
       ledger := s.ledger.(ids := {EVENT, ENDPOINT, RELAY, DELIVERY, WORKER}))
  }

  lemma ReachLeft(cfg: Config)
    ensures Reached(cfg, Left())
  {
    ReachMarked(cfg, None);
    ReachableIsReached(cfg, Marked(None));
    var a1, a2 := WorkStep(WORKER, ReadNext), WorkStep(WORKER, NotFound);
    Step(cfg, Marked(None), a1);
    var s1 := Apply(Marked(None), cfg, a1);
    Step(cfg, s1, a2);
    assert Apply(s1, cfg, a2) == Left();
  }

  /** Long enough after, a reaper claims it; the fan-out transaction is still open. */
  function Reclaimed(idle: Time): State {
    var s := Left();
    s.(clock := idle,
       redis := Redis([Entry(None)], 1, map[0 := idle], map[]),
       tasks := map[REAPER := Task(0, Reaper, Read)],
       ledger := s.ledger.(ids := {EVENT, ENDPOINT, RELAY, DELIVERY, WORKER, REAPER}))
  }

  lemma ReachReclaimed(cfg: Config)
    requires cfg.minIdle >= 0
    ensures Reached(cfg, Reclaimed(cfg.minIdle))
  {
    ReachLeft(cfg);
    var a1, a2 := Environment(Tick(cfg.minIdle)), WorkStep(REAPER, ClaimStale(0));
    Step(cfg, Left(), a1);
    var s1 := Apply(Left(), cfg, a1);
    Step(cfg, s1, a2);
    assert Apply(s1, cfg, a2) == Reclaimed(cfg.minIdle);
  }

  /** It finds no row either, and drops the message. */
  function DroppedEarly(idle: Time): State {
    var s := Reclaimed(idle);
    s.(redis := Redis([Entry(None)], 1, map[], map[]),
       tasks := map[],
       ledger := s.ledger.(hazards := {Hazard(DELIVERY, EarlyDrop)}))
  }

  lemma ReachDroppedEarly(cfg: Config)
    requires cfg.minIdle >= 0
    ensures Reached(cfg, DroppedEarly(cfg.minIdle))
  {
    ReachReclaimed(cfg);
    var s := Reclaimed(cfg.minIdle);
    var a1, a2 := WorkStep(REAPER, NotFound), WorkStep(REAPER, Ack);
    assert DELIVERY in s.txs[RELAY].created;
    assert Uncommitted(s, DELIVERY);
    Step(cfg, s, a1);
    var s1 := Apply(s, cfg, a1);
    Step(cfg, s1, a2);
    assert Apply(s1, cfg, a2) == DroppedEarly(cfg.minIdle);
  }

  /** Then the fan-out commits a delivery that no message is left for. */
  lemma EarlyDropAbandons(cfg: Config)
    requires cfg.minIdle >= 0
    ensures exists s :: Reached(cfg, s) && Abandoned(s, DELIVERY)
              && DELIVERY in s.store.deliveries && s.store.deliveries[DELIVERY].state.Pending?
              && Count(s.ledger.sends, DELIVERY) == 0
  {
    ReachDroppedEarly(cfg);
    var a := RelayStep(RELAY, CommitFanOut);
    Step(cfg, DroppedEarly(cfg.minIdle), a);
    assert Abandoned(Apply(DroppedEarly(cfg.minIdle), cfg, a), DELIVERY);
  }

  // ---------------------------------------------------------------- a robbed coroutine dies

  /** A reaper has claimed the message from the dispatcher that waits for its answer. */
  function Taken(idle: Time): State {
    var s := Waiting(None);
    s.(clock := idle,
       redis := Redis([Entry(None)], 1, map[0 := idle], map[]),
       tasks := s.tasks[REAPER := Task(0, Reaper, Read)],
       ledger := s.ledger.(ids := {EVENT, ENDPOINT, RELAY, DELIVERY, WORKER, REAPER}))
  }

  lemma ReachTaken(cfg: Config)
    requires cfg.minIdle >= 0
    ensures Reached(cfg, Taken(cfg.minIdle))
  {
    ReachWaiting(cfg, None);
    ReachableIsReached(cfg, Waiting(None));
    Step(cfg, Waiting(None), Environment(Tick(cfg.minIdle)));
    ClaimsTo(cfg);
    Step(cfg, Waiting(None).(clock := cfg.minIdle), WorkStep(REAPER, ClaimStale(0)));
  }

  lemma ClaimsTo(cfg: Config)
    requires cfg.minIdle >= 0
    ensures var s := Waiting(None).(clock := cfg.minIdle);
            && WorkEnabled(s, cfg, REAPER, ClaimStale(0))
            && WorkApply(s, cfg, REAPER, ClaimStale(0)) == Taken(cfg.minIdle)
  {
  }

  /** It has read the row, fresh as it still is, and sent a request of its own. */
  function Robbed(idle: Time): State {
    var s := Taken(idle);
    s.(tasks := s.tasks[REAPER := Task(0, Reaper, Requested(Create(EVENT, ENDPOINT)))],
       ledger := s.ledger.(sends := map[DELIVERY := 2]))
  }

  function Begun(idle: Time): State {
    var s := Taken(idle);
    s.(tasks := s.tasks[REAPER := Task(0, Reaper, Attempting(Create(EVENT, ENDPOINT)))])
  }

  lemma BeginsTo(cfg: Config, idle: Time)
    ensures WorkEnabled(Taken(idle), cfg, REAPER, BeginAttempt)
    ensures WorkApply(Taken(idle), cfg, REAPER, BeginAttempt) == Begun(idle)
  {
    assert WorkApply(Taken(idle), cfg, REAPER, BeginAttempt).tasks == Begun(idle).tasks;
  }

  lemma SendsTo(cfg: Config, idle: Time)
    ensures WorkEnabled(Begun(idle), cfg, REAPER, Request)
    ensures WorkApply(Begun(idle), cfg, REAPER, Request) == Robbed(idle)
  {
    var s' := WorkApply(Begun(idle), cfg, REAPER, Request);
    assert s'.tasks == Robbed(idle).tasks;
    assert s'.ledger == Robbed(idle).ledger;
  }

  lemma ReachRobbed(cfg: Config)
    requires cfg.minIdle >= 0
    ensures Reached(cfg, Robbed(cfg.minIdle))
  {
    ReachTaken(cfg);
    BeginsTo(cfg, cfg.minIdle);
    Step(cfg, Taken(cfg.minIdle), WorkStep(REAPER, BeginAttempt));
    SendsTo(cfg, cfg.minIdle);
    Step(cfg, Begun(cfg.minIdle), WorkStep(REAPER, Request));
  }

  /** The reaper's request succeeded, and it committed. */
  function Recorded(idle: Time): State {
    var s := Robbed(idle);
    s.(store := s.store.(deliveries := map[DELIVERY := Delivery(EVENT, ENDPOINT, DeliveryState.Delivered, 1, None)],
                         log := map[DELIVERY := [LogRow(1, true)]]),
       tasks := s.tasks[REAPER := Task(0, Reaper, ReadyToAck)],
       ledger := s.ledger.(recorded := map[DELIVERY := 1], committed := {0}, done := {0}))
  }

  lemma SucceedsTo(cfg: Config, idle: Time)
    ensures WorkEnabled(Robbed(idle), cfg, REAPER, CommitAttempt(true, 0))
    ensures WorkApply(Robbed(idle), cfg, REAPER, CommitAttempt(true, 0)) == Recorded(idle)
  {
    var s' := Record(Robbed(idle), cfg, REAPER, true, 0);
    assert s'.store.log[DELIVERY] == [LogRow(1, true)];
    assert s'.store == Recorded(idle).store;
    assert s'.tasks == Recorded(idle).tasks;
    assert s'.ledger == Recorded(idle).ledger;
  }

  /** And it acknowledged the message. */
  function Acknowledged(idle: Time): State {
    var s := Recorded(idle);
    s.(redis := Redis([Entry(None)], 1, map[], map[]), tasks := Waiting(None).tasks)
  }

  lemma AcksTo(cfg: Config, idle: Time)
    ensures WorkEnabled(Recorded(idle), cfg, REAPER, Ack)
    ensures WorkApply(Recorded(idle), cfg, REAPER, Ack) == Acknowledged(idle)
  {
    var s' := WorkApply(Recorded(idle), cfg, REAPER, Ack);
    assert s'.tasks == Acknowledged(idle).tasks;
    assert s'.redis == Acknowledged(idle).redis;
  }

  lemma ReachAcknowledged(cfg: Config)
    requires cfg.minIdle >= 0
    ensures Reached(cfg, Acknowledged(cfg.minIdle))
  {
    ReachRobbed(cfg);
    SucceedsTo(cfg, cfg.minIdle);
    Step(cfg, Robbed(cfg.minIdle), WorkStep(REAPER, CommitAttempt(true, 0)));
    AcksTo(cfg, cfg.minIdle);
    Step(cfg, Recorded(cfg.minIdle), WorkStep(REAPER, Ack));
  }

  /** The dispatcher's own request failed, and its commit overwrites the row. */
  function Overwritten(idle: Time): State {
    var s := Acknowledged(idle);
    s.(store := s.store.(deliveries := map[DELIVERY := Delivery(EVENT, ENDPOINT, DeliveryState.Retrying, 1, Some(0))],
                         log := map[DELIVERY := [LogRow(1, true), LogRow(1, false)]]),
       tasks := map[WORKER := Task(0, Dispatcher, MustSchedule(0))],
       ledger := s.ledger.(recorded := map[DELIVERY := 2]))
  }

  lemma OverwritesTo(cfg: Config, idle: Time)
    requires cfg.maxAttempts >= 2
    ensures WorkEnabled(Acknowledged(idle), cfg, WORKER, CommitAttempt(false, 0))
    ensures WorkApply(Acknowledged(idle), cfg, WORKER, CommitAttempt(false, 0)) == Overwritten(idle)
  {
    OverwritesStore(cfg, idle);
    var s' := Record(Acknowledged(idle), cfg, WORKER, false, 0);
    assert s'.tasks == Overwritten(idle).tasks;
    assert s'.ledger == Overwritten(idle).ledger;
  }

  lemma OverwritesStore(cfg: Config, idle: Time)
    requires cfg.maxAttempts >= 2
    ensures Record(Acknowledged(idle), cfg, WORKER, false, 0).store == Overwritten(idle).store
  {
    var s' := Record(Acknowledged(idle), cfg, WORKER, false, 0);
    assert s'.store.log[DELIVERY] == [LogRow(1, true), LogRow(1, false)];
  }

  lemma ReachOverwritten(cfg: Config)
    requires cfg.minIdle >= 0 && cfg.maxAttempts >= 2
    ensures Reached(cfg, Overwritten(cfg.minIdle))
  {
    ReachAcknowledged(cfg);
    OverwritesTo(cfg, cfg.minIdle);
    Step(cfg, Acknowledged(cfg.minIdle), WorkStep(WORKER, CommitAttempt(false, 0)));
  }

  /** It dies before it schedules the retry, and the message it was handed is long acknowledged. */
  lemma RobbedDeathAbandons(cfg: Config)
    requires cfg.minIdle >= 0 && cfg.maxAttempts >= 2
    ensures exists s :: Reached(cfg, s) && Abandoned(s, DELIVERY)
              && DELIVERY in s.store.deliveries && s.store.deliveries[DELIVERY].state.Retrying?
              && Hazard(DELIVERY, RobbedCrash) in s.ledger.hazards
  {
    ReachOverwritten(cfg);
    var a := WorkStep(WORKER, Abort);
    Step(cfg, Overwritten(cfg.minIdle), a);
    assert Abandoned(Apply(Overwritten(cfg.minIdle), cfg, a), DELIVERY);
  }
}
