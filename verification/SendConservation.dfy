/** Requests are conserved: every request that left the system is a recorded attempt, a request
    whose coroutine died before its commit, or one still in flight. */
module SendConservation {
  import opened Prelude
  import opened Protocol
  import opened Frames
  import opened Invariants

  /** The coroutines that have sent a request for `d` and not committed its outcome. */
  ghost function InFlight(s: State, d: Id): set<Id> {
    set t | t in s.tasks && AtPhase(s, t) && s.tasks[t].phase.Requested? && TaskMessage(s, t).delivery == d
  }

  ghost predicate Conserved(s: State, d: Id) {
    Count(s.ledger.sends, d) == Count(s.ledger.recorded, d) + Count(s.ledger.aborted, d) + |InFlight(s, d)|
  }

  /** While the row exists, what was recorded is its log; before it is committed, nothing was. */
  ghost predicate LogCounts(s: State, d: Id) {
    && (d in s.store.deliveries ==> Count(s.ledger.recorded, d) == |LogOf(s.store, d)|)
    && (d !in s.ledger.ids || Uncommitted(s, d) ==> Count(s.ledger.recorded, d) == 0 && LogOf(s.store, d) == [])
  }

  // ---------------------------------------------------------------- coroutines

  lemma RequestsUnmoved(s: State, cfg: Config, t: Id, a: WorkAction, d: Id)
    requires Wf(s) && WorkEnabled(s, cfg, t, a)
    ensures var s' := WorkApply(s, cfg, t, a);
            InFlight(s', d) - {t} == InFlight(s, d) - {t}
  {
    var s' := WorkApply(s, cfg, t, a);
    WorkFrame(s, cfg, t, a);
    forall u | u != t ensures u in InFlight(s', d) <==> u in InFlight(s, d) {
      OtherTask(s, cfg, t, a, u);
    }
  }

  /** Whether the acting coroutine is in flight for `d`, before and after. */
  lemma OwnRequest(s: State, cfg: Config, t: Id, a: WorkAction, d: Id)
    requires Wf(s) && WorkEnabled(s, cfg, t, a)
    ensures var s' := WorkApply(s, cfg, t, a);
            && (t in InFlight(s', d) <==> a.Request? && TaskMessage(s, t).delivery == d)
            && (t in InFlight(s, d) ==> a.CommitAttempt? || a.Abort?)
            && (a.CommitAttempt? ==> (t in InFlight(s, d) <==> TaskMessage(s, t).delivery == d))
  {
    if a.ReadNext? || a.ClaimStale? { StartsReading(s, cfg, t, a); }
    if a.Ack? || a.Abort? { EndLeavesNoTask(s, cfg, t, a); }
  }

  lemma StartsReading(s: State, cfg: Config, t: Id, a: WorkAction)
    requires WorkEnabled(s, cfg, t, a) && (a.ReadNext? || a.ClaimStale?)
    ensures t in WorkApply(s, cfg, t, a).tasks && WorkApply(s, cfg, t, a).tasks[t].phase.Read?
  {
  }

  lemma SendCount(s: State, cfg: Config, t: Id, a: WorkAction, d: Id)
    requires WorkEnabled(s, cfg, t, a)
    ensures Count(WorkApply(s, cfg, t, a).ledger.sends, d)
         == Count(s.ledger.sends, d) + (if a.Request? && TaskMessage(s, t).delivery == d then 1 else 0)
  {
  }

  lemma RecordedCount(s: State, cfg: Config, t: Id, a: WorkAction, d: Id)
    requires WorkEnabled(s, cfg, t, a)
    ensures Count(WorkApply(s, cfg, t, a).ledger.recorded, d)
         == Count(s.ledger.recorded, d) + (if a.CommitAttempt? && TaskMessage(s, t).delivery == d then 1 else 0)
  {
  }

  lemma AbortedCount(s: State, cfg: Config, t: Id, a: WorkAction, d: Id)
    requires WorkEnabled(s, cfg, t, a)
    ensures Count(WorkApply(s, cfg, t, a).ledger.aborted, d)
         == Count(s.ledger.aborted, d) + (if a.Abort? && t in InFlight(s, d) then 1 else 0)
  {
    if !a.Abort? { NobodyAborted(s, cfg, t, a); }
  }

  lemma NobodyAborted(s: State, cfg: Config, t: Id, a: WorkAction)
    requires WorkEnabled(s, cfg, t, a) && !a.Abort?
    ensures WorkApply(s, cfg, t, a).ledger.aborted == s.ledger.aborted
  {
  }

  lemma CardinalityOfUpdate(a: set<Id>, b: set<Id>, t: Id)
    requires a - {t} == b - {t}
    ensures |a| == |b| - (if t in b then 1 else 0) + (if t in a then 1 else 0)
  {
    assert t in a ==> a == (a - {t}) + {t};
    assert t !in a ==> a == a - {t};
    assert t in b ==> b == (b - {t}) + {t};
    assert t !in b ==> b == b - {t};
  }

  lemma ConservedWork(s: State, cfg: Config, t: Id, a: WorkAction, d: Id)
    requires Wf(s) && Conserved(s, d) && WorkEnabled(s, cfg, t, a)
    ensures Conserved(WorkApply(s, cfg, t, a), d)
  {
    RequestsUnmoved(s, cfg, t, a, d);
    OwnRequest(s, cfg, t, a, d);
    SendCount(s, cfg, t, a, d);
    RecordedCount(s, cfg, t, a, d);
    AbortedCount(s, cfg, t, a, d);
    CardinalityOfUpdate(InFlight(WorkApply(s, cfg, t, a), d), InFlight(s, d), t);
  }

  lemma LogStep(s: State, cfg: Config, t: Id, a: WorkAction, d: Id)
    requires WorkEnabled(s, cfg, t, a)
    ensures var n := |LogOf(WorkApply(s, cfg, t, a).store, d)|;
            if a.CommitAttempt? && TaskMessage(s, t).delivery == d
            then d in s.store.deliveries && n == |LogOf(s.store, d)| + 1
            else n == |LogOf(s.store, d)|
  {
  }

  lemma LogCountsWork(s: State, cfg: Config, t: Id, a: WorkAction, d: Id)
    requires Wf(s) && LogCounts(s, d) && WorkEnabled(s, cfg, t, a)
    ensures LogCounts(WorkApply(s, cfg, t, a), d)
  {
    WorkFrame(s, cfg, t, a);
    WorkLedgerFrame(s, cfg, t, a);
    WorkRows(s, cfg, t, a);
    RecordedCount(s, cfg, t, a, d);
    LogStep(s, cfg, t, a, d);
    WorkCommitsKnown(s, cfg, t, a);
    assert Uncommitted(WorkApply(s, cfg, t, a), d) == Uncommitted(s, d);
  }

  lemma WorkCommitsKnown(s: State, cfg: Config, t: Id, a: WorkAction)
    requires WorkEnabled(s, cfg, t, a)
    ensures a.CommitDeferral? || a.CommitAttempt? ==> TaskMessage(s, t).delivery in s.store.deliveries
  {
  }

  // ---------------------------------------------------------------- the others

  /** Steps that leave the coroutines and the three counters alone. */
  lemma ConservedFrame(s: State, s': State, d: Id)
    requires RedisWf(s) && Conserved(s, d)
    requires s'.tasks == s.tasks && s.redis.entries <= s'.redis.entries
    requires s'.ledger.sends == s.ledger.sends && s'.ledger.recorded == s.ledger.recorded
    requires s'.ledger.aborted == s.ledger.aborted
    ensures Conserved(s', d)
  {
    forall t ensures t in InFlight(s', d) <==> t in InFlight(s, d) {
      if t in s.tasks { assert s'.redis.entries[s.tasks[t].msg] == s.redis.entries[s.tasks[t].msg]; }
    }
    assert InFlight(s', d) == InFlight(s, d);
  }

  lemma CountersRelay(s: State, x: Id, a: RelayAction)
    requires RelayEnabled(s, x, a)
    ensures var l, l' := s.ledger, RelayApply(s, x, a).ledger;
            && l'.sends == l.sends && l'.recorded == l.recorded && l'.aborted == l.aborted
            && RelayApply(s, x, a).store.log == s.store.log
  {
  }

  lemma LogCountsRelay(s: State, x: Id, a: RelayAction, d: Id)
    requires Wf(s) && LogCounts(s, d) && RelayEnabled(s, x, a)
    ensures LogCounts(RelayApply(s, x, a), d)
  {
    RelayFrame(s, x, a);
    CountersRelay(s, x, a);
    if d in s.ledger.ids && !Uncommitted(s, d) {
      StaysOutOfTxs(s, x, a, d);
    }
  }

  lemma CountersScheduler(s: State, w: Id, a: SchedulerAction)
    requires SchedulerEnabled(s, w, a)
    ensures var l, l' := s.ledger, SchedulerApply(s, w, a).ledger;
            l'.sends == l.sends && l'.recorded == l.recorded && l'.aborted == l.aborted
  {
  }

  lemma CountersReplay(s: State, w: Id, a: ReplayAction)
    requires ReplayEnabled(s, w, a)
    ensures var l, l' := s.ledger, ReplayApply(s, w, a).ledger;
            && l'.sends == l.sends && l'.recorded == l.recorded && l'.aborted == l.aborted
            && ReplayApply(s, w, a).store.log == s.store.log
  {
  }

  lemma CountersEnvironment(s: State, a: EnvAction)
    requires EnvEnabled(s, a)
    ensures var l, l' := s.ledger, EnvApply(s, a).ledger;
            && l'.sends == l.sends && l'.recorded == l.recorded && l'.aborted == l.aborted
            && forall d :: (d in EnvApply(s, a).store.deliveries ==> LogOf(EnvApply(s, a).store, d) == LogOf(s.store, d))
                        && (LogOf(s.store, d) == [] ==> LogOf(EnvApply(s, a).store, d) == [])
  {
    EnvFrame(s, a);
  }

  lemma ConservationStep(s: State, cfg: Config, a: Action, d: Id)
    requires Wf(s) && Conserved(s, d) && LogCounts(s, d) && Enabled(s, cfg, a)
    ensures Conserved(Apply(s, cfg, a), d) && LogCounts(Apply(s, cfg, a), d)
  {
    var s' := Apply(s, cfg, a);
    match a
    case Environment(e) =>
      EnvFrame(s, e); CountersEnvironment(s, e); ConservedFrame(s, s', d);
      assert Uncommitted(s', d) == Uncommitted(s, d);
    case RelayStep(x, r) =>
      RelayFrame(s, x, r); CountersRelay(s, x, r); ConservedFrame(s, s', d); LogCountsRelay(s, x, r, d);
    case WorkStep(t, w) =>
      ConservedWork(s, cfg, t, w, d); LogCountsWork(s, cfg, t, w, d);
    case SchedulerStep(w, b) =>
      SchedulerFrame(s, w, b); CountersScheduler(s, w, b); ConservedFrame(s, s', d);
      assert Uncommitted(s', d) == Uncommitted(s, d);
    case ReplayStep(w, b) =>
      ReplayFrame(s, w, b); CountersReplay(s, w, b); ConservedFrame(s, s', d);
      assert Uncommitted(s', d) == Uncommitted(s, d);
  }

  lemma {:induction false} RunConserves(cfg: Config, states: seq<State>, actions: seq<Action>, i: nat, d: Id)
    requires IsRun(cfg, states, actions) && i < |states|
    ensures Conserved(states[i], d) && LogCounts(states[i], d)
  {
    if i > 0 {
      RunConserves(cfg, states, actions, i - 1, d);
      RunIsWf(cfg, states, actions, i - 1);
      assert StepAt(cfg, states, actions, i - 1);
      ConservationStep(states[i - 1], cfg, actions[i - 1], d);
    } else {
      assert InFlight(states[0], d) == {};
    }
  }

  /** For every delivery row: requests sent = rows of its attempt log + requests whose coroutine
      died before committing + requests in flight. So a receiver sees at most one request more
      than the log shows for every such death and every request still open. */
  lemma SendsAreConserved(cfg: Config, states: seq<State>, actions: seq<Action>, i: nat, d: Id)
    requires IsRun(cfg, states, actions) && i < |states| && d in states[i].store.deliveries
    ensures var s := states[i];
            Count(s.ledger.sends, d) == |LogOf(s.store, d)| + Count(s.ledger.aborted, d) + |InFlight(s, d)|
  {
    RunConserves(cfg, states, actions, i, d);
  }
}
