/** Structural facts that hold in every reachable state. */
module Invariants {
  import opened Prelude
  import opened Protocol
  import opened Frames

  ghost predicate RedisWf(s: State) {
    && s.redis.delivered <= |s.redis.entries|
    && (forall m | m in s.redis.pel :: m < s.redis.delivered)
    && (forall t | t in s.tasks :: s.tasks[t].msg < s.redis.delivered)
  }

  /** Every delivery id any message names was drawn before. */
  ghost predicate NamesKnown(s: State) {
    && EntriesKnown(s)
    && RetriesKnown(s)
    && HandsKnown(s)
    && (forall w | w in s.replaying :: s.replaying[w] in s.ledger.ids)
  }

  ghost predicate EntriesKnown(s: State) {
    forall i | 0 <= i < |s.redis.entries| :: s.redis.entries[i].delivery in s.ledger.ids
  }

  ghost predicate RetriesKnown(s: State) {
    forall k | k in s.redis.retry :: k.delivery in s.ledger.ids
  }

  ghost predicate HandsKnown(s: State) {
    forall w, i | w in s.hand && 0 <= i < |s.hand[w]| :: s.hand[w][i].delivery in s.ledger.ids
  }

  /** Coroutines, transactions and replays carry ids drawn before, so a new one never takes the
      place of an old one. */
  ghost predicate ActorsKnown(s: State) {
    && (forall x | x in s.txs :: x in s.ledger.ids)
    && (forall t | t in s.tasks :: t in s.ledger.ids)
    && (forall w | w in s.replaying :: w in s.ledger.ids)
    && (forall w | w in s.reading :: w in s.ledger.ids && w !in s.replaying && DeadRow(s, s.reading[w]))
  }

  ghost predicate DeadRow(s: State, r: DeadRead) {
    r.delivery in s.ledger.ids && r.row.state.Dead?
  }

  /** Delivery rows, committed or not, have distinct and already drawn ids. */
  ghost predicate RowsWf(s: State) {
    && (forall d | d in s.store.deliveries :: d in s.ledger.ids)
    && (forall x, d | x in s.txs && d in s.txs[x].created :: d in s.ledger.ids && d !in s.store.deliveries)
    && (forall x, y, d | x in s.txs && y in s.txs && d in s.txs[x].created && d in s.txs[y].created :: x == y)
    && (forall x | x in s.txs && s.txs[x].unpublished.Some? ::
          s.txs[x].current.Some? && s.txs[x].unpublished.value in s.txs[x].created)
  }

  /** A reaper about to drop a message knows that the delivery is gone for good: not committed,
      and no open transaction can still commit it. Otherwise the drop was entered as a hazard
      when the lookup failed. */
  ghost predicate GoneIsGone(s: State) {
    forall t | t in s.tasks && s.tasks[t].phase.Gone? :: GoneTask(s, t)
  }

  ghost predicate GoneTask(s: State, t: Id)
    requires t in s.tasks
  {
    && s.tasks[t].role.Reaper?
    && s.tasks[t].msg < |s.redis.entries|
    && var d := TaskMessage(s, t).delivery;
       || Hazard(d, EarlyDrop) in s.ledger.hazards
       || (d !in s.store.deliveries && !Uncommitted(s, d))
  }

  ghost predicate Wf(s: State) {
    RedisWf(s) && NamesKnown(s) && ActorsKnown(s) && RowsWf(s) && GoneIsGone(s)
  }

  // ------------------------------------------------------- one group of actions at a time

  lemma WfEnvironment(s: State, a: EnvAction)
    requires Wf(s) && EnvEnabled(s, a)
    ensures Wf(EnvApply(s, a))
  {
    var s' := EnvApply(s, a);
    assert s'.txs == s.txs && s'.redis == s.redis && s'.tasks == s.tasks;
    assert s'.store.deliveries.Keys <= s.store.deliveries.Keys;
    GoneIsGoneFrame(s, s');
  }

  /** Losing rows never brings a dropped delivery back. */
  lemma GoneIsGoneFrame(s: State, s': State)
    requires RedisWf(s) && GoneIsGone(s)
    requires s'.store.deliveries.Keys <= s.store.deliveries.Keys
    requires s'.txs == s.txs && s'.tasks == s.tasks
    requires s.ledger.hazards <= s'.ledger.hazards
    requires s.redis.entries <= s'.redis.entries
    ensures GoneIsGone(s')
  {
    forall t | t in s'.tasks && s'.tasks[t].phase.Gone? ensures GoneTask(s', t) {
      assert GoneTask(s, t);
      assert TaskMessage(s', t) == TaskMessage(s, t);
      assert forall d :: Uncommitted(s', d) == Uncommitted(s, d);
    }
  }

  lemma RowsWfRelay(s: State, x: Id, a: RelayAction)
    requires Wf(s) && RelayEnabled(s, x, a)
    ensures RowsWf(RelayApply(s, x, a))
  {
    var s' := RelayApply(s, x, a);
    RelayFrame(s, x, a);
    RelayTx(s, x, a);
    forall y, d | y in s'.txs && d in s'.txs[y].created
      ensures d in s'.ledger.ids && d !in s'.store.deliveries
      ensures forall z | z in s'.txs && d in s'.txs[z].created :: z == y
    {
      if y != x { OtherTx(s, x, a, y); }
      forall z | z in s'.txs && d in s'.txs[z].created ensures z == y {
        if z != x { OtherTx(s, x, a, z); }
      }
    }
    forall y | y in s'.txs && s'.txs[y].unpublished.Some?
      ensures s'.txs[y].current.Some? && s'.txs[y].unpublished.value in s'.txs[y].created
    {
      if y != x { OtherTx(s, x, a, y); }
    }
  }

  lemma GoneIsGoneRelay(s: State, x: Id, a: RelayAction)
    requires Wf(s) && RelayEnabled(s, x, a)
    ensures GoneIsGone(RelayApply(s, x, a))
  {
    var s' := RelayApply(s, x, a);
    forall t | t in s'.tasks && s'.tasks[t].phase.Gone? ensures GoneTask(s', t) {
      assert GoneTask(s, t);
      var d := TaskMessage(s, t).delivery;
      assert d in s.ledger.ids;
      assert TaskMessage(s', t).delivery == d;
    }
  }

  lemma WfRelay(s: State, x: Id, a: RelayAction)
    requires Wf(s) && RelayEnabled(s, x, a)
    ensures Wf(RelayApply(s, x, a))
  {
    RowsWfRelay(s, x, a);
    GoneIsGoneRelay(s, x, a);
  }

  lemma RedisWfWork(s: State, cfg: Config, t: Id, a: WorkAction)
    requires Wf(s) && WorkEnabled(s, cfg, t, a)
    ensures RedisWf(WorkApply(s, cfg, t, a)) && ActorsKnown(WorkApply(s, cfg, t, a))
  {
    var s' := WorkApply(s, cfg, t, a);
    WorkFrame(s, cfg, t, a);
    WorkLedgerFrame(s, cfg, t, a);
    WorkRedis(s, cfg, t, a);
    if t in s'.tasks { WorkTask(s, cfg, t, a); }
    forall u | u in s'.tasks ensures s'.tasks[u].msg < s'.redis.delivered && u in s'.ledger.ids {
      if u != t { OtherTask(s, cfg, t, a, u); }
    }
  }

  lemma NamesKnownWork(s: State, cfg: Config, t: Id, a: WorkAction)
    requires Wf(s) && WorkEnabled(s, cfg, t, a)
    ensures NamesKnown(WorkApply(s, cfg, t, a))
  {
    WorkFrame(s, cfg, t, a);
    WorkLedgerFrame(s, cfg, t, a);
    WorkRedis(s, cfg, t, a);
  }

  /** Only a reaper's failed lookup makes a task that will drop its message. */
  lemma GoneByDrop(s: State, cfg: Config, t: Id, a: WorkAction)
    requires WorkEnabled(s, cfg, t, a) && t in WorkApply(s, cfg, t, a).tasks
    requires WorkApply(s, cfg, t, a).tasks[t].phase.Gone?
    ensures a.NotFound? && AtPhase(s, t) && s.tasks[t].role.Reaper? && WorkApply(s, cfg, t, a).tasks[t].msg == s.tasks[t].msg
  {
  }

  lemma DropShows(s: State, cfg: Config, t: Id)
    requires WorkEnabled(s, cfg, t, NotFound) && s.tasks[t].role.Reaper?
    ensures var s', d := WorkApply(s, cfg, t, NotFound), TaskMessage(s, t).delivery;
            && t in s'.tasks && s'.tasks[t] == s.tasks[t].(phase := Gone) && s'.redis == s.redis
            && s'.store == s.store && s'.txs == s.txs
            && (Uncommitted(s, d) ==> Hazard(d, EarlyDrop) in s'.ledger.hazards)
  {
  }

  lemma GoneTaskWork(s: State, cfg: Config, t: Id, a: WorkAction)
    requires Wf(s) && WorkEnabled(s, cfg, t, a)
    requires t in WorkApply(s, cfg, t, a).tasks && WorkApply(s, cfg, t, a).tasks[t].phase.Gone?
    ensures GoneTask(WorkApply(s, cfg, t, a), t)
  {
    GoneByDrop(s, cfg, t, a);
    DropShows(s, cfg, t);
    var d := TaskMessage(s, t).delivery;
    assert Uncommitted(WorkApply(s, cfg, t, a), d) == Uncommitted(s, d);
  }

  lemma GoneIsGoneWork(s: State, cfg: Config, t: Id, a: WorkAction)
    requires Wf(s) && WorkEnabled(s, cfg, t, a)
    ensures GoneIsGone(WorkApply(s, cfg, t, a))
  {
    var s' := WorkApply(s, cfg, t, a);
    WorkFrame(s, cfg, t, a);
    WorkLedgerFrame(s, cfg, t, a);
    WorkRows(s, cfg, t, a);
    forall u | u in s'.tasks && s'.tasks[u].phase.Gone? ensures GoneTask(s', u) {
      if u == t {
        GoneTaskWork(s, cfg, t, a);
      } else {
        OtherTask(s, cfg, t, a, u);
        assert GoneTask(s, u);
        assert Uncommitted(s', TaskMessage(s, u).delivery) == Uncommitted(s, TaskMessage(s, u).delivery);
      }
    }
  }

  lemma WfWork(s: State, cfg: Config, t: Id, a: WorkAction)
    requires Wf(s) && WorkEnabled(s, cfg, t, a)
    ensures Wf(WorkApply(s, cfg, t, a))
  {
    RedisWfWork(s, cfg, t, a);
    NamesKnownWork(s, cfg, t, a);
    WorkFrame(s, cfg, t, a);
    WorkLedgerFrame(s, cfg, t, a);
    WorkRows(s, cfg, t, a);
    GoneIsGoneWork(s, cfg, t, a);
  }

  lemma WfScheduler(s: State, w: Id, a: SchedulerAction)
    requires Wf(s) && SchedulerEnabled(s, w, a)
    ensures Wf(SchedulerApply(s, w, a))
  {
    GoneIsGoneFrame(s, SchedulerApply(s, w, a));
  }

  lemma WfReplay(s: State, w: Id, a: ReplayAction)
    requires Wf(s) && ReplayEnabled(s, w, a)
    ensures Wf(ReplayApply(s, w, a))
  {
    GoneIsGoneFrame(s, ReplayApply(s, w, a));
  }

  lemma WfStep(s: State, cfg: Config, a: Action)
    requires Wf(s) && Enabled(s, cfg, a)
    ensures Wf(Apply(s, cfg, a))
  {
    match a
    case Environment(e) => WfEnvironment(s, e);
    case RelayStep(x, r) => WfRelay(s, x, r);
    case WorkStep(t, w) => WfWork(s, cfg, t, w);
    case SchedulerStep(w, c) => WfScheduler(s, w, c);
    case ReplayStep(w, c) => WfReplay(s, w, c);
  }

  lemma {:induction false} RunIsWf(cfg: Config, states: seq<State>, actions: seq<Action>, i: nat)
    requires IsRun(cfg, states, actions) && i < |states|
    ensures Wf(states[i])
  {
    if i > 0 {
      RunIsWf(cfg, states, actions, i - 1);
      assert StepAt(cfg, states, actions, i - 1);
      WfStep(states[i - 1], cfg, actions[i - 1]);
    }
  }
}
