/** What a fan-out transaction that does not commit, and a deleted endpoint, leave behind. */
module Orphans {
  import opened Prelude
  import opened Protocol
  import opened Frames
  import opened Invariants
  import opened AckJustified
  import opened FanOut

  lemma RollBackDrops(s: State, x: Id, d: Id)
    requires Wf(s) && x in s.txs && d in s.txs[x].created
    ensures Absent(RelayApply(s, x, RollBack), d)
  {
    var s' := RelayApply(s, x, RollBack);
    RelayFrame(s, x, RollBack);
    forall y | y in s'.txs ensures d !in s'.txs[y].created {
      OtherTx(s, x, RollBack, y);
    }
  }

  /** A delivery whose transaction rolled back never exists: not later either, because the next
      fan-out of the event draws fresh identifiers. The messages already published for it are
      orphans for good. */
  lemma RolledBackStaysAbsent(cfg: Config, states: seq<State>, actions: seq<Action>, i: nat, j: nat, x: Id, d: Id)
    requires IsRun(cfg, states, actions) && i < |actions| && i < j < |states|
    requires actions[i] == RelayStep(x, RollBack) && x in states[i].txs && d in states[i].txs[x].created
    ensures d !in states[j].store.deliveries && !Uncommitted(states[j], d)
  {
    RunIsWf(cfg, states, actions, i);
    assert StepAt(cfg, states, actions, i);
    RollBackDrops(states[i], x, d);
    AbsentForever(cfg, states, actions, i + 1, j, d);
  }

  /** And every outbox row it had claimed is pending and unlocked again, with no delivery row. */
  lemma RollBackReleasesBatch(cfg: Config, states: seq<State>, actions: seq<Action>, i: nat, x: Id, e: Id)
    requires IsRun(cfg, states, actions) && i < |actions|
    requires actions[i] == RelayStep(x, RollBack) && x in states[i].txs && e in states[i].txs[x].batch
    ensures var s := states[i + 1];
            && e in s.store.outbox && s.store.outbox[e].OutboxPending? && !Locked(s, e)
            && forall d | d in s.store.deliveries :: s.store.deliveries[d].eventId != e
  {
    RunFansOut(cfg, states, actions, i);
    assert StepAt(cfg, states, actions, i);
    var s := states[i];
    assert TxMatches(s.store, s.ledger.ids, s.txs[x]);
    ReleasesOne(s, x, e);
  }

  lemma ReleasesOne(s: State, x: Id, e: Id)
    requires LocksDisjoint(s) && x in s.txs && e in s.txs[x].batch
    ensures !Locked(RelayApply(s, x, RollBack), e)
  {
    var s' := RelayApply(s, x, RollBack);
    forall y | y in s'.txs ensures e !in s'.txs[y].batch {
      OtherTx(s, x, RollBack, y);
      assert s.txs[y].batch !! s.txs[x].batch;
    }
  }

  // ---------------------------------------------------------------- attempt rows

  /** Attempt rows go with their delivery. */
  ghost predicate NoOrphanRows(s: State) {
    forall d | d in s.store.log :: d in s.store.deliveries
  }

  lemma EnvLogs(s: State, a: EnvAction)
    requires NoOrphanRows(s) && EnvEnabled(s, a)
    ensures NoOrphanRows(EnvApply(s, a))
  {
  }

  lemma RelayLogs(s: State, x: Id, a: RelayAction)
    requires NoOrphanRows(s) && RelayEnabled(s, x, a)
    ensures NoOrphanRows(RelayApply(s, x, a))
  {
    RelayFrame(s, x, a);
    assert RelayApply(s, x, a).store.log == s.store.log;
  }

  lemma WorkLogs(s: State, cfg: Config, t: Id, a: WorkAction)
    requires NoOrphanRows(s) && WorkEnabled(s, cfg, t, a)
    ensures NoOrphanRows(WorkApply(s, cfg, t, a))
  {
    WorkRows(s, cfg, t, a);
    WorkLogKeys(s, cfg, t, a);
  }

  lemma WorkLogKeys(s: State, cfg: Config, t: Id, a: WorkAction)
    requires WorkEnabled(s, cfg, t, a)
    ensures WorkApply(s, cfg, t, a).store.log.Keys
         == (if a.CommitAttempt? then s.store.log.Keys + {TaskMessage(s, t).delivery} else s.store.log.Keys)
  {
  }

  /** In every reachable state each attempt row belongs to a delivery that exists: deleting an
      endpoint takes both. */
  lemma {:induction false} NoOrphanAttempts(cfg: Config, states: seq<State>, actions: seq<Action>, i: nat)
    requires IsRun(cfg, states, actions) && i < |states|
    ensures forall d | d in states[i].store.log :: d in states[i].store.deliveries
  {
    if i > 0 {
      NoOrphanAttempts(cfg, states, actions, i - 1);
      var s := states[i - 1];
      assert StepAt(cfg, states, actions, i - 1);
      match actions[i - 1]
      case Environment(e) => EnvLogs(s, e);
      case RelayStep(x, r) => RelayLogs(s, x, r);
      case WorkStep(t, w) => WorkLogs(s, cfg, t, w);
      case SchedulerStep(w, b) => SchedulerFrame(s, w, b);
      case ReplayStep(w, b) => ReplayFrame(s, w, b); assert states[i].store.log == s.store.log;
    }
  }
}
