/** In clean runs the committed row and the committed attempt log tell one story. */
module CleanLog {
  import opened Prelude
  import opened Deliveries
  import opened AttemptLogs
  import opened Protocol
  import opened Frames
  import opened Invariants
  import opened CleanRuns
  import opened CleanSpec
  import opened SendConservation

  /** Rows not committed yet have not been touched. */
  ghost predicate CreatedAreFresh(s: State) {
    forall x, d | x in s.txs && d in s.txs[x].created ::
      s.txs[x].created[d] == Create(s.txs[x].created[d].eventId, s.txs[x].created[d].endpointId)
  }

  ghost predicate Told(s: State, cfg: Config, d: Id) {
    d in s.store.deliveries ==> RowRefinesLog(cfg.maxAttempts, s.store.deliveries[d], LogOf(s.store, d))
  }

  lemma CreatedRelay(s: State, x: Id, a: RelayAction)
    requires CreatedAreFresh(s) && RelayEnabled(s, x, a)
    ensures CreatedAreFresh(RelayApply(s, x, a))
  {
    var s' := RelayApply(s, x, a);
    forall y, d | y in s'.txs && d in s'.txs[y].created
      ensures s'.txs[y].created[d] == Create(s'.txs[y].created[d].eventId, s'.txs[y].created[d].endpointId)
    {
      if y == x { RelayTx(s, x, a); } else { OtherTx(s, x, a, y); }
    }
  }

  lemma CreatedStep(s: State, cfg: Config, a: Action)
    requires CreatedAreFresh(s) && Enabled(s, cfg, a)
    ensures CreatedAreFresh(Apply(s, cfg, a))
  {
    match a
    case Environment(e) => EnvFrame(s, e);
    case RelayStep(x, r) => CreatedRelay(s, x, r);
    case WorkStep(t, w) => WorkFrame(s, cfg, t, w);
    case SchedulerStep(w, b) => SchedulerFrame(s, w, b);
    case ReplayStep(w, b) => ReplayFrame(s, w, b);
  }

  lemma ToldRelay(s: State, cfg: Config, x: Id, a: RelayAction, d: Id)
    requires CreatedAreFresh(s) && LogCounts(s, d) && Told(s, cfg, d) && RelayEnabled(s, x, a)
    ensures Told(RelayApply(s, x, a), cfg, d)
  {
    RelayFrame(s, x, a);
    CountersRelay(s, x, a);
  }

  /** The row a commit writes and the log row it appends come from the committed row. */
  lemma CommitTells(s: State, cfg: Config, t: Id, a: WorkAction, d: Id)
    requires WorkEnabled(s, cfg, t, a) && (a.CommitDeferral? || a.CommitAttempt?) && TaskMessage(s, t).delivery == d
    requires Told(s, cfg, d) && s.store.deliveries[d] == s.tasks[t].phase.row && s.store.deliveries[d].Live()
    ensures Told(WorkApply(s, cfg, t, a), cfg, d)
  {
    if a.CommitAttempt? {
      SendRefines(cfg.maxAttempts, s.store.deliveries[d], LogOf(s.store, d), a.ok, a.at);
    }
  }

  lemma LogElsewhere(s: State, cfg: Config, t: Id, a: WorkAction, d: Id)
    requires WorkEnabled(s, cfg, t, a)
    requires (a.CommitDeferral? || a.CommitAttempt?) ==> TaskMessage(s, t).delivery != d
    ensures LogOf(WorkApply(s, cfg, t, a).store, d) == LogOf(s.store, d)
  {
  }

  lemma ToldWork(s: State, cfg: Config, t: Id, a: WorkAction, d: Id)
    requires CleanInv(s, cfg) && Told(s, cfg, d) && WorkEnabled(s, cfg, t, a)
    ensures Told(WorkApply(s, cfg, t, a), cfg, d)
  {
    if a.CommitDeferral? || a.CommitAttempt? {
      CommitIsAlone(s, cfg, t, a);
      if TaskMessage(s, t).delivery == d {
        CommitTells(s, cfg, t, a, d);
        return;
      }
    }
    WorkRows(s, cfg, t, a);
    LogElsewhere(s, cfg, t, a, d);
  }

  lemma ToldReplay(s: State, cfg: Config, w: Id, a: ReplayAction, d: Id)
    requires Wf(s) && Told(s, cfg, d) && ReplayEnabled(s, w, a) && ResetsWhatItRead(s, ReplayStep(w, a))
    ensures Told(ReplayApply(s, w, a), cfg, d)
  {
    ReplayFrame(s, w, a);
    CountersReplay(s, w, a);
    ResetReadsDead(s, w, a);
  }

  lemma ToldStep(s: State, cfg: Config, a: Action, d: Id)
    requires CleanInv(s, cfg) && CreatedAreFresh(s) && LogCounts(s, d) && Told(s, cfg, d) && Enabled(s, cfg, a)
    requires CleanAction(s, a)
    ensures Told(Apply(s, cfg, a), cfg, d)
  {
    match a
    case Environment(e) => EnvFrame(s, e); CountersEnvironment(s, e);
    case RelayStep(x, r) => ToldRelay(s, cfg, x, r, d);
    case WorkStep(t, w) => ToldWork(s, cfg, t, w, d);
    case SchedulerStep(w, b) => SchedulerFrame(s, w, b);
    case ReplayStep(w, b) => ToldReplay(s, cfg, w, b, d);
  }

  lemma {:induction false} RunCreatesFresh(cfg: Config, states: seq<State>, actions: seq<Action>, i: nat)
    requires IsRun(cfg, states, actions) && i < |states|
    ensures CreatedAreFresh(states[i])
  {
    if i > 0 {
      RunCreatesFresh(cfg, states, actions, i - 1);
      assert StepAt(cfg, states, actions, i - 1);
      CreatedStep(states[i - 1], cfg, actions[i - 1]);
    }
  }

  lemma RunStepTells(cfg: Config, states: seq<State>, actions: seq<Action>, i: nat, d: Id)
    requires IsRun(cfg, states, actions) && CleanRun(states, actions) && i < |actions| && cfg.maxAttempts >= 1
    requires Told(states[i], cfg, d)
    ensures Told(states[i + 1], cfg, d)
  {
    RunIsClean(cfg, states, actions, i);
    RunConserves(cfg, states, actions, i, d);
    RunCreatesFresh(cfg, states, actions, i);
    assert StepAt(cfg, states, actions, i);
    ToldStep(states[i], cfg, actions[i], d);
  }

  /** Without redelivery after a commit, and with crashes anywhere, every committed row agrees with
      its committed log: the count is the last attempt's number, the state is the last attempt's
      outcome, and the numbers run in full chains. */
  lemma {:induction false} CleanRowsRefineLogs(cfg: Config, states: seq<State>, actions: seq<Action>, i: nat, d: Id)
    requires IsRun(cfg, states, actions) && CleanRun(states, actions) && i < |states| && cfg.maxAttempts >= 1
    ensures d in states[i].store.deliveries ==>
              RowRefinesLog(cfg.maxAttempts, states[i].store.deliveries[d], LogOf(states[i].store, d))
  {
    if i > 0 {
      CleanRowsRefineLogs(cfg, states, actions, i - 1, d);
      RunStepTells(cfg, states, actions, i - 1, d);
    }
  }

  // ---------------------------------------------------------------- how many requests that makes

  predicate Resets(a: Action, d: Id) { a.ReplayStep? && a.reset == CommitReset(d) }

  /** How often a delivery was reset. */
  function ResetCount(actions: seq<Action>, d: Id): nat {
    if actions == [] then 0
    else ResetCount(actions[..|actions| - 1], d) + (if Resets(actions[|actions| - 1], d) then 1 else 0)
  }

  /** `n` full chains and the current one. */
  predicate LogFits(s: State, maxAttempts: int, n: nat, d: Id) {
    d in s.store.deliveries ==> |LogOf(s.store, d)| <= maxAttempts * n + s.store.deliveries[d].attemptCount
  }

  lemma CommitFits(s: State, cfg: Config, t: Id, a: WorkAction, n: nat, d: Id)
    requires WorkEnabled(s, cfg, t, a) && (a.CommitDeferral? || a.CommitAttempt?) && TaskMessage(s, t).delivery == d
    requires LogFits(s, cfg.maxAttempts, n, d) && s.store.deliveries[d] == s.tasks[t].phase.row
    ensures LogFits(WorkApply(s, cfg, t, a), cfg.maxAttempts, n, d)
  {
  }

  lemma WorkFits(s: State, cfg: Config, t: Id, a: WorkAction, n: nat, d: Id)
    requires CleanInv(s, cfg) && LogFits(s, cfg.maxAttempts, n, d) && WorkEnabled(s, cfg, t, a)
    ensures LogFits(WorkApply(s, cfg, t, a), cfg.maxAttempts, n, d)
  {
    if a.CommitDeferral? || a.CommitAttempt? {
      CommitIsAlone(s, cfg, t, a);
      if TaskMessage(s, t).delivery == d {
        CommitFits(s, cfg, t, a, n, d);
        return;
      }
    }
    WorkRows(s, cfg, t, a);
    LogElsewhere(s, cfg, t, a, d);
  }

  lemma OneMoreChain(maxAttempts: int, n: nat)
    ensures maxAttempts * (n + 1) == maxAttempts * n + maxAttempts
  {
  }

  /** A reset closes a chain that is no longer than the budget. */
  lemma ReplayFits(s: State, cfg: Config, w: Id, a: ReplayAction, n: nat, d: Id)
    requires CleanInv(s, cfg) && LogFits(s, cfg.maxAttempts, n, d) && ReplayEnabled(s, w, a)
    ensures LogFits(ReplayApply(s, w, a), cfg.maxAttempts, n + (if a == CommitReset(d) then 1 else 0), d)
  {
    ReplayFrame(s, w, a);
    CountersReplay(s, w, a);
    OneMoreChain(cfg.maxAttempts, n);
  }

  lemma RelayFits(s: State, cfg: Config, x: Id, a: RelayAction, n: nat, d: Id)
    requires LogCounts(s, d) && LogFits(s, cfg.maxAttempts, n, d) && RelayEnabled(s, x, a) && cfg.maxAttempts >= 1
    ensures LogFits(RelayApply(s, x, a), cfg.maxAttempts, n, d)
  {
    RelayFrame(s, x, a);
    CountersRelay(s, x, a);
    assert cfg.maxAttempts * n >= 0;
  }

  lemma FitsStep(s: State, cfg: Config, a: Action, n: nat, d: Id)
    requires CleanInv(s, cfg) && LogCounts(s, d) && Enabled(s, cfg, a) && cfg.maxAttempts >= 1
    requires LogFits(s, cfg.maxAttempts, n, d)
    ensures LogFits(Apply(s, cfg, a), cfg.maxAttempts, n + (if Resets(a, d) then 1 else 0), d)
  {
    match a
    case Environment(e) => EnvFrame(s, e); CountersEnvironment(s, e);
    case RelayStep(x, r) => RelayFits(s, cfg, x, r, n, d);
    case WorkStep(t, w) => WorkFits(s, cfg, t, w, n, d);
    case SchedulerStep(w, b) => SchedulerFrame(s, w, b);
    case ReplayStep(w, b) => ReplayFits(s, cfg, w, b, n, d);
  }

  lemma {:induction false} RunFits(cfg: Config, states: seq<State>, actions: seq<Action>, i: nat, d: Id)
    requires IsRun(cfg, states, actions) && CleanRun(states, actions) && i < |states| && cfg.maxAttempts >= 1
    ensures LogFits(states[i], cfg.maxAttempts, ResetCount(actions[..i], d), d)
  {
    if i > 0 {
      RunFits(cfg, states, actions, i - 1, d);
      assert actions[..i][..i - 1] == actions[..i - 1];
      FitsAt(cfg, states, actions, i - 1, ResetCount(actions[..i - 1], d), d);
    }
  }

  lemma FitsAt(cfg: Config, states: seq<State>, actions: seq<Action>, i: nat, n: nat, d: Id)
    requires IsRun(cfg, states, actions) && CleanRun(states, actions) && i < |actions| && cfg.maxAttempts >= 1
    requires LogFits(states[i], cfg.maxAttempts, n, d)
    ensures LogFits(states[i + 1], cfg.maxAttempts, n + (if Resets(actions[i], d) then 1 else 0), d)
  {
    RunIsClean(cfg, states, actions, i);
    RunConserves(cfg, states, actions, i, d);
    assert StepAt(cfg, states, actions, i);
    FitsStep(states[i], cfg, actions[i], n, d);
  }

  /** What a receiver can see of one delivery: without redelivery after a commit, one budget of
      requests and one more for every reset, plus a request for every coroutine that died before
      its commit and for every one still open. */
  lemma RequestsAreBounded(cfg: Config, states: seq<State>, actions: seq<Action>, i: nat, d: Id)
    requires IsRun(cfg, states, actions) && CleanRun(states, actions) && i < |states| && cfg.maxAttempts >= 1
    requires d in states[i].store.deliveries
    ensures var s := states[i];
            Count(s.ledger.sends, d) <= cfg.maxAttempts * (1 + ResetCount(actions[..i], d))
                                        + Count(s.ledger.aborted, d) + |InFlight(s, d)|
  {
    RunFits(cfg, states, actions, i, d);
    SendsAreConserved(cfg, states, actions, i, d);
    CleanRefinement(cfg, states, actions, i, d);
    OneMoreChain(cfg.maxAttempts, ResetCount(actions[..i], d));
  }
}
