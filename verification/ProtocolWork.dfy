/** How much work a clean run of the protocol does for the deliveries of one endpoint when its
    attempts follow the endpoint's breaker, one commit after the other. */
module ProtocolWork {
  import opened Prelude
  import opened Breakers
  import opened Deliveries
  import opened Attempts
  import opened EndpointHistory
  import opened BoundedWork
  import opened Protocol
  import opened Frames
  import opened Invariants
  import opened CleanRuns
  import opened CleanSpec
  import AckJustified
  import CleanLog

  // ---------------------------------------------------------------- attempts that follow a breaker

  /** A step that commits an attempt or a deferral of one of these deliveries. */
  predicate Processes(s: State, a: Action, ids: seq<Id>) {
    && a.WorkStep? && (a.work.CommitAttempt? || a.work.CommitDeferral?)
    && AtPhase(s, a.task) && TaskMessage(s, a.task).delivery in ids
  }

  predicate Reopens(a: Action, ids: seq<Id>) {
    a.ReplayStep? && a.reset.CommitReset? && a.reset.delivery in ids
  }

  /** The step goes by the breaker `b` at the instant `now` and leaves `b'`. */
  predicate Follows(cfg: Settings, s: State, a: Action, ids: seq<Id>, b: Breaker, now: Time, b': Breaker) {
    if !Processes(s, a, ids) then b' == b
    else if a.work.CommitDeferral? then
      ShouldSkipForOpenBreaker(b, now, cfg.cooldown) && a.work.at == b.openedAt.value + cfg.cooldown && b' == b
    else
      && !ShouldSkipForOpenBreaker(b, now, cfg.cooldown)
      && b' == NextBreakerState(if b.state.Open? then b.(state := HalfOpen) else b, now, a.work.ok, cfg.failureThreshold)
  }

  /** Every attempt takes its time at or after its beginning, and goes by the breaker its
      predecessor committed. */
  ghost predicate FollowBreaker(cfg: Settings, states: seq<State>, actions: seq<Action>, ids: seq<Id>,
                                bs: seq<Breaker>, nows: seq<Time>)
    requires |states| == |actions| + 1
  {
    && |bs| == |states| && |nows| == |actions| && bs[0] == FRESH
    && (forall i | 0 <= i < |actions| :: Follows(cfg, states[i], actions[i], ids, bs[i], nows[i], bs[i + 1]))
    && (forall i, j | 0 <= j < i < |actions| && Processes(states[i], actions[i], ids)
                   && actions[j] == WorkStep(actions[i].task, BeginAttempt) :: states[j].clock <= nows[i])
  }

  /** The commits of attempts and of deferrals among the first i steps. */
  function Processed(states: seq<State>, actions: seq<Action>, ids: seq<Id>, i: nat): nat
    requires |states| == |actions| + 1 && i <= |actions|
  {
    if i == 0 then 0
    else Processed(states, actions, ids, i - 1) + (if Processes(states[i - 1], actions[i - 1], ids) then 1 else 0)
  }

  /** Those of attempts. */
  function Attempted(states: seq<State>, actions: seq<Action>, ids: seq<Id>, i: nat): nat
    requires |states| == |actions| + 1 && i <= |actions|
  {
    if i == 0 then 0
    else Attempted(states, actions, ids, i - 1)
         + (if Processes(states[i - 1], actions[i - 1], ids) && actions[i - 1].work.CommitAttempt? then 1 else 0)
  }

  function Reopened(actions: seq<Action>, ids: seq<Id>, i: nat): nat
    requires i <= |actions|
  {
    if i == 0 then 0 else Reopened(actions, ids, i - 1) + (if Reopens(actions[i - 1], ids) then 1 else 0)
  }

  // ---------------------------------------------------------------- when an attempt began

  ghost predicate BegunWhenDue(states: seq<State>, actions: seq<Action>, j: nat, t: Id, row: Delivery)
    requires |states| == |actions| + 1 && j < |actions|
  {
    && actions[j] == WorkStep(t, BeginAttempt)
    && (row.state.Retrying? ==> row.nextRetryAt.Some? && row.nextRetryAt.value <= states[j].clock)
  }

  predicate Working(s: State, t: Id) {
    t in s.tasks && (s.tasks[t].phase.Attempting? || s.tasks[t].phase.Requested?)
  }

  /** Working coroutines have just begun, have just requested, or were working before. */
  lemma WorkingBefore(s: State, cfg: Config, a: Action, t: Id)
    requires Enabled(s, cfg, a) && Working(Apply(s, cfg, a), t) && a != WorkStep(t, BeginAttempt)
    ensures Working(s, t) && Apply(s, cfg, a).tasks[t].phase.row == s.tasks[t].phase.row
  {
    match a
    case Environment(e) => EnvFrame(s, e);
    case RelayStep(x, r) => RelayFrame(s, x, r);
    case WorkStep(u, w) =>
      if u == t { WorkingSelf(s, cfg, t, w); } else { OtherTask(s, cfg, u, w, t); }
    case SchedulerStep(w, b) => SchedulerFrame(s, w, b);
    case ReplayStep(w, b) => ReplayFrame(s, w, b);
  }

  lemma WorkingSelf(s: State, cfg: Config, t: Id, a: WorkAction)
    requires WorkEnabled(s, cfg, t, a) && Working(WorkApply(s, cfg, t, a), t) && !a.BeginAttempt?
    ensures Working(s, t) && WorkApply(s, cfg, t, a).tasks[t].phase.row == s.tasks[t].phase.row
  {
    PhaseWithRow(s, cfg, t, a);
  }

  lemma {:induction false} RunBegunWhenDue(cfg: Config, states: seq<State>, actions: seq<Action>, i: nat, t: Id) returns (j: nat)
    requires IsRun(cfg, states, actions) && CleanRun(states, actions) && i < |states| && cfg.maxAttempts >= 1
    requires Working(states[i], t)
    ensures j < i && BegunWhenDue(states, actions, j, t, states[i].tasks[t].phase.row)
  {
    assert i > 0;
    assert StepAt(cfg, states, actions, i - 1);
    if actions[i - 1] == WorkStep(t, BeginAttempt) {
      j := i - 1;
      RunIsClean(cfg, states, actions, i - 1);
      BeginIsDue(states[i - 1], cfg, t);
    } else {
      WorkingBefore(states[i - 1], cfg, actions[i - 1], t);
      j := RunBegunWhenDue(cfg, states, actions, i - 1, t);
    }
  }

  // ---------------------------------------------------------------- the rows as a history sees them

  /** A row not inserted yet has its whole budget; one that is gone has none. */
  ghost function Seen(s: State, d: Id): Delivery {
    if d in s.store.deliveries then s.store.deliveries[d]
    else if AckJustified.Absent(s, d) then Create(0, 0).(state := Dead)
    else Create(0, 0)
  }

  ghost function Rows(s: State, ids: seq<Id>): (rows: seq<Delivery>)
    ensures |rows| == |ids|
  {
    seq(|ids|, k requires 0 <= k < |ids| => Seen(s, ids[k]))
  }

  /** The endpoint's history at this state, logs and sends left aside. */
  ghost function WorldOf(s: State, ids: seq<Id>, b: Breaker): (w: World)
    ensures WellFormed(w) && |w.rows| == |ids|
  {
    World(b, Rows(s, ids), seq(|ids|, _ => []), [])
  }

  /** No more work than before: the same three columns, or nothing left to do. */
  predicate Tame(r: Delivery, r': Delivery) {
    !r'.Live() || (r'.state == r.state && r'.attemptCount == r.attemptCount && r'.nextRetryAt == r.nextRetryAt)
  }

  lemma SeenElsewhere(s: State, cfg: Config, a: Action, d: Id)
    requires Wf(s) && CleanLog.CreatedAreFresh(s) && Enabled(s, cfg, a)
    requires !Processes(s, a, [d]) && !Reopens(a, [d])
    ensures Tame(Seen(s, d), Seen(Apply(s, cfg, a), d))
  {
    if AckJustified.Absent(s, d) { AckJustified.AbsentStep(s, cfg, a, d); }
    match a
    case Environment(e) => SeenEnvironment(s, e, d);
    case RelayStep(x, r) => RelayFrame(s, x, r);
    case WorkStep(t, w) => WorkRows(s, cfg, t, w);
    case SchedulerStep(w, b) => SchedulerFrame(s, w, b);
    case ReplayStep(w, b) => ReplayFrame(s, w, b);
  }

  /** A deleted row is gone for good. */
  lemma SeenEnvironment(s: State, a: EnvAction, d: Id)
    requires Wf(s) && EnvEnabled(s, a)
    ensures Tame(Seen(s, d), Seen(EnvApply(s, a), d))
  {
    EnvFrame(s, a);
    if d in s.store.deliveries {
      assert !Uncommitted(EnvApply(s, a), d);
    }
  }

  ghost predicate Distinct(ids: seq<Id>) {
    forall i, j | 0 <= i < j < |ids| :: ids[i] != ids[j]
  }

  // ---------------------------------------------------------------- what one step does to the measure

  lemma {:induction false} TameSums(cfg: Settings, rows: seq<Delivery>, rows': seq<Delivery>, b: Breaker)
    requires |rows| == |rows'| && forall k | 0 <= k < |rows| :: Tame(rows[k], rows'[k])
    ensures TotalBudget(cfg, rows') <= TotalBudget(cfg, rows)
    ensures DeferrableRows(cfg, rows', b) <= DeferrableRows(cfg, rows, b)
  {
    if rows != [] { TameSums(cfg, rows[..|rows| - 1], rows'[..|rows| - 1], b); }
  }

  lemma Weighted(total: nat, total': nat, more: nat, n: nat)
    requires total' <= total + more
    ensures total' * n <= total * n + more * n
  {
    var spare := total + more - total';
    assert (total' + spare) * n == total' * n + spare * n && spare * n >= 0;
    assert (total + more) * n == total * n + more * n;
  }

  /** What a step may add to the total budget and to the measure of an endpoint's history: a reset
      gives one budget back, a send costs a part of it, and every commit lowers the measure. */
  ghost predicate Moves(cfg: Settings, w: World, w': World, sends: nat, commits: nat, resets: nat)
    requires WellFormed(w) && WellFormed(w') && cfg.maxAttempts >= 1
  {
    && |w'.rows| == |w.rows|
    && TotalBudget(cfg, w'.rows) + sends <= TotalBudget(cfg, w.rows) + (if resets == 0 then 0 else cfg.maxAttempts)
    && Measure(cfg, w') + commits
       <= Measure(cfg, w) + (if resets == 0 then 0 else cfg.maxAttempts * (|w.rows| + 1) + 1)
  }

  ghost predicate StepMoves(cfg: Settings, s: State, s': State, ids: seq<Id>, b: Breaker, b': Breaker, a: Action)
    requires cfg.maxAttempts >= 1
  {
    Moves(cfg, WorldOf(s, ids, b), WorldOf(s', ids, b'),
          if Processes(s, a, ids) && a.work.CommitAttempt? then 1 else 0,
          if Processes(s, a, ids) then 1 else 0,
          if Reopens(a, ids) then 1 else 0)
  }

  lemma QuietMoves(cfg: Settings, w: World, w': World)
    requires WellFormed(w) && WellFormed(w') && |w'.rows| == |w.rows| && cfg.maxAttempts >= 1
    requires TotalBudget(cfg, w'.rows) <= TotalBudget(cfg, w.rows)
    requires DeferrableRows(cfg, w'.rows, w'.breaker) <= DeferrableRows(cfg, w.rows, w.breaker)
    ensures Moves(cfg, w, w', 0, 0, 0)
  {
    Weighted(TotalBudget(cfg, w.rows), TotalBudget(cfg, w'.rows), 0, |w.rows| + 1);
  }

  lemma ResetMoves(cfg: Settings, w: World, w': World)
    requires WellFormed(w) && WellFormed(w') && |w'.rows| == |w.rows| && cfg.maxAttempts >= 1
    requires TotalBudget(cfg, w'.rows) <= TotalBudget(cfg, w.rows) + cfg.maxAttempts
    requires DeferrableRows(cfg, w'.rows, w'.breaker) <= DeferrableRows(cfg, w.rows, w.breaker) + 1
    ensures Moves(cfg, w, w', 0, 0, 1)
  {
    Weighted(TotalBudget(cfg, w.rows), TotalBudget(cfg, w'.rows), cfg.maxAttempts, |w.rows| + 1);
  }

  lemma SameMeasure(cfg: Settings, w: World, w': World)
    requires WellFormed(w) && WellFormed(w') && w'.rows == w.rows && w'.breaker == w.breaker
    ensures Measure(cfg, w') == Measure(cfg, w)
  {
  }

  lemma HistoryMoves(cfg: Settings, w: World, op: Op, w': World)
    requires WellFormed(w) && InBudget(cfg, w) && Due(w, op) && cfg.maxAttempts >= 1 && w.sends == []
    requires WellFormed(w') && w'.rows == Step(cfg, w, op).rows && w'.breaker == Step(cfg, w, op).breaker
    ensures |Step(cfg, w, op).sends| <= 1 && Moves(cfg, w, w', |Step(cfg, w, op).sends|, 1, 0)
  {
    StepKeepsBudget(cfg, w, op);
    StepDecreasesMeasure(cfg, w, op);
    SameMeasure(cfg, Step(cfg, w, op), w');
  }

  lemma MovesElsewhere(cfg: Settings, s: State, c: Config, a: Action, ids: seq<Id>, b: Breaker)
    requires Wf(s) && CleanLog.CreatedAreFresh(s) && Enabled(s, c, a)
    requires !Processes(s, a, ids) && !Reopens(a, ids) && cfg.maxAttempts >= 1
    ensures StepMoves(cfg, s, Apply(s, c, a), ids, b, b, a)
  {
    var s' := Apply(s, c, a);
    forall k | 0 <= k < |ids| ensures Tame(Seen(s, ids[k]), Seen(s', ids[k])) {
      SeenElsewhere(s, c, a, ids[k]);
    }
    TameSums(cfg, Rows(s, ids), Rows(s', ids), b);
    QuietMoves(cfg, WorldOf(s, ids, b), WorldOf(s', ids, b));
  }

  /** Only the one row changes. */
  lemma RowsUpdate(s: State, s': State, ids: seq<Id>, k: nat)
    requires Distinct(ids) && k < |ids| && ids[k] in s'.store.deliveries && ids[k] in s.store.deliveries
    requires s'.store.deliveries == s.store.deliveries[ids[k] := s'.store.deliveries[ids[k]]]
    requires s'.txs == s.txs && s'.ledger.ids == s.ledger.ids
    ensures Rows(s', ids) == Rows(s, ids)[k := s'.store.deliveries[ids[k]]]
  {
    forall j | 0 <= j < |ids| && j != k ensures Seen(s', ids[j]) == Seen(s, ids[j]) {
      assert ids[j] != ids[k];
      assert Uncommitted(s', ids[j]) == Uncommitted(s, ids[j]);
    }
  }

  lemma MovesReset(cfg: Settings, s: State, w: Id, d: Id, ids: seq<Id>, b: Breaker)
    requires Wf(s) && ReplayEnabled(s, w, CommitReset(d)) && d in ids && Distinct(ids) && cfg.maxAttempts >= 1
    ensures StepMoves(cfg, s, ReplayApply(s, w, CommitReset(d)), ids, b, b, ReplayStep(w, CommitReset(d)))
  {
    var s' := ReplayApply(s, w, CommitReset(d));
    var k: nat :| k < |ids| && ids[k] == d;
    var row := s'.store.deliveries[d];
    RowsUpdate(s, s', ids, k);
    TotalBudgetUpdate(cfg, Rows(s, ids), k, row);
    DeferrableUpdate(cfg, Rows(s, ids), b, k, row);
    ResetMoves(cfg, WorldOf(s, ids, b), WorldOf(s', ids, b));
  }

  /** The commit as a step of the endpoint's history. */
  function OpOf(k: nat, a: WorkAction, now: Time): Op
    requires a.CommitAttempt? || a.CommitDeferral?
  {
    Process(k, now, if a.CommitAttempt? && a.ok then SendResult(Some(200), None) else SendResult(None, Some(Timeout)),
            a.at - now)
  }

  lemma CommitIsHistoryStep(cfg: Settings, c: Config, s: State, t: Id, a: WorkAction, ids: seq<Id>, k: nat,
                            b: Breaker, now: Time, b': Breaker)
    requires CleanInv(s, c) && WorkEnabled(s, c, t, a) && c.maxAttempts == cfg.maxAttempts
    requires a.CommitAttempt? || a.CommitDeferral?
    requires Distinct(ids) && k < |ids| && TaskMessage(s, t).delivery == ids[k]
    requires Follows(cfg, s, WorkStep(t, a), ids, b, now, b')
    ensures var w, w' := WorldOf(s, ids, b), Step(cfg, WorldOf(s, ids, b), OpOf(k, a, now));
            && w.rows[k] == s.tasks[t].phase.row && w.rows[k].Live()
            && w'.rows == Rows(WorkApply(s, c, t, a), ids) && w'.breaker == b'
            && |w'.sends| == (if a.CommitAttempt? then 1 else 0)
  {
    CommitUpdatesRow(s, c, t, a, ids, k);
    CommittedRow(s, c, t, a);
    StepFollows(cfg, s, t, a, ids, WorldOf(s, ids, b), k, now, b');
  }

  lemma CommitUpdatesRow(s: State, c: Config, t: Id, a: WorkAction, ids: seq<Id>, k: nat)
    requires CleanInv(s, c) && WorkEnabled(s, c, t, a) && (a.CommitAttempt? || a.CommitDeferral?)
    requires Distinct(ids) && k < |ids| && TaskMessage(s, t).delivery == ids[k]
    ensures ids[k] in s.store.deliveries && s.store.deliveries[ids[k]] == s.tasks[t].phase.row && s.tasks[t].phase.row.Live()
    ensures var s' := WorkApply(s, c, t, a);
            ids[k] in s'.store.deliveries && Rows(s', ids) == Rows(s, ids)[k := s'.store.deliveries[ids[k]]]
  {
    CommitIsAlone(s, c, t, a);
    WorkRows(s, c, t, a);
    WorkTxs(s, c, t, a);
    LaterIds(s, c, t, a);
    RowsUpdate(s, WorkApply(s, c, t, a), ids, k);
  }

  /** A step of the history by the same breaker writes the same row. */
  lemma StepFollows(cfg: Settings, s: State, t: Id, a: WorkAction, ids: seq<Id>, w: World, k: nat, now: Time, b': Breaker)
    requires WellFormed(w) && k < |w.rows| && (a.CommitAttempt? || a.CommitDeferral?) && w.sends == []
    requires Processes(s, WorkStep(t, a), ids) && Follows(cfg, s, WorkStep(t, a), ids, w.breaker, now, b')
    ensures var w' := Step(cfg, w, OpOf(k, a, now));
            && w'.rows == w.rows[k := if a.CommitDeferral? then Reschedule(w.rows[k], a.at)
                                      else RecordOutcome(w.rows[k], a.ok, a.at, cfg.maxAttempts)]
            && w'.breaker == b' && |w'.sends| == (if a.CommitAttempt? then 1 else 0)
  {
  }

  lemma CommittedRow(s: State, c: Config, t: Id, a: WorkAction)
    requires WorkEnabled(s, c, t, a) && (a.CommitAttempt? || a.CommitDeferral?)
    ensures var row := WorkApply(s, c, t, a).store.deliveries[TaskMessage(s, t).delivery];
            row == if a.CommitDeferral? then Reschedule(s.tasks[t].phase.row, a.at)
                   else RecordOutcome(s.tasks[t].phase.row, a.ok, a.at, c.maxAttempts)
  {
  }

  lemma SeenInBudget(cfg: Settings, c: Config, s: State, ids: seq<Id>, b: Breaker)
    requires Budgets(s, c) && c.maxAttempts == cfg.maxAttempts >= 1
    ensures InBudget(cfg, WorldOf(s, ids, b))
  {
  }

  lemma MovesCommit(cfg: Settings, c: Config, s: State, t: Id, a: WorkAction, ids: seq<Id>,
                    b: Breaker, now: Time, b': Breaker)
    requires CleanInv(s, c) && WorkEnabled(s, c, t, a) && c.maxAttempts == cfg.maxAttempts >= 1
    requires Processes(s, WorkStep(t, a), ids) && Distinct(ids) && Follows(cfg, s, WorkStep(t, a), ids, b, now, b')
    requires var row := s.tasks[t].phase.row;
             row.state.Retrying? ==> row.nextRetryAt.Some? && row.nextRetryAt.value <= now
    ensures StepMoves(cfg, s, WorkApply(s, c, t, a), ids, b, b', WorkStep(t, a))
  {
    var k: nat :| k < |ids| && ids[k] == TaskMessage(s, t).delivery;
    var w, op := WorldOf(s, ids, b), OpOf(k, a, now);
    CommitIsHistoryStep(cfg, c, s, t, a, ids, k, b, now, b');
    SeenInBudget(cfg, c, s, ids, b);
    HistoryMoves(cfg, w, op, WorldOf(WorkApply(s, c, t, a), ids, b'));
  }

  // ---------------------------------------------------------------- whole runs

  lemma RunMoves(cfg: Settings, c: Config, states: seq<State>, actions: seq<Action>, ids: seq<Id>,
                 bs: seq<Breaker>, nows: seq<Time>, i: nat)
    requires IsRun(c, states, actions) && CleanRun(states, actions) && i < |actions|
    requires c.maxAttempts == cfg.maxAttempts >= 1 && Distinct(ids) && FollowBreaker(cfg, states, actions, ids, bs, nows)
    ensures StepMoves(cfg, states[i], states[i + 1], ids, bs[i], bs[i + 1], actions[i])
  {
    var s, a := states[i], actions[i];
    RunIsClean(c, states, actions, i);
    CleanLog.RunCreatesFresh(c, states, actions, i);
    assert StepAt(c, states, actions, i);
    assert Follows(cfg, s, a, ids, bs[i], nows[i], bs[i + 1]);
    if Processes(s, a, ids) {
      var j := RunBegunWhenDue(c, states, actions, i, a.task);
      assert states[j].clock <= nows[i];
      MovesCommit(cfg, c, s, a.task, a.work, ids, bs[i], nows[i], bs[i + 1]);
    } else if Reopens(a, ids) {
      MovesReset(cfg, s, a.replay, a.reset.delivery, ids, bs[i]);
    } else {
      MovesElsewhere(cfg, s, c, a, ids, bs[i]);
    }
  }

  lemma OneMore(x: nat, per: nat)
    ensures (x + 1) * per == x * per + per
  {
  }

  /** What a clean run does for n deliveries of an endpoint, its attempts following the breaker: the
      budget of each delivery and of each reset bounds the attempts committed, and with deferrals
      every one of them costs at most n + 1 commits, and every reset one more. */
  lemma ProtocolWorkIsBounded(cfg: Settings, c: Config, states: seq<State>, actions: seq<Action>,
                              ids: seq<Id>, bs: seq<Breaker>, nows: seq<Time>, i: nat)
    requires IsRun(c, states, actions) && CleanRun(states, actions) && i <= |actions|
    requires c.maxAttempts == cfg.maxAttempts >= 1 && Distinct(ids) && FollowBreaker(cfg, states, actions, ids, bs, nows)
    ensures var n, resets := |ids|, Reopened(actions, ids, i);
            && Attempted(states, actions, ids, i) <= (n + resets) * cfg.maxAttempts
            && Processed(states, actions, ids, i) <= (n + resets) * (cfg.maxAttempts * (n + 1)) + resets
  {
    RunPotential(cfg, c, states, actions, ids, bs, nows, i);
  }

  /** Spent and left over stay within the budgets of the deliveries and of the resets. */
  ghost predicate Spent(cfg: Settings, w: World, attempted: nat, processed: nat, resets: nat)
    requires WellFormed(w)
  {
    var n := |w.rows|;
    && attempted + TotalBudget(cfg, w.rows) <= (n + resets) * cfg.maxAttempts
    && processed + Measure(cfg, w) <= (n + resets) * (cfg.maxAttempts * (n + 1)) + resets
  }

  lemma SpentStep(cfg: Settings, w: World, w': World, attempted: nat, processed: nat, resets: nat,
                  sends: nat, commits: nat, reset: nat)
    requires WellFormed(w) && WellFormed(w') && cfg.maxAttempts >= 1 && reset <= 1
    requires Spent(cfg, w, attempted, processed, resets) && Moves(cfg, w, w', sends, commits, reset)
    ensures Spent(cfg, w', attempted + sends, processed + commits, resets + reset)
  {
    var n := |w.rows|;
    OneMore(n + resets, cfg.maxAttempts);
    OneMore(n + resets, cfg.maxAttempts * (n + 1));
  }

  lemma {:induction false} RunPotential(cfg: Settings, c: Config, states: seq<State>, actions: seq<Action>,
                                        ids: seq<Id>, bs: seq<Breaker>, nows: seq<Time>, i: nat)
    requires IsRun(c, states, actions) && CleanRun(states, actions) && i <= |actions|
    requires c.maxAttempts == cfg.maxAttempts >= 1 && Distinct(ids) && FollowBreaker(cfg, states, actions, ids, bs, nows)
    ensures Spent(cfg, WorldOf(states[i], ids, bs[i]), Attempted(states, actions, ids, i),
                  Processed(states, actions, ids, i), Reopened(actions, ids, i))
  {
    if i == 0 {
      FreshRows(cfg, c, states, actions, ids);
    } else {
      var j := i - 1;
      RunPotential(cfg, c, states, actions, ids, bs, nows, j);
      RunMoves(cfg, c, states, actions, ids, bs, nows, j);
      SpentStep(cfg, WorldOf(states[j], ids, bs[j]), WorldOf(states[i], ids, bs[i]),
                Attempted(states, actions, ids, j), Processed(states, actions, ids, j), Reopened(actions, ids, j),
                if Processes(states[j], actions[j], ids) && actions[j].work.CommitAttempt? then 1 else 0,
                if Processes(states[j], actions[j], ids) then 1 else 0,
                if Reopens(actions[j], ids) then 1 else 0);
    }
  }

  /** At the start nothing is inserted: every delivery has its whole budget, and the breaker is closed. */
  lemma FreshRows(cfg: Settings, c: Config, states: seq<State>, actions: seq<Action>, ids: seq<Id>)
    requires IsRun(c, states, actions) && cfg.maxAttempts >= 1
    ensures var w := WorldOf(states[0], ids, FRESH);
            TotalBudget(cfg, w.rows) == |ids| * cfg.maxAttempts && Measure(cfg, w) == |ids| * (cfg.maxAttempts * (|ids| + 1))
  {
    var w := WorldOf(states[0], ids, FRESH);
    InitialBudget(cfg, w.rows);
    NothingDeferrableWhileClosed(cfg, w.rows, FRESH);
    assert |ids| * cfg.maxAttempts * (|ids| + 1) == |ids| * (cfg.maxAttempts * (|ids| + 1));
  }
}
