/** Every acknowledgement is earned. */
module AckJustified {
  import opened Prelude
  import opened Protocol
  import opened Frames
  import opened Invariants
  import opened Hazards

  /** A coroutine reaches the two phases after its commit only by its own actions. */
  lemma PhaseOrigin(s: State, cfg: Config, a: Action, t: Id)
    requires Wf(s) && Enabled(s, cfg, a) && t in Apply(s, cfg, a).tasks
    requires Apply(s, cfg, a).tasks[t].phase.MustSchedule? || Apply(s, cfg, a).tasks[t].phase.ReadyToAck?
    ensures var s' := Apply(s, cfg, a);
            && t in s.tasks && s.tasks[t].msg == s'.tasks[t].msg
            && s.redis.entries <= s'.redis.entries
            && (|| s.tasks[t] == s'.tasks[t]
                || (a.WorkStep? && a.task == t && (a.work.CommitDeferral? || a.work.CommitAttempt?)
                    && Committed(s, a, s', t)
                    && (s'.tasks[t].phase.ReadyToAck? ==>
                          !s'.store.deliveries[TaskMessage(s, t).delivery].state.Retrying?))
                || (a == WorkStep(t, ScheduleRetry) && s.tasks[t].phase.MustSchedule?))
  {
    match a
    case Environment(e) => EnvFrame(s, e);
    case RelayStep(x, r) => RelayFrame(s, x, r);
    case WorkStep(u, w) =>
      WorkFrame(s, cfg, u, w);
      if u == t { OwnPhaseOrigin(s, cfg, t, w); } else { OtherTask(s, cfg, u, w, t); }
    case SchedulerStep(w, b) => SchedulerFrame(s, w, b);
    case ReplayStep(w, b) => ReplayFrame(s, w, b);
  }

  predicate AfterCommit(p: Phase) { p.MustSchedule? || p.ReadyToAck? }

  lemma StartIsEarlier(s: State, cfg: Config, t: Id, a: WorkAction)
    requires WorkEnabled(s, cfg, t, a) && (a.ReadNext? || a.ClaimStale?)
    ensures t in WorkApply(s, cfg, t, a).tasks && !AfterCommit(WorkApply(s, cfg, t, a).tasks[t].phase)
  {
  }

  lemma QuietIsEarlier(s: State, cfg: Config, t: Id, a: WorkAction)
    requires WorkEnabled(s, cfg, t, a) && (a.BeginAttempt? || a.NotFound? || a.Request?)
    ensures t in WorkApply(s, cfg, t, a).tasks ==> !AfterCommit(WorkApply(s, cfg, t, a).tasks[t].phase)
  {
  }

  lemma CommitIsOrigin(s: State, cfg: Config, t: Id, a: WorkAction)
    requires WorkEnabled(s, cfg, t, a) && (a.CommitDeferral? || a.CommitAttempt?)
    ensures var s' := WorkApply(s, cfg, t, a);
            && t in s.tasks && t in s'.tasks && s.tasks[t].msg == s'.tasks[t].msg
            && Committed(s, WorkStep(t, a), s', t)
            && (s'.tasks[t].phase.ReadyToAck? ==>
                  !s'.store.deliveries[TaskMessage(s, t).delivery].state.Retrying?)
  {
  }

  lemma OwnPhaseOrigin(s: State, cfg: Config, t: Id, a: WorkAction)
    requires WorkEnabled(s, cfg, t, a) && t in WorkApply(s, cfg, t, a).tasks
    requires var p := WorkApply(s, cfg, t, a).tasks[t].phase; p.MustSchedule? || p.ReadyToAck?
    ensures var s' := WorkApply(s, cfg, t, a);
            && t in s.tasks && s.tasks[t].msg == s'.tasks[t].msg
            && (|| ((a.CommitDeferral? || a.CommitAttempt?)
                    && Committed(s, WorkStep(t, a), s', t)
                    && (s'.tasks[t].phase.ReadyToAck? ==>
                          !s'.store.deliveries[TaskMessage(s, t).delivery].state.Retrying?))
                || (a.ScheduleRetry? && s.tasks[t].phase.MustSchedule?))
  {
    if a.ReadNext? || a.ClaimStale? {
      StartIsEarlier(s, cfg, t, a);
    } else if a.BeginAttempt? || a.NotFound? || a.Request? {
      QuietIsEarlier(s, cfg, t, a);
    } else if a.Ack? || a.Abort? {
      EndLeavesNoTask(s, cfg, t, a);
    } else if a.CommitDeferral? || a.CommitAttempt? {
      CommitIsOrigin(s, cfg, t, a);
    } else {
      WorkTask(s, cfg, t, a);
    }
  }

  /** This step is coroutine `t` committing an attempt or a deferral of the delivery its message
      names. */
  ghost predicate Committed(s: State, a: Action, s': State, t: Id) {
    && AtPhase(s, t)
    && a.WorkStep? && a.task == t
    && var d := TaskMessage(s, t).delivery;
       && d in s'.store.deliveries
       && (|| (a.work.CommitDeferral? && s'.store.deliveries[d].state.Retrying?)
           || (a.work.CommitAttempt? && |LogOf(s'.store, d)| == |LogOf(s.store, d)| + 1))
  }

  /** Step j is the commit that entitles coroutine `t` to acknowledge message `m`. */
  ghost predicate CommitAt(states: seq<State>, actions: seq<Action>, j: nat, t: Id, m: nat, entry: Message)
    requires |states| == |actions| + 1 && j < |actions|
  {
    && Committed(states[j], actions[j], states[j + 1], t)
    && states[j].tasks[t].msg == m
    && TaskMessage(states[j], t) == entry
  }

  lemma {:induction false} OwingHasCommit(cfg: Config, states: seq<State>, actions: seq<Action>, i: nat, t: Id)
    requires IsRun(cfg, states, actions) && i < |states|
    requires AtPhase(states[i], t) && states[i].tasks[t].phase.MustSchedule?
    ensures exists j | 0 <= j < i :: CommitAt(states, actions, j, t, states[i].tasks[t].msg, TaskMessage(states[i], t))
  {
    assert i > 0;
    RunIsWf(cfg, states, actions, i - 1);
    assert StepAt(cfg, states, actions, i - 1);
    PhaseOrigin(states[i - 1], cfg, actions[i - 1], t);
    if states[i - 1].tasks[t] == states[i].tasks[t] {
      OwingHasCommit(cfg, states, actions, i - 1, t);
      assert TaskMessage(states[i - 1], t) == TaskMessage(states[i], t);
      var j :| 0 <= j < i - 1 && CommitAt(states, actions, j, t, states[i].tasks[t].msg, TaskMessage(states[i], t));
    } else {
      assert CommitAt(states, actions, i - 1, t, states[i].tasks[t].msg, TaskMessage(states[i], t));
    }
  }

  /** The commit, and the scheduling of the retry after it if the commit left one to schedule. */
  ghost predicate Earned(states: seq<State>, actions: seq<Action>, i: nat, t: Id, m: nat, entry: Message)
    requires |states| == |actions| + 1 && i < |states|
  {
    exists j | 0 <= j < i ::
      && CommitAt(states, actions, j, t, m, entry)
      && (entry.delivery in states[j + 1].store.deliveries
          && states[j + 1].store.deliveries[entry.delivery].state.Retrying? ==>
            exists k | j < k < i :: actions[k] == WorkStep(t, ScheduleRetry))
  }

  lemma {:induction false} ReadyIsEarned(cfg: Config, states: seq<State>, actions: seq<Action>, i: nat, t: Id)
    requires IsRun(cfg, states, actions) && i < |states|
    requires AtPhase(states[i], t) && states[i].tasks[t].phase.ReadyToAck?
    ensures Earned(states, actions, i, t, states[i].tasks[t].msg, TaskMessage(states[i], t))
  {
    assert i > 0;
    RunIsWf(cfg, states, actions, i - 1);
    assert StepAt(cfg, states, actions, i - 1);
    PhaseOrigin(states[i - 1], cfg, actions[i - 1], t);
    if states[i - 1].tasks[t] == states[i].tasks[t] {
      ReadyIsEarned(cfg, states, actions, i - 1, t);
    } else if actions[i - 1] == WorkStep(t, ScheduleRetry) {
      OwingHasCommit(cfg, states, actions, i - 1, t);
      assert TaskMessage(states[i - 1], t) == TaskMessage(states[i], t);
      var j :| 0 <= j < i - 1 && CommitAt(states, actions, j, t, states[i].tasks[t].msg, TaskMessage(states[i], t));
    } else {
      assert CommitAt(states, actions, i - 1, t, states[i].tasks[t].msg, TaskMessage(states[i], t));
    }
  }

  /** Step j is coroutine `t` looking the delivery up and not finding it. */
  ghost predicate MissedAt(states: seq<State>, actions: seq<Action>, j: nat, t: Id, m: nat, entry: Message)
    requires |states| == |actions| + 1 && j < |actions|
  {
    && actions[j] == WorkStep(t, NotFound)
    && AtPhase(states[j], t) && states[j].tasks[t].msg == m && states[j].tasks[t].role.Reaper?
    && TaskMessage(states[j], t) == entry
    && entry.delivery in states[j].ledger.ids
    && entry.delivery !in states[j].store.deliveries
  }

  /** A coroutine about to drop its message was so already, or this very step is its failed lookup. */
  lemma GoneOrigin(s: State, cfg: Config, a: Action, t: Id)
    requires Wf(s) && Enabled(s, cfg, a)
    requires t in Apply(s, cfg, a).tasks && Apply(s, cfg, a).tasks[t].phase.Gone?
    ensures var s' := Apply(s, cfg, a);
            && t in s.tasks && s.tasks[t].msg == s'.tasks[t].msg && s.redis.entries <= s'.redis.entries
            && (s.tasks[t] == s'.tasks[t]
                || (a == WorkStep(t, NotFound) && AtPhase(s, t) && s.tasks[t].role.Reaper? && !Known(s, t)))
  {
    match a
    case Environment(e) => EnvFrame(s, e);
    case RelayStep(x, r) => RelayFrame(s, x, r);
    case WorkStep(u, w) =>
      WorkFrame(s, cfg, u, w);
      if u == t { GoneByDrop(s, cfg, t, w); } else { OtherTask(s, cfg, u, w, t); }
    case SchedulerStep(w, b) => SchedulerFrame(s, w, b);
    case ReplayStep(w, b) => ReplayFrame(s, w, b);
  }

  lemma {:induction false} GoneWasMissed(cfg: Config, states: seq<State>, actions: seq<Action>, i: nat, t: Id)
    requires IsRun(cfg, states, actions) && i < |states|
    requires AtPhase(states[i], t) && states[i].tasks[t].phase.Gone?
    ensures exists j | 0 <= j < i :: MissedAt(states, actions, j, t, states[i].tasks[t].msg, TaskMessage(states[i], t))
  {
    assert i > 0;
    RunIsWf(cfg, states, actions, i - 1);
    assert StepAt(cfg, states, actions, i - 1);
    GoneOrigin(states[i - 1], cfg, actions[i - 1], t);
    if states[i - 1].tasks[t] == states[i].tasks[t] {
      GoneWasMissed(cfg, states, actions, i - 1, t);
      assert TaskMessage(states[i - 1], t) == TaskMessage(states[i], t);
      var j :| 0 <= j < i - 1 && MissedAt(states, actions, j, t, states[i].tasks[t].msg, TaskMessage(states[i], t));
    } else {
      assert MissedAt(states, actions, i - 1, t, states[i].tasks[t].msg, TaskMessage(states[i], t));
    }
  }

  /** The coroutine itself looked the delivery up earlier and did not find it; and unless a fan-out
      transaction was just then about to commit it, it is not there now either. */
  ghost predicate Missed(states: seq<State>, actions: seq<Action>, i: nat, t: Id, m: nat, entry: Message)
    requires |states| == |actions| + 1 && i < |actions|
  {
    exists j | 0 <= j < i ::
      && MissedAt(states, actions, j, t, m, entry)
      && (!Uncommitted(states[j], entry.delivery) ==>
            entry.delivery !in states[i].store.deliveries && !Uncommitted(states[i], entry.delivery))
  }

  lemma GoneIsMissed(cfg: Config, states: seq<State>, actions: seq<Action>, i: nat, t: Id)
    requires IsRun(cfg, states, actions) && i < |actions|
    requires AtPhase(states[i], t) && states[i].tasks[t].phase.Gone?
    ensures Missed(states, actions, i, t, states[i].tasks[t].msg, TaskMessage(states[i], t))
  {
    var m, entry := states[i].tasks[t].msg, TaskMessage(states[i], t);
    GoneWasMissed(cfg, states, actions, i, t);
    var j :| 0 <= j < i && MissedAt(states, actions, j, t, m, entry);
    if !Uncommitted(states[j], entry.delivery) {
      AbsentForever(cfg, states, actions, j, i, entry.delivery);
    }
  }

  /** A message leaves the PEL only by an acknowledgement, and each one is justified: either its
      coroutine committed an attempt or a deferral of exactly that delivery, and scheduled the
      retry afterwards if the commit left one; or it is a reaper that looked the delivery up and
      did not find it, and it is absent still unless a fan-out was about to commit it then. */
  lemma EveryAckIsJustified(cfg: Config, states: seq<State>, actions: seq<Action>, i: nat, m: nat)
    requires IsRun(cfg, states, actions) && i < |actions|
    requires m in states[i].redis.pel && m !in states[i + 1].redis.pel
    ensures exists t ::
              && actions[i] == WorkStep(t, Ack)
              && AtPhase(states[i], t) && states[i].tasks[t].msg == m
              && (Earned(states, actions, i, t, m, TaskMessage(states[i], t))
                  || Missed(states, actions, i, t, m, TaskMessage(states[i], t)))
  {
    RunIsWf(cfg, states, actions, i);
    assert StepAt(cfg, states, actions, i);
    PelShrinksByAck(states[i], cfg, actions[i], m);
    var t := actions[i].task;
    if states[i].tasks[t].phase.ReadyToAck? {
      ReadyIsEarned(cfg, states, actions, i, t);
    } else {
      GoneIsMissed(cfg, states, actions, i, t);
    }
    assert actions[i] == WorkStep(t, Ack);
  }

  lemma PelShrinksByAck(s: State, cfg: Config, a: Action, m: nat)
    requires Enabled(s, cfg, a) && m in s.redis.pel && m !in Apply(s, cfg, a).redis.pel
    ensures a.WorkStep? && a.work.Ack? && AtPhase(s, a.task) && s.tasks[a.task].msg == m && Acking(s.tasks[a.task].phase)
  {
    match a
    case Environment(e) => EnvFrame(s, e);
    case RelayStep(x, r) => RelayFrame(s, x, r);
    case WorkStep(u, w) => WorkRedis(s, cfg, u, w);
    case SchedulerStep(w, b) => SchedulerFrame(s, w, b);
    case ReplayStep(w, b) => ReplayFrame(s, w, b);
  }

  /** Under the stated assumptions the reaper's word is final: the message it drops names a
      delivery that is gone and stays gone. */
  lemma DroppedIsGone(cfg: Config, states: seq<State>, actions: seq<Action>, i: nat, t: Id, j: nat)
    requires IsRun(cfg, states, actions) && Assumed(states, actions)
    requires i < |actions| && actions[i] == WorkStep(t, Ack) && AtPhase(states[i], t) && states[i].tasks[t].phase.Gone?
    requires i <= j < |states|
    ensures TaskMessage(states[i], t).delivery !in states[j].store.deliveries
    ensures !Uncommitted(states[j], TaskMessage(states[i], t).delivery)
  {
    RunIsWf(cfg, states, actions, i);
    assert GoneTask(states[i], t);
    var d := TaskMessage(states[i], t).delivery;
    if Hazard(d, EarlyDrop) in states[i].ledger.hazards {
      OnlyInHandWindowsRemain(cfg, states, actions, i, Hazard(d, EarlyDrop));
      assert false;
    }
    assert d in states[i].ledger.ids;
    AbsentForever(cfg, states, actions, i, j, d);
  }

  ghost predicate Absent(s: State, d: Id) {
    d in s.ledger.ids && d !in s.store.deliveries && !Uncommitted(s, d)
  }

  lemma AbsentRelay(s: State, x: Id, a: RelayAction, d: Id)
    requires RelayEnabled(s, x, a) && Absent(s, d)
    ensures Absent(RelayApply(s, x, a), d)
  {
    var s' := RelayApply(s, x, a);
    RelayFrame(s, x, a);
    StaysOutOfTxs(s, x, a, d);
  }

  lemma AbsentStep(s: State, cfg: Config, a: Action, d: Id)
    requires Enabled(s, cfg, a) && Absent(s, d)
    ensures Absent(Apply(s, cfg, a), d)
  {
    var s' := Apply(s, cfg, a);
    match a
    case Environment(e) => EnvFrame(s, e);
    case RelayStep(x, r) => AbsentRelay(s, x, r, d);
    case WorkStep(u, w) => WorkFrame(s, cfg, u, w); WorkRows(s, cfg, u, w); WorkLedgerFrame(s, cfg, u, w);
      if w.CommitDeferral? || w.CommitAttempt? { WorkKnows(s, cfg, u, w); }
    case SchedulerStep(w, b) => SchedulerFrame(s, w, b);
    case ReplayStep(w, b) => ReplayFrame(s, w, b);
  }

  lemma WorkKnows(s: State, cfg: Config, t: Id, a: WorkAction)
    requires WorkEnabled(s, cfg, t, a) && (a.CommitDeferral? || a.CommitAttempt?)
    ensures TaskMessage(s, t).delivery in s.store.deliveries
  {
  }

  lemma {:induction false} AbsentForever(cfg: Config, states: seq<State>, actions: seq<Action>, i: nat, j: nat, d: Id)
    requires IsRun(cfg, states, actions) && i <= j < |states|
    requires Absent(states[i], d)
    ensures Absent(states[j], d)
    decreases j
  {
    if i < j {
      AbsentForever(cfg, states, actions, i, j - 1, d);
      assert StepAt(cfg, states, actions, j - 1);
      AbsentStep(states[j - 1], cfg, actions[j - 1], d);
    }
  }

  // ---------------------------------------------------------------- how often a message is handed out

  /** This step hands message `m` to a coroutine. */
  predicate HandsOut(s: State, a: Action, m: nat) {
    a.WorkStep? && ((a.work.ReadNext? && s.redis.delivered == m) || a.work == ClaimStale(m))
  }

  lemma WorkPelTimes(s: State, cfg: Config, t: Id, a: WorkAction, m: nat)
    requires WorkEnabled(s, cfg, t, a) && m in WorkApply(s, cfg, t, a).redis.pel
    ensures var pel := WorkApply(s, cfg, t, a).redis.pel;
            if HandsOut(s, WorkStep(t, a), m) then pel[m] == s.clock else m in s.redis.pel && pel[m] == s.redis.pel[m]
  {
  }

  /** The idle time of a pending message starts when it is handed out, and nothing else moves it. */
  lemma PelTimes(s: State, cfg: Config, a: Action, m: nat)
    requires Enabled(s, cfg, a) && m in Apply(s, cfg, a).redis.pel
    ensures var pel := Apply(s, cfg, a).redis.pel;
            if HandsOut(s, a, m) then pel[m] == s.clock else m in s.redis.pel && pel[m] == s.redis.pel[m]
  {
    match a
    case Environment(e) => EnvFrame(s, e);
    case RelayStep(x, r) => RelayFrame(s, x, r);
    case WorkStep(t, w) => WorkPelTimes(s, cfg, t, w, m);
    case SchedulerStep(w, b) => SchedulerFrame(s, w, b);
    case ReplayStep(w, b) => ReplayFrame(s, w, b);
  }

  lemma {:induction false} IdleSince(cfg: Config, states: seq<State>, actions: seq<Action>, i: nat, j: nat, m: nat)
    requires IsRun(cfg, states, actions) && i < j <= |actions| && HandsOut(states[i], actions[i], m)
    ensures states[i].clock <= states[j].clock && m < states[j].redis.delivered
    ensures m in states[j].redis.pel ==> states[j].redis.pel[m] >= states[i].clock
    decreases j
  {
    var s, a := states[j - 1], actions[j - 1];
    assert StepAt(cfg, states, actions, j - 1);
    EverythingGrows(s, cfg, a);
    if j - 1 > i { IdleSince(cfg, states, actions, i, j - 1, m); } else { HandOutShows(cfg, states, actions, i, m); }
    if m in states[j].redis.pel { PelTimes(s, cfg, a, m); }
  }

  lemma HandOutShows(cfg: Config, states: seq<State>, actions: seq<Action>, i: nat, m: nat)
    requires IsRun(cfg, states, actions) && i < |actions| && HandsOut(states[i], actions[i], m)
    ensures m < states[i + 1].redis.delivered
  {
    RunIsWf(cfg, states, actions, i);
    assert StepAt(cfg, states, actions, i);
  }

  /** Between two hand-outs of one message, to whomever, at least the idle threshold passes. */
  lemma HandOutsAreSpaced(cfg: Config, states: seq<State>, actions: seq<Action>, i: nat, j: nat, m: nat)
    requires IsRun(cfg, states, actions) && i < j < |actions|
    requires HandsOut(states[i], actions[i], m) && HandsOut(states[j], actions[j], m)
    ensures states[j].clock - states[i].clock >= cfg.minIdle
  {
    IdleSince(cfg, states, actions, i, j, m);
    assert StepAt(cfg, states, actions, j);
  }
}
