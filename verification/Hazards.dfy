/** The four crash windows: which runs can hit them, when hitting one really loses a delivery,
    and that a lost delivery stays lost. */
module Hazards {
  import opened Prelude
  import opened Protocol
  import opened Frames
  import opened Invariants
  import opened NoLostWork

  // ------------------------------------------------------------- where hazards come from

  lemma HazardStepWork(s: State, cfg: Config, t: Id, a: WorkAction, h: Hazard)
    requires WorkEnabled(s, cfg, t, a)
    requires h in WorkApply(s, cfg, t, a).ledger.hazards && h !in s.ledger.hazards
    ensures Hits(s, WorkStep(t, a), h)
  {
  }

  lemma HazardStepScheduler(s: State, w: Id, a: SchedulerAction, h: Hazard)
    requires SchedulerEnabled(s, w, a)
    requires h in SchedulerApply(s, w, a).ledger.hazards && h !in s.ledger.hazards
    ensures Hits(s, SchedulerStep(w, a), h)
  {
  }

  lemma HazardStepReplay(s: State, w: Id, a: ReplayAction, h: Hazard)
    requires ReplayEnabled(s, w, a)
    requires h in ReplayApply(s, w, a).ledger.hazards && h !in s.ledger.hazards
    ensures Hits(s, ReplayStep(w, a), h)
  {
  }

  lemma HazardStep(s: State, cfg: Config, a: Action, h: Hazard)
    requires Enabled(s, cfg, a)
    requires h in Apply(s, cfg, a).ledger.hazards && h !in s.ledger.hazards
    ensures Hits(s, a, h)
  {
    match a
    case Environment(e) => EnvFrame(s, e);
    case RelayStep(x, r) => RelayFrame(s, x, r);
    case WorkStep(t, w) => HazardStepWork(s, cfg, t, w, h);
    case SchedulerStep(w, b) => HazardStepScheduler(s, w, b, h);
    case ReplayStep(w, b) => HazardStepReplay(s, w, b, h);
  }

  /** A recorded hazard was hit by some earlier step of the run. */
  lemma {:induction false} HazardOrigin(cfg: Config, states: seq<State>, actions: seq<Action>, i: nat, h: Hazard)
    requires IsRun(cfg, states, actions) && i < |states|
    requires h in states[i].ledger.hazards
    ensures exists j | 0 <= j < i :: Hits(states[j], actions[j], h)
  {
    if i > 0 {
      assert StepAt(cfg, states, actions, i - 1);
      if h in states[i - 1].ledger.hazards {
        HazardOrigin(cfg, states, actions, i - 1, h);
      } else {
        HazardStep(states[i - 1], cfg, actions[i - 1], h);
      }
    }
  }

  // ------------------------------------------------------------- the stated assumptions

  /** The reaper claims a message only when no coroutine holds it any more. */
  ghost predicate ClaimsFromTheDead(s: State, a: Action) {
    a.WorkStep? && a.work.ClaimStale? ==> forall u | u in s.tasks :: s.tasks[u].msg != a.work.msg
  }

  /** The fan-out transaction that published a message is closed before the message has been
      idle for long enough to be claimed. */
  ghost predicate ClaimsAfterFanOut(s: State, a: Action) {
    a.WorkStep? && a.work.ClaimStale? && a.work.msg < |s.redis.entries| ==>
      !Uncommitted(s, s.redis.entries[a.work.msg].delivery)
  }

  ghost predicate Assumed(states: seq<State>, actions: seq<Action>)
    requires |states| == |actions| + 1
  {
    forall i | 0 <= i < |actions| :: ClaimsFromTheDead(states[i], actions[i]) && ClaimsAfterFanOut(states[i], actions[i])
  }

  /** One coroutine per message, and its message is still pending. */
  ghost predicate SoleHolders(s: State) {
    && (forall t | t in s.tasks :: s.tasks[t].msg in s.redis.pel)
    && (forall t, u | t in s.tasks && u in s.tasks && s.tasks[t].msg == s.tasks[u].msg :: t == u)
  }

  /** A delivery a reaper works on is not in an open fan-out transaction. */
  ghost predicate ReapersComeLater(s: State) {
    forall t | t in s.tasks && s.tasks[t].role.Reaper? && s.tasks[t].msg < |s.redis.entries| ::
      !Uncommitted(s, TaskMessage(s, t).delivery)
  }

  lemma SoleHoldersWork(s: State, cfg: Config, t: Id, a: WorkAction)
    requires Wf(s) && SoleHolders(s) && WorkEnabled(s, cfg, t, a)
    requires ClaimsFromTheDead(s, WorkStep(t, a))
    ensures SoleHolders(WorkApply(s, cfg, t, a))
  {
    var s' := WorkApply(s, cfg, t, a);
    WorkRedis(s, cfg, t, a);
    forall u | u in s'.tasks
      ensures s'.tasks[u].msg in s'.redis.pel
      ensures forall v | v in s'.tasks && s'.tasks[u].msg == s'.tasks[v].msg :: u == v
    {
      if u == t { WorkTask(s, cfg, t, a); } else { OtherTask(s, cfg, t, a, u); }
      forall v | v in s'.tasks && s'.tasks[u].msg == s'.tasks[v].msg ensures u == v {
        if v == t { WorkTask(s, cfg, t, a); } else { OtherTask(s, cfg, t, a, v); }
      }
      if a.Ack? { EndLeavesNoTask(s, cfg, t, a); }
    }
  }

  lemma SoleHoldersStep(s: State, cfg: Config, a: Action)
    requires Wf(s) && SoleHolders(s) && Enabled(s, cfg, a) && ClaimsFromTheDead(s, a)
    ensures SoleHolders(Apply(s, cfg, a))
  {
    match a
    case Environment(e) => EnvFrame(s, e);
    case RelayStep(x, r) => RelayFrame(s, x, r);
    case WorkStep(t, w) => SoleHoldersWork(s, cfg, t, w);
    case SchedulerStep(w, b) => SchedulerFrame(s, w, b);
    case ReplayStep(w, b) => ReplayFrame(s, w, b);
  }

  lemma ReapersComeLaterWork(s: State, cfg: Config, t: Id, a: WorkAction)
    requires Wf(s) && ReapersComeLater(s) && WorkEnabled(s, cfg, t, a)
    requires ClaimsAfterFanOut(s, WorkStep(t, a))
    ensures ReapersComeLater(WorkApply(s, cfg, t, a))
  {
    var s' := WorkApply(s, cfg, t, a);
    WorkFrame(s, cfg, t, a);
    forall u | u in s'.tasks && s'.tasks[u].role.Reaper? && s'.tasks[u].msg < |s'.redis.entries|
      ensures !Uncommitted(s', TaskMessage(s', u).delivery)
    {
      if u == t { WorkTask(s, cfg, t, a); } else { OtherTask(s, cfg, t, a, u); }
      assert Uncommitted(s', TaskMessage(s', u).delivery) == Uncommitted(s, TaskMessage(s', u).delivery);
    }
  }

  lemma ReapersComeLaterRelay(s: State, x: Id, a: RelayAction)
    requires Wf(s) && ReapersComeLater(s) && RelayEnabled(s, x, a)
    ensures ReapersComeLater(RelayApply(s, x, a))
  {
    var s' := RelayApply(s, x, a);
    RelayFrame(s, x, a);
    forall u | u in s'.tasks && s'.tasks[u].role.Reaper? && s'.tasks[u].msg < |s'.redis.entries|
      ensures !Uncommitted(s', TaskMessage(s', u).delivery)
    {
      var d := TaskMessage(s, u).delivery;
      assert d in s.ledger.ids;
      assert TaskMessage(s', u).delivery == d;
      StaysOutOfTxs(s, x, a, d);
    }
  }

  lemma ReapersComeLaterStep(s: State, cfg: Config, a: Action)
    requires Wf(s) && ReapersComeLater(s) && Enabled(s, cfg, a) && ClaimsAfterFanOut(s, a)
    ensures ReapersComeLater(Apply(s, cfg, a))
  {
    var s' := Apply(s, cfg, a);
    match a
    case RelayStep(x, r) => ReapersComeLaterRelay(s, x, r);
    case WorkStep(t, w) => ReapersComeLaterWork(s, cfg, t, w);
    case Environment(e) => EnvFrame(s, e); ReapersFrame(s, s');
    case SchedulerStep(w, b) => SchedulerFrame(s, w, b); ReapersFrame(s, s');
    case ReplayStep(w, b) => ReplayFrame(s, w, b); ReapersFrame(s, s');
  }

  lemma ReapersFrame(s: State, s': State)
    requires RedisWf(s) && ReapersComeLater(s)
    requires s'.txs == s.txs && s'.tasks == s.tasks && s.redis.entries <= s'.redis.entries
    ensures ReapersComeLater(s')
  {
    forall u | u in s'.tasks && s'.tasks[u].role.Reaper? && s'.tasks[u].msg < |s'.redis.entries|
      ensures !Uncommitted(s', TaskMessage(s', u).delivery)
    {
      assert TaskMessage(s', u) == TaskMessage(s, u);
    }
  }

  lemma {:induction false} AssumedInvariants(cfg: Config, states: seq<State>, actions: seq<Action>, i: nat)
    requires IsRun(cfg, states, actions) && Assumed(states, actions) && i < |states|
    ensures SoleHolders(states[i]) && ReapersComeLater(states[i])
  {
    if i > 0 {
      AssumedInvariants(cfg, states, actions, i - 1);
      RunIsWf(cfg, states, actions, i - 1);
      assert StepAt(cfg, states, actions, i - 1);
      SoleHoldersStep(states[i - 1], cfg, actions[i - 1]);
      ReapersComeLaterStep(states[i - 1], cfg, actions[i - 1]);
    }
  }

  /** Under the two assumptions only the two in-hand windows remain: a scheduler dying between
      its pop and its XADD, and a replay dying between its commit and its XADD. */
  lemma OnlyInHandWindowsRemain(cfg: Config, states: seq<State>, actions: seq<Action>, i: nat, h: Hazard)
    requires IsRun(cfg, states, actions) && Assumed(states, actions) && i < |states|
    requires h in states[i].ledger.hazards
    ensures h.cause.SchedulerCrash? || h.cause.ReplayCrash?
  {
    HazardOrigin(cfg, states, actions, i, h);
    var j :| 0 <= j < i && Hits(states[j], actions[j], h);
    AssumedInvariants(cfg, states, actions, j);
  }

  /** So a run under the assumptions in which no scheduler and no replay dies with something in
      hand keeps every owed delivery carried, whatever else dies. */
  lemma AtLeastOnce(cfg: Config, states: seq<State>, actions: seq<Action>, i: nat, d: Id)
    requires IsRun(cfg, states, actions) && Assumed(states, actions) && i < |states|
    requires forall j | 0 <= j < i :: !(actions[j].ReplayStep? && actions[j].reset.CrashReplay?)
    requires forall j | 0 <= j < i && actions[j].SchedulerStep? && actions[j].sched.CrashScheduler? ::
               HandOf(states[j], actions[j].worker) == []
    requires Owed(states[i], d)
    ensures Carried(states[i], d)
  {
    NoLostWork.NoLostWork(cfg, states, actions, i);
    if Hazardous(states[i], d) {
      var h :| h in states[i].ledger.hazards && h.delivery == d;
      OnlyInHandWindowsRemain(cfg, states, actions, i, h);
      HazardOrigin(cfg, states, actions, i, h);
      assert false;
    }
  }

  // ------------------------------------------------------- exactly when a crash loses work

  /** A scheduler's death loses a delivery exactly when everything that carried it was in that
      scheduler's hand. */
  lemma SchedulerCrashLosesExactly(s: State, w: Id, d: Id)
    requires Wf(s)
    ensures Carried(SchedulerApply(s, w, CrashScheduler), d)
       <==> exists c :: Carries(s, c, d) && !(c.InHand? && c.worker == w)
  {
    var s' := SchedulerApply(s, w, CrashScheduler);
    SchedulerFrame(s, w, CrashScheduler);
    forall c | Carries(s', c, d) ensures Carries(s, c, d) && !(c.InHand? && c.worker == w) {}
    forall c | Carries(s, c, d) && !(c.InHand? && c.worker == w) ensures Carries(s', c, d) {}
  }

  lemma ReplayCrashLosesExactly(s: State, w: Id, d: Id)
    requires Wf(s) && w in s.replaying
    ensures Carried(ReplayApply(s, w, CrashReplay), d)
       <==> exists c :: Carries(s, c, d) && c != InReplay(w)
  {
    var s' := ReplayApply(s, w, CrashReplay);
    forall c | Carries(s', c, d) ensures Carries(s, c, d) && c != InReplay(w) {}
    forall c | Carries(s, c, d) && c != InReplay(w) ensures Carries(s', c, d) {}
  }

  lemma AbortKeepsCarrier(s: State, cfg: Config, t: Id, c: Carrier, d: Id)
    requires Wf(s) && AtPhase(s, t) && Carries(s, c, d) && c != Owing(t)
    ensures Carries(WorkApply(s, cfg, t, Abort), c, d)
  {
    var s' := WorkApply(s, cfg, t, Abort);
    WorkFrame(s, cfg, t, Abort);
    WorkRedis(s, cfg, t, Abort);
    if c.Owing? { OtherTask(s, cfg, t, Abort, c.task); }
    if c.InPel? && AckPending(s', c.msg) { AckPendingOnlyBy(s, cfg, t, Abort, c.msg); }
  }

  lemma AbortAddsOnlyItsMessage(s: State, cfg: Config, t: Id, c: Carrier, d: Id)
    requires Wf(s) && AtPhase(s, t)
    requires Carries(WorkApply(s, cfg, t, Abort), c, d) && c != InPel(s.tasks[t].msg)
    ensures Carries(s, c, d) && c != Owing(t)
  {
    var s' := WorkApply(s, cfg, t, Abort);
    WorkFrame(s, cfg, t, Abort);
    WorkRedis(s, cfg, t, Abort);
    if c.Owing? && c.task != t { OtherTask(s, cfg, t, Abort, c.task); }
    if c.InPel? { AbortKeepsAcks(s, cfg, t, c.msg); }
  }

  lemma AbortKeepsAcks(s: State, cfg: Config, t: Id, m: nat)
    requires AtPhase(s, t) && s.tasks[t].msg != m
    ensures AckPending(s, m) ==> AckPending(WorkApply(s, cfg, t, Abort), m)
  {
    if AckPending(s, m) {
      var u :| u in s.tasks && s.tasks[u].msg == m && Acking(s.tasks[u].phase);
      OtherTask(s, cfg, t, Abort, u);
      assert u in WorkApply(s, cfg, t, Abort).tasks;
    }
  }

  /** The coroutine's own message is pending and nobody else is about to acknowledge it. */
  predicate ComesBack(s: State, t: Id)
    requires t in s.tasks
  {
    && s.tasks[t].msg in s.redis.pel
    && forall u | u in s.tasks && u != t && s.tasks[u].msg == s.tasks[t].msg :: !Acking(s.tasks[u].phase)
  }

  lemma AbortReturnsMessage(s: State, cfg: Config, t: Id, d: Id)
    requires Wf(s) && AtPhase(s, t)
    ensures Carries(WorkApply(s, cfg, t, Abort), InPel(s.tasks[t].msg), d)
       <==> ComesBack(s, t) && TaskMessage(s, t).delivery == d
  {
    var s', m := WorkApply(s, cfg, t, Abort), s.tasks[t].msg;
    WorkFrame(s, cfg, t, Abort);
    WorkRedis(s, cfg, t, Abort);
    EndLeavesNoTask(s, cfg, t, Abort);
    if AckPending(s', m) {
      var u :| u in s'.tasks && s'.tasks[u].msg == m && Acking(s'.tasks[u].phase);
      OtherTask(s, cfg, t, Abort, u);
      assert u in s.tasks && u != t;
    }
    forall u | u in s.tasks && u != t && s.tasks[u].msg == m && Acking(s.tasks[u].phase) ensures AckPending(s', m) {
      OtherTask(s, cfg, t, Abort, u);
      assert u in s'.tasks;
    }
  }

  /** A coroutine's death loses a delivery exactly when nothing else carried it, and its own
      message is another delivery's, or acknowledged, or about to be by somebody else. */
  lemma AbortLosesExactly(s: State, cfg: Config, t: Id, d: Id)
    requires Wf(s) && AtPhase(s, t)
    ensures Carried(WorkApply(s, cfg, t, Abort), d)
       <==> || (exists c :: Carries(s, c, d) && c != Owing(t))
            || (ComesBack(s, t) && TaskMessage(s, t).delivery == d)
  {
    var s' := WorkApply(s, cfg, t, Abort);
    AbortReturnsMessage(s, cfg, t, d);
    forall c | Carries(s', c, d) && c != InPel(s.tasks[t].msg) ensures Carries(s, c, d) && c != Owing(t) {
      AbortAddsOnlyItsMessage(s, cfg, t, c, d);
    }
    forall c | Carries(s, c, d) && c != Owing(t) ensures Carries(s', c, d) {
      AbortKeepsCarrier(s, cfg, t, c, d);
    }
  }

  // ------------------------------------------------------- and exactly when a drop does

  /** A reaper that found nothing, seen from any one carrier. */
  lemma DropLeaves(s: State, cfg: Config, t: Id, c: Carrier, d: Id)
    requires Wf(s) && WorkEnabled(s, cfg, t, NotFound) && s.tasks[t].role.Reaper?
    ensures Carries(WorkApply(s, cfg, t, NotFound), c, d) <==> Carries(s, c, d) && c != InPel(s.tasks[t].msg)
  {
    var s', m := WorkApply(s, cfg, t, NotFound), s.tasks[t].msg;
    WorkFrame(s, cfg, t, NotFound);
    WorkRedis(s, cfg, t, NotFound);
    DropIsGone(s, cfg, t);
    match c
    case Owing(u) => if u != t { OtherTask(s, cfg, t, NotFound, u); }
    case InPel(n) =>
      assert n == m ==> AckPending(s', n);
      if n != m { OtherAcks(s, cfg, t, n); }
    case _ =>
  }

  lemma DropIsGone(s: State, cfg: Config, t: Id)
    requires WorkEnabled(s, cfg, t, NotFound) && s.tasks[t].role.Reaper?
    ensures var s' := WorkApply(s, cfg, t, NotFound);
            && t in s'.tasks && s'.tasks[t] == s.tasks[t].(phase := Gone)
            && !s.tasks[t].phase.MustSchedule?
  {
  }

  lemma OtherAcks(s: State, cfg: Config, t: Id, n: nat)
    requires WorkEnabled(s, cfg, t, NotFound) && s.tasks[t].role.Reaper? && n != s.tasks[t].msg
    ensures AckPending(WorkApply(s, cfg, t, NotFound), n) <==> AckPending(s, n)
  {
    var s' := WorkApply(s, cfg, t, NotFound);
    DropIsGone(s, cfg, t);
    forall u | u != t ensures (u in s'.tasks <==> u in s.tasks) && (u in s.tasks ==> s'.tasks[u] == s.tasks[u]) {
      OtherTask(s, cfg, t, NotFound, u);
    }
  }

  /** A reaper's drop loses a delivery exactly when nothing but the dropped message carried it. */
  lemma EarlyDropLosesExactly(s: State, cfg: Config, t: Id, d: Id)
    requires Wf(s) && WorkEnabled(s, cfg, t, NotFound) && s.tasks[t].role.Reaper?
    ensures Carried(WorkApply(s, cfg, t, NotFound), d)
       <==> exists c :: Carries(s, c, d) && c != InPel(s.tasks[t].msg)
  {
    forall c ensures Carries(WorkApply(s, cfg, t, NotFound), c, d)
                <==> Carries(s, c, d) && c != InPel(s.tasks[t].msg) {
      DropLeaves(s, cfg, t, c, d);
    }
  }

  // ------------------------------------------------------------- a lost delivery stays lost

  /** Nothing in Redis, no process and no open transaction knows about the delivery. */
  ghost predicate Untraceable(s: State, d: Id) {
    && d in s.ledger.ids && !Uncommitted(s, d)
    && (forall i | s.redis.delivered <= i < |s.redis.entries| :: s.redis.entries[i].delivery != d)
    && (forall m | m in s.redis.pel && m < |s.redis.entries| :: s.redis.entries[m].delivery != d)
    && (forall k | k in s.redis.retry :: k.delivery != d)
    && (forall w, i | w in s.hand && 0 <= i < |s.hand[w]| :: s.hand[w][i].delivery != d)
    && (forall w | w in s.reading :: s.reading[w].delivery != d)
    && (forall w | w in s.replaying :: s.replaying[w] != d)
    && (forall t | t in s.tasks && s.tasks[t].msg < |s.redis.entries| :: TaskMessage(s, t).delivery != d)
  }

  /** Untraceable, and not dead either, so that no replay can start a new chain for it. */
  ghost predicate Abandoned(s: State, d: Id) {
    Untraceable(s, d) && (d in s.store.deliveries ==> s.store.deliveries[d].Live())
  }

  ghost predicate StillAbandoned(s: State, s': State, d: Id) {
    && Abandoned(s', d)
    && (d in s'.store.deliveries ==>
          d in s.store.deliveries && s'.store.deliveries[d] == s.store.deliveries[d])
    && Count(s'.ledger.sends, d) == Count(s.ledger.sends, d)
  }

  lemma AbandonedRelay(s: State, x: Id, a: RelayAction, d: Id)
    requires Wf(s) && RelayEnabled(s, x, a) && Abandoned(s, d)
    ensures StillAbandoned(s, RelayApply(s, x, a), d)
  {
    var s' := RelayApply(s, x, a);
    RelayFrame(s, x, a);
    RelayEntries(s, x, a);
    StaysOutOfTxs(s, x, a, d);
  }

  lemma AbandonedWork(s: State, cfg: Config, t: Id, a: WorkAction, d: Id)
    requires Wf(s) && WorkEnabled(s, cfg, t, a) && Abandoned(s, d)
    ensures StillAbandoned(s, WorkApply(s, cfg, t, a), d)
  {
    var s' := WorkApply(s, cfg, t, a);
    WorkFrame(s, cfg, t, a);
    WorkLedgerFrame(s, cfg, t, a);
    WorkRows(s, cfg, t, a);
    WorkRedis(s, cfg, t, a);
    AbandonedSends(s, cfg, t, a, d);
    forall u | u in s'.tasks && s'.tasks[u].msg < |s'.redis.entries| ensures TaskMessage(s', u).delivery != d {
      if u == t { WorkTask(s, cfg, t, a); } else { OtherTask(s, cfg, t, a, u); }
    }
  }

  lemma AbandonedSends(s: State, cfg: Config, t: Id, a: WorkAction, d: Id)
    requires WorkEnabled(s, cfg, t, a) && Abandoned(s, d)
    ensures Count(WorkApply(s, cfg, t, a).ledger.sends, d) == Count(s.ledger.sends, d)
  {
  }

  lemma AbandonedScheduler(s: State, w: Id, a: SchedulerAction, d: Id)
    requires Wf(s) && SchedulerEnabled(s, w, a) && Abandoned(s, d)
    ensures StillAbandoned(s, SchedulerApply(s, w, a), d)
  {
  }

  lemma AbandonedReplay(s: State, w: Id, a: ReplayAction, d: Id)
    requires Wf(s) && ReplayEnabled(s, w, a) && Abandoned(s, d)
    ensures StillAbandoned(s, ReplayApply(s, w, a), d)
  {
    ReplayFrame(s, w, a);
    ReplaySends(s, w, a);
    UntraceableReplay(s, w, a, d);
  }

  /** A replay of an abandoned delivery cannot be under way, nor begin: its row is not dead. */
  lemma UntraceableReplay(s: State, w: Id, a: ReplayAction, d: Id)
    requires ReplayEnabled(s, w, a) && Abandoned(s, d)
    ensures Untraceable(ReplayApply(s, w, a), d)
  {
    ReplayFrame(s, w, a);
  }

  lemma ReplaySends(s: State, w: Id, a: ReplayAction)
    requires ReplayEnabled(s, w, a)
    ensures ReplayApply(s, w, a).ledger.sends == s.ledger.sends
  {
  }

  lemma AbandonedEnvironment(s: State, a: EnvAction, d: Id)
    requires Wf(s) && EnvEnabled(s, a) && Abandoned(s, d)
    ensures StillAbandoned(s, EnvApply(s, a), d)
  {
    EnvFrame(s, a);
  }

  lemma AbandonedStep(s: State, cfg: Config, a: Action, d: Id)
    requires Wf(s) && Enabled(s, cfg, a) && Abandoned(s, d)
    ensures StillAbandoned(s, Apply(s, cfg, a), d)
  {
    match a
    case Environment(e) => AbandonedEnvironment(s, e, d);
    case RelayStep(x, r) => AbandonedRelay(s, x, r, d);
    case WorkStep(t, w) => AbandonedWork(s, cfg, t, w, d);
    case SchedulerStep(w, b) => AbandonedScheduler(s, w, b, d);
    case ReplayStep(w, b) => AbandonedReplay(s, w, b, d);
  }

  lemma AbandonedAt(cfg: Config, states: seq<State>, actions: seq<Action>, i: nat, d: Id)
    requires IsRun(cfg, states, actions) && i < |actions| && Abandoned(states[i], d)
    ensures StillAbandoned(states[i], states[i + 1], d)
  {
    RunIsWf(cfg, states, actions, i);
    assert StepAt(cfg, states, actions, i);
    AbandonedStep(states[i], cfg, actions[i], d);
  }

  lemma AbandonedChain(s: State, s': State, s'': State, d: Id)
    requires StillAbandoned(s, s', d) && StillAbandoned(s', s'', d)
    ensures StillAbandoned(s, s'', d)
  {
  }

  /** Nothing the system does ever picks an abandoned delivery up again: no request is ever
      sent for it, and as long as its row exists the row stays unfinished and unchanged. */
  lemma {:induction false} AbandonedForever(cfg: Config, states: seq<State>, actions: seq<Action>, i: nat, j: nat, d: Id)
    requires IsRun(cfg, states, actions) && i <= j < |states|
    requires Abandoned(states[i], d)
    ensures StillAbandoned(states[i], states[j], d)
    decreases j
  {
    if i < j {
      AbandonedForever(cfg, states, actions, i, j - 1, d);
      AbandonedAt(cfg, states, actions, j - 1, d);
      AbandonedChain(states[i], states[j - 1], states[j], d);
    }
  }
}
