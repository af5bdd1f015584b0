/** Runs in which no message is claimed once an attempt for it has committed. They refine the
    clean specification: one token per unfinished delivery, none for a finished one, budgets
    kept, nothing early. */
module CleanRuns {
  import opened Prelude
  import opened Protocol
  import opened Frames
  import opened Invariants
  import opened NoLostWork
  import opened Hazards

  /** A replay commits its reset over the very row it read: nobody else committed in between. */
  ghost predicate ResetsWhatItRead(s: State, a: Action) {
    a.ReplayStep? && a.reset.CommitReset? && a.replay in s.reading && a.reset.delivery in s.store.deliveries ==>
      s.store.deliveries[a.reset.delivery] == s.reading[a.replay].row
  }

  /** No redelivery after a commit, no claim from a living holder, no reset over another commit. */
  ghost predicate CleanAction(s: State, a: Action) {
    && ClaimsFromTheDead(s, a)
    && ResetsWhatItRead(s, a)
    && (a.WorkStep? && a.work.ClaimStale? ==> a.work.msg !in s.ledger.committed)
  }

  ghost predicate CleanRun(states: seq<State>, actions: seq<Action>)
    requires |states| == |actions| + 1
  {
    forall i | 0 <= i < |actions| :: CleanAction(states[i], actions[i])
  }

  /** An unspent entitlement to one more attempt. A pending message is spent once its attempt is
      committed and, if a retry came out of it, the retry is scheduled. */
  ghost predicate Token(s: State, c: Carrier, d: Id) {
    match c
    case InPel(m) =>
      m in s.redis.pel && m < |s.redis.entries| && s.redis.entries[m].delivery == d && m !in s.ledger.done
    case Owing(_) => false
    case _ => Carries(s, c, d)
  }

  ghost predicate OneToken(s: State) {
    forall b, c, d :: Token(s, b, d) && Token(s, c, d) ==> b == c
  }

  ghost predicate NoToken(s: State, d: Id) {
    forall c :: !Token(s, c, d)
  }

  /** Finished deliveries, and rows not published yet, have no token. */
  ghost predicate FinishedHaveNone(s: State) {
    && (forall d | d in s.store.deliveries && !s.store.deliveries[d].Live() :: NoToken(s, d))
    && (forall x | x in s.txs && s.txs[x].unpublished.Some? :: NoToken(s, s.txs[x].unpublished.value))
    && (forall x, d | x in s.txs && d in s.txs[x].created :: s.txs[x].created[d].state.Pending?)
  }

  /** The ledger's two sets of messages against the phases of the coroutines holding them. */
  ghost predicate PhasesMatch(s: State) {
    && s.ledger.done <= s.ledger.committed
    && (forall m | m in s.ledger.committed :: m < s.redis.delivered)
    && forall t | t in s.tasks :: PhaseMatches(s, t)
  }

  ghost predicate PhaseMatches(s: State, t: Id)
    requires t in s.tasks
  {
    var m, p := s.tasks[t].msg, s.tasks[t].phase;
    && (p.Read? || p.Attempting? || p.Requested? || p.Gone? ==> m !in s.ledger.committed)
    && (p.MustSchedule? ==> m in s.ledger.committed && m !in s.ledger.done)
    && (p.ReadyToAck? ==> m in s.ledger.done)
  }

  lemma PhasesMatchWork(s: State, cfg: Config, t: Id, a: WorkAction)
    requires Wf(s) && SoleHolders(s) && PhasesMatch(s) && WorkEnabled(s, cfg, t, a)
    requires CleanAction(s, WorkStep(t, a))
    ensures PhasesMatch(WorkApply(s, cfg, t, a))
  {
    var s' := WorkApply(s, cfg, t, a);
    WorkRedis(s, cfg, t, a);
    WorkSpends(s, cfg, t, a);
    forall u | u in s'.tasks ensures PhaseMatches(s', u) {
      if u == t {
        OwnPhase(s, cfg, t, a);
      } else {
        OtherTask(s, cfg, t, a, u);
        assert PhaseMatches(s, u);
      }
    }
  }

  /** Only the acting coroutine's own message is marked. */
  lemma WorkSpends(s: State, cfg: Config, t: Id, a: WorkAction)
    requires WorkEnabled(s, cfg, t, a)
    ensures var s' := WorkApply(s, cfg, t, a);
            && s'.ledger.committed == (if a.CommitDeferral? || a.CommitAttempt?
                                       then s.ledger.committed + {s.tasks[t].msg} else s.ledger.committed)
            && s'.ledger.done == (if a.ScheduleRetry? || (a.CommitAttempt? && s'.tasks[t].phase.ReadyToAck?)
                                  then s.ledger.done + {s.tasks[t].msg} else s.ledger.done)
  {
  }

  lemma StartPhase(s: State, cfg: Config, t: Id, a: WorkAction)
    requires Wf(s) && PhasesMatch(s) && WorkEnabled(s, cfg, t, a) && (a.ReadNext? || a.ClaimStale?)
    requires CleanAction(s, WorkStep(t, a))
    ensures t in WorkApply(s, cfg, t, a).tasks && PhaseMatches(WorkApply(s, cfg, t, a), t)
  {
  }

  lemma CommitPhase(s: State, cfg: Config, t: Id, a: WorkAction)
    requires PhasesMatch(s) && WorkEnabled(s, cfg, t, a) && (a.CommitDeferral? || a.CommitAttempt? || a.ScheduleRetry?)
    ensures t in WorkApply(s, cfg, t, a).tasks && PhaseMatches(WorkApply(s, cfg, t, a), t)
  {
    assert PhaseMatches(s, t);
  }

  lemma QuietPhase(s: State, cfg: Config, t: Id, a: WorkAction)
    requires PhasesMatch(s) && WorkEnabled(s, cfg, t, a) && (a.BeginAttempt? || a.NotFound? || a.Request?)
    ensures t in WorkApply(s, cfg, t, a).tasks ==> PhaseMatches(WorkApply(s, cfg, t, a), t)
  {
    assert PhaseMatches(s, t);
  }

  lemma OwnPhase(s: State, cfg: Config, t: Id, a: WorkAction)
    requires Wf(s) && PhasesMatch(s) && WorkEnabled(s, cfg, t, a)
    requires CleanAction(s, WorkStep(t, a))
    requires t in WorkApply(s, cfg, t, a).tasks
    ensures PhaseMatches(WorkApply(s, cfg, t, a), t)
  {
    if a.ReadNext? || a.ClaimStale? {
      StartPhase(s, cfg, t, a);
    } else if a.CommitDeferral? || a.CommitAttempt? || a.ScheduleRetry? {
      CommitPhase(s, cfg, t, a);
    } else if a.BeginAttempt? || a.NotFound? || a.Request? {
      QuietPhase(s, cfg, t, a);
    } else {
      EndLeavesNoTask(s, cfg, t, a);
    }
  }

  // ------------------------------------------------------------ where a token came from

  function WorkBack(s: State, t: Id, a: WorkAction, c: Carrier): Carrier {
    if a.ReadNext? && c == InPel(s.redis.delivered) then InStream(s.redis.delivered)
    else if a.ScheduleRetry? && AtPhase(s, t) && c == InRetrySet(TaskMessage(s, t)) then InPel(s.tasks[t].msg)
    else c
  }

  ghost predicate TokensWf(s: State) {
    Wf(s) && SoleHolders(s) && PhasesMatch(s) && OneToken(s) && FinishedHaveNone(s)
  }

  lemma WorkTokenBack(s: State, cfg: Config, t: Id, a: WorkAction, c: Carrier, d: Id)
    requires TokensWf(s) && WorkEnabled(s, cfg, t, a) && Token(WorkApply(s, cfg, t, a), c, d)
    ensures Token(s, WorkBack(s, t, a, c), d)
  {
    WorkFrame(s, cfg, t, a);
    WorkRedis(s, cfg, t, a);
    WorkSpends(s, cfg, t, a);
    if t in s.tasks { assert PhaseMatches(s, t); }
  }

  lemma OneTokenWork(s: State, cfg: Config, t: Id, a: WorkAction)
    requires TokensWf(s) && WorkEnabled(s, cfg, t, a)
    ensures OneToken(WorkApply(s, cfg, t, a))
  {
    var s' := WorkApply(s, cfg, t, a);
    WorkRedis(s, cfg, t, a);
    WorkSpends(s, cfg, t, a);
    forall b, c, d | Token(s', b, d) && Token(s', c, d) ensures b == c {
      WorkTokenBack(s, cfg, t, a, b, d);
      WorkTokenBack(s, cfg, t, a, c, d);
    }
  }

  /** The message a coroutine is working on is its delivery's token until it is spent. */
  lemma HeldToken(s: State, t: Id)
    requires TokensWf(s) && t in s.tasks && !s.tasks[t].phase.ReadyToAck?
    ensures AtPhase(s, t) && Token(s, InPel(s.tasks[t].msg), TaskMessage(s, t).delivery)
  {
    assert PhaseMatches(s, t);
  }

  lemma FinishedWork(s: State, cfg: Config, t: Id, a: WorkAction)
    requires TokensWf(s) && WorkEnabled(s, cfg, t, a)
    ensures FinishedHaveNone(WorkApply(s, cfg, t, a))
  {
    var s' := WorkApply(s, cfg, t, a);
    WorkFrame(s, cfg, t, a);
    WorkRows(s, cfg, t, a);
    forall d, c | d in s'.store.deliveries && !s'.store.deliveries[d].Live() ensures !Token(s', c, d) {
      if Token(s', c, d) {
        WorkTokenBack(s, cfg, t, a, c, d);
        assert d in s.store.deliveries && s.store.deliveries[d].Live();
        FinishedCommit(s, cfg, t, a, d);
        HeldToken(s, t);
        WorkSpends(s, cfg, t, a);
        assert false;
      }
    }
    forall x, c | x in s'.txs && s'.txs[x].unpublished.Some? ensures !Token(s', c, s'.txs[x].unpublished.value) {
      if Token(s', c, s'.txs[x].unpublished.value) {
        WorkTokenBack(s, cfg, t, a, c, s.txs[x].unpublished.value);
      }
    }
  }

  /** A live row becomes final only in the attempt's own commit, which spends its message. */
  lemma FinishedCommit(s: State, cfg: Config, t: Id, a: WorkAction, d: Id)
    requires WorkEnabled(s, cfg, t, a)
    requires d in s.store.deliveries && s.store.deliveries[d].Live()
    requires d in WorkApply(s, cfg, t, a).store.deliveries && !WorkApply(s, cfg, t, a).store.deliveries[d].Live()
    ensures a.CommitAttempt? && TaskMessage(s, t).delivery == d
    ensures WorkApply(s, cfg, t, a).tasks[t].phase.ReadyToAck? && !s.tasks[t].phase.ReadyToAck?
  {
  }

  lemma TokensWork(s: State, cfg: Config, t: Id, a: WorkAction)
    requires TokensWf(s) && WorkEnabled(s, cfg, t, a) && CleanAction(s, WorkStep(t, a))
    ensures TokensWf(WorkApply(s, cfg, t, a))
  {
    WfWork(s, cfg, t, a);
    SoleHoldersWork(s, cfg, t, a);
    PhasesMatchWork(s, cfg, t, a);
    OneTokenWork(s, cfg, t, a);
    FinishedWork(s, cfg, t, a);
  }

  // ---------------------------------------------------------------- relay

  lemma FreshHasNone(s: State, d: Id)
    requires Wf(s) && d !in s.ledger.ids
    ensures NoToken(s, d)
  {
  }

  lemma RelayLedger(s: State, x: Id, a: RelayAction)
    requires RelayEnabled(s, x, a)
    ensures var s' := RelayApply(s, x, a);
            s'.ledger.done == s.ledger.done && s'.ledger.committed == s.ledger.committed
            && s'.clock == s.clock
  {
  }

  /** Only publishing makes a token, and the row it makes it for had none. */
  lemma RelayTokenBack(s: State, x: Id, a: RelayAction, c: Carrier, d: Id)
    requires TokensWf(s) && RelayEnabled(s, x, a) && Token(RelayApply(s, x, a), c, d)
    ensures Token(s, c, d) || (c == InStream(|s.redis.entries|) && NoToken(s, d) && a.Publish?
                               && x in s.txs && s.txs[x].unpublished == Some(d))
  {
    RelayFrame(s, x, a);
    RelayEntries(s, x, a);
    RelayLedger(s, x, a);
  }

  lemma FinishedRelay(s: State, x: Id, a: RelayAction)
    requires TokensWf(s) && RelayEnabled(s, x, a)
    ensures FinishedHaveNone(RelayApply(s, x, a))
  {
    var s' := RelayApply(s, x, a);
    RelayFrame(s, x, a);
    RelayTx(s, x, a);
    forall y, d | y in s'.txs && d in s'.txs[y].created ensures s'.txs[y].created[d].state.Pending? {
      if y != x { OtherTx(s, x, a, y); }
    }
    forall d, c | d in s'.store.deliveries && !s'.store.deliveries[d].Live() ensures !Token(s', c, d) {
      if Token(s', c, d) { RelayTokenBack(s, x, a, c, d); }
    }
    forall y, c | y in s'.txs && s'.txs[y].unpublished.Some? ensures !Token(s', c, s'.txs[y].unpublished.value) {
      var d := s'.txs[y].unpublished.value;
      if y != x { OtherTx(s, x, a, y); }
      if a.CreateDelivery? && y == x { FreshHasNone(s, d); }
      if Token(s', c, d) { RelayTokenBack(s, x, a, c, d); }
    }
  }

  lemma PhasesFrame(s: State, s': State)
    requires PhasesMatch(s) && s'.tasks == s.tasks && s'.redis.delivered == s.redis.delivered
    requires s'.ledger.done == s.ledger.done && s'.ledger.committed == s.ledger.committed
    ensures PhasesMatch(s')
  {
    forall t | t in s'.tasks ensures PhaseMatches(s', t) { assert PhaseMatches(s, t); }
  }

  lemma TokensRelay(s: State, x: Id, a: RelayAction)
    requires TokensWf(s) && RelayEnabled(s, x, a)
    ensures TokensWf(RelayApply(s, x, a))
  {
    var s' := RelayApply(s, x, a);
    WfRelay(s, x, a);
    RelayFrame(s, x, a);
    RelayLedger(s, x, a);
    PhasesFrame(s, s');
    FinishedRelay(s, x, a);
    forall b, c, d | Token(s', b, d) && Token(s', c, d) ensures b == c {
      RelayTokenBack(s, x, a, b, d);
      RelayTokenBack(s, x, a, c, d);
    }
  }

  // ------------------------------------------------ scheduler, replay and environment

  function SchedulerBack(s: State, w: Id, a: SchedulerAction, c: Carrier): Carrier {
    if a.PopDue? && c == InHand(w, |HandOf(s, w)|) then InRetrySet(a.member)
    else if a.Requeue? && c == InStream(|s.redis.entries|) then InHand(w, 0)
    else if a.Requeue? && c.InHand? && c.worker == w then InHand(w, c.position + 1)
    else c
  }

  lemma SchedulerTokenBack(s: State, w: Id, a: SchedulerAction, c: Carrier, d: Id)
    requires TokensWf(s) && SchedulerEnabled(s, w, a) && Token(SchedulerApply(s, w, a), c, d)
    ensures Token(s, SchedulerBack(s, w, a, c), d)
  {
  }

  lemma SchedulerLedger(s: State, w: Id, a: SchedulerAction)
    requires SchedulerEnabled(s, w, a)
    ensures var s' := SchedulerApply(s, w, a);
            s'.ledger.done == s.ledger.done && s'.ledger.committed == s.ledger.committed
  {
  }

  lemma TokensScheduler(s: State, w: Id, a: SchedulerAction)
    requires TokensWf(s) && SchedulerEnabled(s, w, a)
    ensures TokensWf(SchedulerApply(s, w, a))
  {
    var s' := SchedulerApply(s, w, a);
    WfScheduler(s, w, a);
    SchedulerFrame(s, w, a);
    SchedulerLedger(s, w, a);
    PhasesFrame(s, s');
    OneTokenScheduler(s, w, a);
    forall c, d | Token(s', c, d) ensures Token(s, SchedulerBack(s, w, a, c), d) {
      SchedulerTokenBack(s, w, a, c, d);
    }
    assert forall d | NoToken(s, d) :: NoToken(s', d);
  }

  lemma OneTokenScheduler(s: State, w: Id, a: SchedulerAction)
    requires TokensWf(s) && SchedulerEnabled(s, w, a)
    ensures OneToken(SchedulerApply(s, w, a))
  {
    var s' := SchedulerApply(s, w, a);
    forall b, c, d | Token(s', b, d) && Token(s', c, d) ensures b == c {
      SchedulerTokenBack(s, w, a, b, d);
      SchedulerTokenBack(s, w, a, c, d);
    }
  }

  /** A reset that commits what it read rewrites a row that is still dead. */
  lemma ResetReadsDead(s: State, w: Id, a: ReplayAction)
    requires Wf(s) && ReplayEnabled(s, w, a) && ResetsWhatItRead(s, ReplayStep(w, a))
    ensures a.CommitReset? ==> a.delivery in s.store.deliveries && s.store.deliveries[a.delivery].state.Dead?
  {
    if a.CommitReset? { assert DeadRow(s, s.reading[w]); }
  }

  lemma ReplayTokenBack(s: State, w: Id, a: ReplayAction, c: Carrier, d: Id)
    requires TokensWf(s) && ReplayEnabled(s, w, a) && ResetsWhatItRead(s, ReplayStep(w, a))
    requires Token(ReplayApply(s, w, a), c, d)
    ensures || (a.CommitReset? && c == InReplay(w) && d == a.delivery && NoToken(s, d))
            || Token(s, if a.PublishReset? && c == InStream(|s.redis.entries|) then InReplay(w) else c, d)
  {
    ResetReadsDead(s, w, a);
  }

  lemma ReplayLedger(s: State, w: Id, a: ReplayAction)
    requires ReplayEnabled(s, w, a)
    ensures var s' := ReplayApply(s, w, a);
            s'.ledger.done == s.ledger.done && s'.ledger.committed == s.ledger.committed
  {
  }

  lemma OneTokenReplay(s: State, w: Id, a: ReplayAction)
    requires TokensWf(s) && ReplayEnabled(s, w, a) && ResetsWhatItRead(s, ReplayStep(w, a))
    ensures OneToken(ReplayApply(s, w, a))
  {
    var s' := ReplayApply(s, w, a);
    forall b, c, d | Token(s', b, d) && Token(s', c, d) ensures b == c {
      ReplayTokenBack(s, w, a, b, d);
      ReplayTokenBack(s, w, a, c, d);
    }
  }

  lemma TokensReplay(s: State, w: Id, a: ReplayAction)
    requires TokensWf(s) && ReplayEnabled(s, w, a) && ResetsWhatItRead(s, ReplayStep(w, a))
    ensures TokensWf(ReplayApply(s, w, a))
  {
    var s' := ReplayApply(s, w, a);
    WfReplay(s, w, a);
    ReplayFrame(s, w, a);
    ReplayLedger(s, w, a);
    PhasesFrame(s, s');
    OneTokenReplay(s, w, a);
    forall c, d | Token(s', c, d) && NoToken(s, d) ensures a.CommitReset? && d == a.delivery {
      ReplayTokenBack(s, w, a, c, d);
    }
  }

  lemma TokensEnvironment(s: State, a: EnvAction)
    requires TokensWf(s) && EnvEnabled(s, a)
    ensures TokensWf(EnvApply(s, a))
  {
    var s' := EnvApply(s, a);
    WfEnvironment(s, a);
    EnvFrame(s, a);
    EnvLedger(s, a);
    PhasesFrame(s, s');
    assert forall c, d :: Token(s', c, d) == Token(s, c, d);
  }

  lemma EnvLedger(s: State, a: EnvAction)
    requires EnvEnabled(s, a)
    ensures var s' := EnvApply(s, a);
            s'.ledger.done == s.ledger.done && s'.ledger.committed == s.ledger.committed
            && s.clock <= s'.clock
  {
  }
}
