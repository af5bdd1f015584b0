/** What the single token buys: exact rows, exact timing, exact budgets. */
module CleanSpec {
  import opened Prelude
  import opened Deliveries
  import opened Protocol
  import opened Frames
  import opened Invariants
  import opened NoLostWork
  import opened CleanRuns

  // ---------------------------------------------------------------- the invariant

  /** What a coroutine read is still what is committed, and what it committed is still there. */
  ghost predicate TaskRow(s: State, t: Id)
    requires t in s.tasks
  {
    s.tasks[t].msg < |s.redis.entries| ==>
      var d, p := TaskMessage(s, t).delivery, s.tasks[t].phase;
      d in s.store.deliveries ==>
        && (p.Attempting? || p.Requested? ==> s.store.deliveries[d] == p.row && p.row.Live())
        && (p.MustSchedule? ==> s.store.deliveries[d].state.Retrying? && s.store.deliveries[d].nextRetryAt == Some(p.at))
  }

  ghost predicate TaskRows(s: State) {
    forall t | t in s.tasks :: TaskRow(s, t)
  }

  /** A retry-set score is the row's own next_retry_at. */
  ghost predicate ScoresMatch(s: State) {
    forall k | k in s.redis.retry && k.delivery in s.store.deliveries ::
      var row := s.store.deliveries[k.delivery];
      row.state.Retrying? && row.nextRetryAt == Some(s.redis.retry[k])
  }

  /** Once a retry has left the retry set, its time has come. */
  ghost predicate DueMatch(s: State) {
    forall c, d | Token(s, c, d) && d in s.store.deliveries && !c.InRetrySet?
               && !(c.InPel? && c.msg in s.ledger.committed) :: DueRow(s, d)
  }

  ghost predicate DueRow(s: State, d: Id)
    requires d in s.store.deliveries
  {
    var row := s.store.deliveries[d];
    row.state.Retrying? ==> row.nextRetryAt.Some? && row.nextRetryAt.value <= s.clock
  }

  /** Whatever got past its first read was committed by then. */
  ghost predicate Settled(s: State) {
    && (forall k | k in s.redis.retry :: !Uncommitted(s, k.delivery))
    && forall t | t in s.tasks && HasRow(s.tasks[t].phase) :: AtPhase(s, t) && !Uncommitted(s, TaskMessage(s, t).delivery)
  }

  predicate RowInBudget(row: Delivery, maxAttempts: int) {
    && row.attemptCount <= maxAttempts
    && (row.Live() ==> row.attemptCount < maxAttempts)
    && (row.state.Retrying? <==> row.nextRetryAt.Some?)
  }

  ghost predicate Budgets(s: State, cfg: Config) {
    && (forall d | d in s.store.deliveries :: RowInBudget(s.store.deliveries[d], cfg.maxAttempts))
    && (forall x, d | x in s.txs && d in s.txs[x].created :: RowInBudget(s.txs[x].created[d], cfg.maxAttempts))
  }

  /** A reaper that found nothing is about to drop this message. */
  predicate Doomed(s: State, c: Carrier) {
    c.InPel? && exists t | t in s.tasks :: s.tasks[t].msg == c.msg && s.tasks[t].phase.Gone?
  }

  ghost predicate Usable(s: State, c: Carrier, d: Id) { Token(s, c, d) && !Doomed(s, c) }

  /** Every owed delivery has a token that is not about to be dropped, unless a crash window was
      hit for it. */
  ghost predicate Tokened(s: State) {
    forall d | Owed(s, d) :: HasUsable(s, d) || Hazardous(s, d)
  }

  ghost predicate HasUsable(s: State, d: Id) { exists c :: Usable(s, c, d) }

  ghost predicate CleanInv(s: State, cfg: Config) {
    TokensWf(s) && TaskRows(s) && ScoresMatch(s) && DueMatch(s) && Settled(s)
    && Budgets(s, cfg) && Tokened(s)
  }

  // ---------------------------------------------------------------- coroutines

  /** The row a commit rewrites is the one read, and nothing else holds that delivery. */
  lemma CommitIsAlone(s: State, cfg: Config, t: Id, a: WorkAction)
    requires CleanInv(s, cfg) && WorkEnabled(s, cfg, t, a) && (a.CommitDeferral? || a.CommitAttempt?)
    ensures AtPhase(s, t)
    ensures var d := TaskMessage(s, t).delivery;
            && d in s.store.deliveries && s.store.deliveries[d] == s.tasks[t].phase.row && s.store.deliveries[d].Live()
            && (forall c | Token(s, c, d) :: c == InPel(s.tasks[t].msg))
            && (forall k | k in s.redis.retry :: k.delivery != d)
            && (forall u | u in s.tasks && u != t && !s.tasks[u].phase.ReadyToAck? ::
                  AtPhase(s, u) && TaskMessage(s, u).delivery != d)
  {
    HeldToken(s, t);
    assert TaskRow(s, t);
    var d := TaskMessage(s, t).delivery;
    forall k | k in s.redis.retry ensures k.delivery != d {
      assert Token(s, InRetrySet(k), k.delivery);
    }
    forall u | u in s.tasks && u != t && !s.tasks[u].phase.ReadyToAck?
      ensures AtPhase(s, u) && TaskMessage(s, u).delivery != d
    {
      HeldToken(s, u);
    }
  }

  lemma OwnTaskRowCommit(s: State, cfg: Config, t: Id, a: WorkAction)
    requires WorkEnabled(s, cfg, t, a) && (a.CommitDeferral? || a.CommitAttempt?)
    ensures t in WorkApply(s, cfg, t, a).tasks && TaskRow(WorkApply(s, cfg, t, a), t)
  {
  }

  lemma OwnTaskRowQuiet(s: State, cfg: Config, t: Id, a: WorkAction)
    requires CleanInv(s, cfg) && WorkEnabled(s, cfg, t, a)
    requires a.BeginAttempt? || a.Request?
    ensures t in WorkApply(s, cfg, t, a).tasks && TaskRow(WorkApply(s, cfg, t, a), t)
  {
    assert TaskRow(s, t);
    HeldToken(s, t);
  }

  predicate HasRow(p: Phase) { p.Attempting? || p.Requested? || p.MustSchedule? }

  lemma StartHasNoRow(s: State, cfg: Config, t: Id, a: WorkAction)
    requires WorkEnabled(s, cfg, t, a) && (a.ReadNext? || a.ClaimStale?)
    ensures t in WorkApply(s, cfg, t, a).tasks && !HasRow(WorkApply(s, cfg, t, a).tasks[t].phase)
  {
  }

  lemma MissHasNoRow(s: State, cfg: Config, t: Id)
    requires WorkEnabled(s, cfg, t, NotFound)
    ensures t in WorkApply(s, cfg, t, NotFound).tasks ==> !HasRow(WorkApply(s, cfg, t, NotFound).tasks[t].phase)
  {
  }

  lemma ScheduledHasNoRow(s: State, cfg: Config, t: Id)
    requires WorkEnabled(s, cfg, t, ScheduleRetry)
    ensures t in WorkApply(s, cfg, t, ScheduleRetry).tasks ==> !HasRow(WorkApply(s, cfg, t, ScheduleRetry).tasks[t].phase)
  {
  }

  lemma PhaseWithRow(s: State, cfg: Config, t: Id, a: WorkAction)
    requires WorkEnabled(s, cfg, t, a) && t in WorkApply(s, cfg, t, a).tasks
    ensures HasRow(WorkApply(s, cfg, t, a).tasks[t].phase) ==>
              a.BeginAttempt? || a.Request? || a.CommitDeferral? || a.CommitAttempt?
  {
    if a.ReadNext? || a.ClaimStale? {
      StartHasNoRow(s, cfg, t, a);
    } else if a.NotFound? {
      MissHasNoRow(s, cfg, t);
    } else if a.ScheduleRetry? {
      ScheduledHasNoRow(s, cfg, t);
    } else if a.Ack? || a.Abort? {
      EndLeavesNoTask(s, cfg, t, a);
    }
  }

  lemma OwnTaskRow(s: State, cfg: Config, t: Id, a: WorkAction)
    requires CleanInv(s, cfg) && WorkEnabled(s, cfg, t, a)
    requires t in WorkApply(s, cfg, t, a).tasks
    ensures TaskRow(WorkApply(s, cfg, t, a), t)
  {
    PhaseWithRow(s, cfg, t, a);
    if a.CommitDeferral? || a.CommitAttempt? { OwnTaskRowCommit(s, cfg, t, a); }
    if a.BeginAttempt? || a.Request? { OwnTaskRowQuiet(s, cfg, t, a); }
  }

  lemma TaskRowsWork(s: State, cfg: Config, t: Id, a: WorkAction)
    requires CleanInv(s, cfg) && WorkEnabled(s, cfg, t, a)
    ensures TaskRows(WorkApply(s, cfg, t, a))
  {
    var s' := WorkApply(s, cfg, t, a);
    WorkFrame(s, cfg, t, a);
    WorkRows(s, cfg, t, a);
    if a.CommitDeferral? || a.CommitAttempt? { CommitIsAlone(s, cfg, t, a); }
    forall u | u in s'.tasks ensures TaskRow(s', u) {
      if u == t {
        OwnTaskRow(s, cfg, t, a);
      } else {
        OtherTask(s, cfg, t, a, u);
        assert TaskRow(s, u);
      }
    }
  }

  lemma ScoresWork(s: State, cfg: Config, t: Id, a: WorkAction)
    requires CleanInv(s, cfg) && WorkEnabled(s, cfg, t, a)
    ensures ScoresMatch(WorkApply(s, cfg, t, a))
  {
    WorkRows(s, cfg, t, a);
    WorkRedis(s, cfg, t, a);
    if a.CommitDeferral? || a.CommitAttempt? { CommitIsAlone(s, cfg, t, a); }
    if a.ScheduleRetry? { assert TaskRow(s, t); }
  }

  lemma DueWork(s: State, cfg: Config, t: Id, a: WorkAction)
    requires CleanInv(s, cfg) && WorkEnabled(s, cfg, t, a)
    ensures DueMatch(WorkApply(s, cfg, t, a))
  {
    var s' := WorkApply(s, cfg, t, a);
    WorkFrame(s, cfg, t, a);
    WorkRows(s, cfg, t, a);
    WorkSpends(s, cfg, t, a);
    if a.CommitDeferral? || a.CommitAttempt? { CommitIsAlone(s, cfg, t, a); }
    forall c, d | Token(s', c, d) && d in s'.store.deliveries && !c.InRetrySet?
               && !(c.InPel? && c.msg in s'.ledger.committed) ensures DueRow(s', d)
    {
      WorkTokenBack(s, cfg, t, a, c, d);
      assert DueRow(s, d);
    }
  }

  lemma BudgetsWork(s: State, cfg: Config, t: Id, a: WorkAction)
    requires CleanInv(s, cfg) && WorkEnabled(s, cfg, t, a)
    ensures Budgets(WorkApply(s, cfg, t, a), cfg)
  {
    WorkFrame(s, cfg, t, a);
    WorkRows(s, cfg, t, a);
    if a.CommitDeferral? || a.CommitAttempt? {
      CommitIsAlone(s, cfg, t, a);
      CommitInBudget(s, cfg, t, a);
    }
  }

  lemma CommitInBudget(s: State, cfg: Config, t: Id, a: WorkAction)
    requires WorkEnabled(s, cfg, t, a) && (a.CommitDeferral? || a.CommitAttempt?)
    requires s.tasks[t].phase.row.Live() && RowInBudget(s.tasks[t].phase.row, cfg.maxAttempts)
    ensures RowInBudget(WorkApply(s, cfg, t, a).store.deliveries[TaskMessage(s, t).delivery], cfg.maxAttempts)
  {
  }

  lemma PelTokenMoves(s: State, cfg: Config, t: Id, a: WorkAction, m: nat, d: Id)
    requires CleanInv(s, cfg) && WorkEnabled(s, cfg, t, a) && Usable(s, InPel(m), d)
    requires t in s.tasks && s.tasks[t].msg == m
    requires Owed(WorkApply(s, cfg, t, a), d)
    ensures Token(WorkApply(s, cfg, t, a), WorkSuccessor(s, t, a, InPel(m)), d)
  {
    WorkFrame(s, cfg, t, a);
    WorkRedis(s, cfg, t, a);
    WorkSpends(s, cfg, t, a);
    assert PhaseMatches(s, t);
    if a.CommitAttempt? && WorkApply(s, cfg, t, a).tasks[t].phase.ReadyToAck? {
      FinalIsNotOwed(s, cfg, t, a.ok, a.at);
    }
  }

  /** A usable token survives every coroutine step, except as the delivery is finished. */
  lemma TokenMovesWork(s: State, cfg: Config, t: Id, a: WorkAction, c: Carrier, d: Id)
    requires CleanInv(s, cfg) && WorkEnabled(s, cfg, t, a) && Usable(s, c, d)
    requires Owed(WorkApply(s, cfg, t, a), d)
    ensures Token(WorkApply(s, cfg, t, a), WorkSuccessor(s, t, a, c), d)
  {
    match c
    case InPel(m) =>
      if t in s.tasks && m == s.tasks[t].msg {
        PelTokenMoves(s, cfg, t, a, m, d);
      } else {
        OtherPelTokenMoves(s, cfg, t, a, m, d);
      }
    case InStream(i) => StreamTokenMoves(s, cfg, t, a, i, d);
    case InRetrySet(k) => RetryTokenMoves(s, cfg, t, a, k, d);
    case _ => HeldTokenMoves(s, cfg, t, a, c, d);
  }

  lemma RetryTokenMoves(s: State, cfg: Config, t: Id, a: WorkAction, k: Message, d: Id)
    requires CleanInv(s, cfg) && WorkEnabled(s, cfg, t, a) && Token(s, InRetrySet(k), d)
    ensures Token(WorkApply(s, cfg, t, a), WorkSuccessor(s, t, a, InRetrySet(k)), d)
  {
    WorkMovesStream(s, cfg, t, a, InRetrySet(k), d);
  }

  lemma HeldTokenMoves(s: State, cfg: Config, t: Id, a: WorkAction, c: Carrier, d: Id)
    requires CleanInv(s, cfg) && WorkEnabled(s, cfg, t, a) && Token(s, c, d)
    requires !c.InPel? && !c.InStream? && !c.InRetrySet?
    ensures Token(WorkApply(s, cfg, t, a), WorkSuccessor(s, t, a, c), d)
  {
    WorkMovesRest(s, cfg, t, a, c, d);
  }

  lemma StreamTokenMoves(s: State, cfg: Config, t: Id, a: WorkAction, i: nat, d: Id)
    requires CleanInv(s, cfg) && WorkEnabled(s, cfg, t, a) && Token(s, InStream(i), d)
    ensures Token(WorkApply(s, cfg, t, a), WorkSuccessor(s, t, a, InStream(i)), d)
  {
    WorkMovesStream(s, cfg, t, a, InStream(i), d);
    if a.ReadNext? && i == s.redis.delivered { WorkSpends(s, cfg, t, a); }
  }

  lemma OtherPelTokenMoves(s: State, cfg: Config, t: Id, a: WorkAction, m: nat, d: Id)
    requires CleanInv(s, cfg) && WorkEnabled(s, cfg, t, a) && Token(s, InPel(m), d)
    requires t in s.tasks ==> s.tasks[t].msg != m
    ensures Token(WorkApply(s, cfg, t, a), InPel(m), d) && WorkSuccessor(s, t, a, InPel(m)) == InPel(m)
  {
    WorkFrame(s, cfg, t, a);
    WorkRedis(s, cfg, t, a);
    WorkSpends(s, cfg, t, a);
  }

  /** Only a reaper's failed lookup dooms a message; for an owed delivery that is a drop too early. */
  lemma DoomedByDrop(s: State, cfg: Config, t: Id, a: WorkAction, c: Carrier, d: Id)
    requires CleanInv(s, cfg) && WorkEnabled(s, cfg, t, a) && Usable(s, c, d)
    requires Owed(WorkApply(s, cfg, t, a), d) && Doomed(WorkApply(s, cfg, t, a), WorkSuccessor(s, t, a, c))
    ensures Hit(s, WorkStep(t, a), d)
  {
    var s' := WorkApply(s, cfg, t, a);
    WorkFrame(s, cfg, t, a);
    WorkRows(s, cfg, t, a);
    var u :| u in s'.tasks && s'.tasks[u].msg == WorkSuccessor(s, t, a, c).msg && s'.tasks[u].phase.Gone?;
    if u == t {
      GoneByDrop(s, cfg, t, a);
      assert Uncommitted(s, d);
      assert Hits(s, WorkStep(t, a), Hazard(d, EarlyDrop));
    } else {
      OtherTask(s, cfg, t, a, u);
    }
  }

  /** A delivery that still has work to do keeps a usable token, unless this step hits a crash
      window for it. */
  lemma UsableWork(s: State, cfg: Config, t: Id, a: WorkAction, d: Id)
    requires CleanInv(s, cfg) && WorkEnabled(s, cfg, t, a)
    requires HasUsable(s, d) && Owed(WorkApply(s, cfg, t, a), d)
    ensures HasUsable(WorkApply(s, cfg, t, a), d) || Hit(s, WorkStep(t, a), d)
  {
    var c :| Usable(s, c, d);
    TokenMovesWork(s, cfg, t, a, c, d);
    if Doomed(WorkApply(s, cfg, t, a), WorkSuccessor(s, t, a, c)) {
      DoomedByDrop(s, cfg, t, a, c, d);
    } else {
      assert Usable(WorkApply(s, cfg, t, a), WorkSuccessor(s, t, a, c), d);
    }
  }

  lemma OwedBefore(s: State, cfg: Config, t: Id, a: WorkAction, d: Id)
    requires CleanInv(s, cfg) && WorkEnabled(s, cfg, t, a) && Owed(WorkApply(s, cfg, t, a), d)
    ensures Owed(s, d)
  {
    WorkFrame(s, cfg, t, a);
    WorkRows(s, cfg, t, a);
    if a.CommitDeferral? || a.CommitAttempt? { CommitIsAlone(s, cfg, t, a); }
  }

  lemma OwnSettled(s: State, cfg: Config, t: Id, a: WorkAction)
    requires CleanInv(s, cfg) && WorkEnabled(s, cfg, t, a)
    requires t in WorkApply(s, cfg, t, a).tasks && HasRow(WorkApply(s, cfg, t, a).tasks[t].phase)
    ensures AtPhase(WorkApply(s, cfg, t, a), t)
    ensures !Uncommitted(WorkApply(s, cfg, t, a), TaskMessage(WorkApply(s, cfg, t, a), t).delivery)
  {
    PhaseWithRow(s, cfg, t, a);
    WorkFrame(s, cfg, t, a);
    WorkTask(s, cfg, t, a);
    var d := TaskMessage(s, t).delivery;
    assert Uncommitted(WorkApply(s, cfg, t, a), d) == Uncommitted(s, d);
  }

  lemma SettledWork(s: State, cfg: Config, t: Id, a: WorkAction)
    requires CleanInv(s, cfg) && WorkEnabled(s, cfg, t, a)
    ensures Settled(WorkApply(s, cfg, t, a))
  {
    var s' := WorkApply(s, cfg, t, a);
    WorkFrame(s, cfg, t, a);
    WorkRedis(s, cfg, t, a);
    assert forall d :: Uncommitted(s', d) == Uncommitted(s, d);
    forall u | u in s'.tasks && HasRow(s'.tasks[u].phase)
      ensures AtPhase(s', u) && !Uncommitted(s', TaskMessage(s', u).delivery)
    {
      if u == t { OwnSettled(s, cfg, t, a); } else { OtherTask(s, cfg, t, a, u); }
    }
  }

  lemma CleanWork(s: State, cfg: Config, t: Id, a: WorkAction)
    requires CleanInv(s, cfg) && WorkEnabled(s, cfg, t, a) && CleanAction(s, WorkStep(t, a))
    ensures CleanInv(WorkApply(s, cfg, t, a), cfg)
  {
    TokensWork(s, cfg, t, a);
    TaskRowsWork(s, cfg, t, a);
    ScoresWork(s, cfg, t, a);
    DueWork(s, cfg, t, a);
    SettledWork(s, cfg, t, a);
    BudgetsWork(s, cfg, t, a);
    TokenedStep(s, cfg, WorkStep(t, a));
  }

  // ---------------------------------------------------------------- relay

  lemma SettledRelay(s: State, cfg: Config, x: Id, a: RelayAction)
    requires CleanInv(s, cfg) && RelayEnabled(s, x, a)
    ensures Settled(RelayApply(s, x, a))
  {
    var s' := RelayApply(s, x, a);
    RelayFrame(s, x, a);
    forall k | k in s'.redis.retry ensures !Uncommitted(s', k.delivery) {
      StaysOutOfTxs(s, x, a, k.delivery);
    }
    forall t | t in s'.tasks && HasRow(s'.tasks[t].phase)
      ensures AtPhase(s', t) && !Uncommitted(s', TaskMessage(s', t).delivery)
    {
      assert TaskMessage(s', t) == TaskMessage(s, t);
      StaysOutOfTxs(s, x, a, TaskMessage(s, t).delivery);
    }
  }

  lemma RowsRelay(s: State, cfg: Config, x: Id, a: RelayAction)
    requires CleanInv(s, cfg) && RelayEnabled(s, x, a)
    ensures TaskRows(RelayApply(s, x, a)) && ScoresMatch(RelayApply(s, x, a))
  {
    var s' := RelayApply(s, x, a);
    RelayFrame(s, x, a);
    forall t | t in s'.tasks ensures TaskRow(s', t) {
      assert TaskRow(s, t);
      assert TaskMessage(s', t) == TaskMessage(s, t);
    }
  }

  lemma DueRelay(s: State, cfg: Config, x: Id, a: RelayAction)
    requires CleanInv(s, cfg) && RelayEnabled(s, x, a)
    ensures DueMatch(RelayApply(s, x, a))
  {
    var s' := RelayApply(s, x, a);
    RelayFrame(s, x, a);
    RelayLedger(s, x, a);
    forall c, d | Token(s', c, d) && d in s'.store.deliveries && !c.InRetrySet?
               && !(c.InPel? && c.msg in s'.ledger.committed) ensures DueRow(s', d)
    {
      RelayTokenBack(s, x, a, c, d);
      if d in s.store.deliveries && Token(s, c, d) { assert DueRow(s, d); }
    }
  }

  lemma BudgetsRelay(s: State, cfg: Config, x: Id, a: RelayAction)
    requires CleanInv(s, cfg) && RelayEnabled(s, x, a) && cfg.maxAttempts >= 1
    ensures Budgets(RelayApply(s, x, a), cfg)
  {
    var s' := RelayApply(s, x, a);
    RelayFrame(s, x, a);
    forall y, d | y in s'.txs && d in s'.txs[y].created ensures RowInBudget(s'.txs[y].created[d], cfg.maxAttempts) {
      if y == x { RelayTx(s, x, a); } else { OtherTx(s, x, a, y); }
    }
  }

  lemma UsableRelay(s: State, cfg: Config, x: Id, a: RelayAction, d: Id)
    requires CleanInv(s, cfg) && RelayEnabled(s, x, a) && HasUsable(s, d)
    ensures HasUsable(RelayApply(s, x, a), d)
  {
    RelayFrame(s, x, a);
    RelayLedger(s, x, a);
    var c :| Usable(s, c, d);
    assert Usable(RelayApply(s, x, a), c, d);
  }

  /** What becomes owed in a relay step was published in it. */
  lemma PublishedIsUsable(s: State, x: Id, a: RelayAction, d: Id)
    requires Wf(s) && RelayEnabled(s, x, a)
    requires !Owed(s, d) && Owed(RelayApply(s, x, a), d)
    ensures HasUsable(RelayApply(s, x, a), d)
  {
    var s' := RelayApply(s, x, a);
    NewlyOwedIsPublished(s, x, a, d);
    RelayFrame(s, x, a);
    assert Usable(s', InStream(|s.redis.entries|), d);
  }

  lemma NewlyOwedIsPublished(s: State, x: Id, a: RelayAction, d: Id)
    requires Wf(s) && RelayEnabled(s, x, a)
    requires !Owed(s, d) && Owed(RelayApply(s, x, a), d)
    ensures a.Publish? && x in s.txs && s.txs[x].unpublished == Some(d)
    ensures var s' := RelayApply(s, x, a);
            |s'.redis.entries| == |s.redis.entries| + 1 && s'.redis.entries[|s.redis.entries|].delivery == d
  {
    var s' := RelayApply(s, x, a);
    RelayFrame(s, x, a);
    RelayTx(s, x, a);
    if !(d in s'.store.deliveries && s'.store.deliveries[d].Live()) {
      var y :| y in s'.txs && d in s'.txs[y].created && s'.txs[y].unpublished != Some(d);
      if y != x { OtherTx(s, x, a, y); }
    }
  }

  lemma CleanRelay(s: State, cfg: Config, x: Id, a: RelayAction)
    requires CleanInv(s, cfg) && RelayEnabled(s, x, a) && cfg.maxAttempts >= 1
    ensures CleanInv(RelayApply(s, x, a), cfg)
  {
    TokensRelay(s, x, a);
    SettledRelay(s, cfg, x, a);
    RowsRelay(s, cfg, x, a);
    DueRelay(s, cfg, x, a);
    BudgetsRelay(s, cfg, x, a);
    TokenedStep(s, cfg, RelayStep(x, a));
  }

  // ---------------------------------------------------------------- scheduler

  lemma TaskRowsFrame(s: State, s': State, except: Option<Id>)
    requires RedisWf(s) && TaskRows(s) && Settled(s)
    requires s'.tasks == s.tasks && s'.txs == s.txs && s.redis.entries <= s'.redis.entries
    requires s'.store.deliveries.Keys <= s.store.deliveries.Keys
    requires forall d | d in s'.store.deliveries && Some(d) != except :: s'.store.deliveries[d] == s.store.deliveries[d]
    requires forall t | t in s.tasks && AtPhase(s, t) && HasRow(s.tasks[t].phase) ::
               Some(TaskMessage(s, t).delivery) != except
    ensures TaskRows(s')
    ensures forall t | t in s'.tasks && HasRow(s'.tasks[t].phase) ::
              AtPhase(s', t) && !Uncommitted(s', TaskMessage(s', t).delivery)
  {
    assert forall d :: Uncommitted(s', d) == Uncommitted(s, d);
    forall t | t in s'.tasks ensures TaskRow(s', t) {
      assert TaskRow(s, t);
      assert TaskMessage(s', t) == TaskMessage(s, t);
    }
    forall t | t in s'.tasks && HasRow(s'.tasks[t].phase)
      ensures AtPhase(s', t) && !Uncommitted(s', TaskMessage(s', t).delivery)
    {
      assert TaskMessage(s', t) == TaskMessage(s, t);
    }
  }

  lemma RetryShrinks(s: State, w: Id, a: SchedulerAction)
    requires SchedulerEnabled(s, w, a)
    ensures var s' := SchedulerApply(s, w, a);
            && s'.redis.retry.Keys <= s.redis.retry.Keys
            && forall k | k in s'.redis.retry :: s'.redis.retry[k] == s.redis.retry[k]
  {
  }

  lemma DueScheduler(s: State, cfg: Config, w: Id, a: SchedulerAction)
    requires CleanInv(s, cfg) && SchedulerEnabled(s, w, a)
    ensures DueMatch(SchedulerApply(s, w, a))
  {
    var s' := SchedulerApply(s, w, a);
    SchedulerFrame(s, w, a);
    SchedulerLedger(s, w, a);
    forall c, d | Token(s', c, d) && d in s'.store.deliveries && !c.InRetrySet?
               && !(c.InPel? && c.msg in s'.ledger.committed) ensures DueRow(s', d)
    {
      SchedulerTokenBack(s, w, a, c, d);
      var b := SchedulerBack(s, w, a, c);
      if b.InRetrySet? {
        assert b.member in s.redis.retry && b.member.delivery in s.store.deliveries;
        assert a.PopDue? && s.redis.retry[a.member] <= s.clock;
      } else {
        assert DueRow(s, d);
      }
    }
  }

  lemma UsableScheduler(s: State, cfg: Config, w: Id, a: SchedulerAction, d: Id)
    requires CleanInv(s, cfg) && SchedulerEnabled(s, w, a) && HasUsable(s, d)
    ensures HasUsable(SchedulerApply(s, w, a), d) || Hit(s, SchedulerStep(w, a), d)
  {
    SchedulerFrame(s, w, a);
    SchedulerLedger(s, w, a);
    var c :| Usable(s, c, d);
    if c.InPel? {
      assert Usable(SchedulerApply(s, w, a), c, d);
    } else {
      SchedulerMoves(s, w, a, c, d);
      assert !Hit(s, SchedulerStep(w, a), d) ==> Usable(SchedulerApply(s, w, a), SchedulerSuccessor(s, w, a, c), d);
    }
  }

  lemma CleanScheduler(s: State, cfg: Config, w: Id, a: SchedulerAction)
    requires CleanInv(s, cfg) && SchedulerEnabled(s, w, a)
    ensures CleanInv(SchedulerApply(s, w, a), cfg)
  {
    var s' := SchedulerApply(s, w, a);
    TokensScheduler(s, w, a);
    SchedulerFrame(s, w, a);
    RetryShrinks(s, w, a);
    TaskRowsFrame(s, s', None);
    assert forall d :: Uncommitted(s', d) == Uncommitted(s, d);
    DueScheduler(s, cfg, w, a);
    TokenedStep(s, cfg, SchedulerStep(w, a));
  }

  // ---------------------------------------------------------------- replay

  /** Only dead rows are reset, and a dead row has nothing left in flight. */
  lemma ResetIsAlone(s: State, cfg: Config, d: Id)
    requires CleanInv(s, cfg) && d in s.store.deliveries && !s.store.deliveries[d].Live()
    ensures forall k | k in s.redis.retry :: k.delivery != d
    ensures forall t | t in s.tasks && AtPhase(s, t) && HasRow(s.tasks[t].phase) :: TaskMessage(s, t).delivery != d
  {
    forall k | k in s.redis.retry ensures k.delivery != d {
      assert Token(s, InRetrySet(k), k.delivery);
    }
    forall t | t in s.tasks && AtPhase(s, t) && HasRow(s.tasks[t].phase) ensures TaskMessage(s, t).delivery != d {
      HeldToken(s, t);
    }
  }

  lemma DueReplay(s: State, cfg: Config, w: Id, a: ReplayAction)
    requires CleanInv(s, cfg) && ReplayEnabled(s, w, a) && ResetsWhatItRead(s, ReplayStep(w, a))
    ensures DueMatch(ReplayApply(s, w, a))
  {
    var s' := ReplayApply(s, w, a);
    ReplayFrame(s, w, a);
    ReplayLedger(s, w, a);
    forall c, d | Token(s', c, d) && d in s'.store.deliveries && !c.InRetrySet?
               && !(c.InPel? && c.msg in s'.ledger.committed) ensures DueRow(s', d)
    {
      ReplayTokenBack(s, w, a, c, d);
      if !(a.CommitReset? && d == a.delivery) {
        assert DueRow(s, d);
      }
    }
  }

  lemma UsableReplay(s: State, cfg: Config, w: Id, a: ReplayAction, d: Id)
    requires CleanInv(s, cfg) && ReplayEnabled(s, w, a) && HasUsable(s, d)
    ensures HasUsable(ReplayApply(s, w, a), d) || Hit(s, ReplayStep(w, a), d)
  {
    var s' := ReplayApply(s, w, a);
    ReplayFrame(s, w, a);
    ReplayLedger(s, w, a);
    var c :| Usable(s, c, d);
    if c == InReplay(w) && a.PublishReset? {
      assert Usable(s', InStream(|s.redis.entries|), d);
    } else if c == InReplay(w) && a.CrashReplay? {
      assert Hits(s, ReplayStep(w, a), Hazard(d, ReplayCrash));
    } else {
      assert Usable(s', c, d);
    }
  }

  lemma ResetIsUsable(s: State, cfg: Config, w: Id, a: ReplayAction, d: Id)
    requires CleanInv(s, cfg) && ReplayEnabled(s, w, a)
    requires !Owed(s, d) && Owed(ReplayApply(s, w, a), d)
    ensures HasUsable(ReplayApply(s, w, a), d)
  {
    ReplayFrame(s, w, a);
    assert a.CommitReset? && d == a.delivery;
    assert Usable(ReplayApply(s, w, a), InReplay(w), d);
  }

  lemma RowsReplay(s: State, cfg: Config, w: Id, a: ReplayAction)
    requires CleanInv(s, cfg) && ReplayEnabled(s, w, a) && cfg.maxAttempts >= 1
    requires ResetsWhatItRead(s, ReplayStep(w, a))
    ensures var s' := ReplayApply(s, w, a); TaskRows(s') && ScoresMatch(s') && Settled(s') && Budgets(s', cfg)
  {
    var s' := ReplayApply(s, w, a);
    ReplayFrame(s, w, a);
    ResetReadsDead(s, w, a);
    if a.CommitReset? { ResetIsAlone(s, cfg, a.delivery); }
    TaskRowsFrame(s, s', if a.CommitReset? then Some(a.delivery) else None);
    assert forall d :: Uncommitted(s', d) == Uncommitted(s, d);
  }

  lemma CleanReplay(s: State, cfg: Config, w: Id, a: ReplayAction)
    requires CleanInv(s, cfg) && ReplayEnabled(s, w, a) && cfg.maxAttempts >= 1
    requires ResetsWhatItRead(s, ReplayStep(w, a))
    ensures CleanInv(ReplayApply(s, w, a), cfg)
  {
    var s' := ReplayApply(s, w, a);
    TokensReplay(s, w, a);
    ReplayFrame(s, w, a);
    RowsReplay(s, cfg, w, a);
    DueReplay(s, cfg, w, a);
    TokenedStep(s, cfg, ReplayStep(w, a));
  }

  // ---------------------------------------------------------------- environment

  lemma DueEnvironment(s: State, cfg: Config, a: EnvAction)
    requires CleanInv(s, cfg) && EnvEnabled(s, a)
    ensures DueMatch(EnvApply(s, a))
  {
    var s' := EnvApply(s, a);
    EnvFrame(s, a);
    EnvLedger(s, a);
    assert forall c, d :: Token(s', c, d) == Token(s, c, d);
    forall c, d | Token(s', c, d) && d in s'.store.deliveries && !c.InRetrySet?
               && !(c.InPel? && c.msg in s'.ledger.committed) ensures DueRow(s', d)
    {
      assert DueRow(s, d);
    }
  }

  lemma UsableEnvironment(s: State, cfg: Config, a: EnvAction, d: Id)
    requires CleanInv(s, cfg) && EnvEnabled(s, a) && HasUsable(s, d)
    ensures HasUsable(EnvApply(s, a), d)
  {
    EnvFrame(s, a);
    EnvLedger(s, a);
    var c :| Usable(s, c, d);
    assert Usable(EnvApply(s, a), c, d);
  }

  lemma CleanEnvironment(s: State, cfg: Config, a: EnvAction)
    requires CleanInv(s, cfg) && EnvEnabled(s, a)
    ensures CleanInv(EnvApply(s, a), cfg)
  {
    var s' := EnvApply(s, a);
    TokensEnvironment(s, a);
    EnvFrame(s, a);
    TaskRowsFrame(s, s', None);
    assert forall d :: Uncommitted(s', d) == Uncommitted(s, d);
    DueEnvironment(s, cfg, a);
    TokenedStep(s, cfg, Environment(a));
  }

  // ---------------------------------------------------------------- every owed delivery's token

  /** An owed delivery keeps a usable token in every step that does not hit a crash window for
      it, and gets one with the step that makes it owed. */
  lemma UsableStep(s: State, cfg: Config, a: Action, d: Id)
    requires CleanInv(s, cfg) && Enabled(s, cfg, a)
    requires HasUsable(s, d) || !Owed(s, d)
    requires Owed(Apply(s, cfg, a), d)
    ensures HasUsable(Apply(s, cfg, a), d) || Hit(s, a, d)
  {
    match a
    case Environment(e) => EnvFrame(s, e); UsableEnvironment(s, cfg, e, d);
    case RelayStep(x, r) => if HasUsable(s, d) { UsableRelay(s, cfg, x, r, d); } else { PublishedIsUsable(s, x, r, d); }
    case WorkStep(t, w) => OwedBefore(s, cfg, t, w, d); UsableWork(s, cfg, t, w, d);
    case SchedulerStep(w, b) => SchedulerFrame(s, w, b); UsableScheduler(s, cfg, w, b, d);
    case ReplayStep(w, b) => if HasUsable(s, d) { UsableReplay(s, cfg, w, b, d); } else { ResetIsUsable(s, cfg, w, b, d); }
  }

  lemma TokenedStep(s: State, cfg: Config, a: Action)
    requires CleanInv(s, cfg) && Enabled(s, cfg, a)
    ensures Tokened(Apply(s, cfg, a))
  {
    forall d | Owed(Apply(s, cfg, a), d) ensures HasUsable(Apply(s, cfg, a), d) || Hazardous(Apply(s, cfg, a), d) {
      if Owed(s, d) && !HasUsable(s, d) {
        HazardsStay(s, cfg, a, d);
      } else {
        UsableStep(s, cfg, a, d);
        if Hit(s, a, d) { HitIsRecorded(s, cfg, a, d); }
      }
    }
  }

  lemma CleanStep(s: State, cfg: Config, a: Action)
    requires CleanInv(s, cfg) && Enabled(s, cfg, a) && CleanAction(s, a) && cfg.maxAttempts >= 1
    ensures CleanInv(Apply(s, cfg, a), cfg)
  {
    match a
    case Environment(e) => CleanEnvironment(s, cfg, e);
    case RelayStep(x, r) => CleanRelay(s, cfg, x, r);
    case WorkStep(t, w) => CleanWork(s, cfg, t, w);
    case SchedulerStep(w, b) => CleanScheduler(s, cfg, w, b);
    case ReplayStep(w, b) => CleanReplay(s, cfg, w, b);
  }

  lemma InitiallyClean(cfg: Config, s: State)
    requires s == INITIAL
    ensures CleanInv(s, cfg)
  {
  }

  lemma {:induction false} RunIsClean(cfg: Config, states: seq<State>, actions: seq<Action>, i: nat)
    requires IsRun(cfg, states, actions) && CleanRun(states, actions) && i < |states| && cfg.maxAttempts >= 1
    ensures CleanInv(states[i], cfg)
  {
    if i > 0 {
      RunIsClean(cfg, states, actions, i - 1);
      RunStepsClean(cfg, states, actions, i - 1);
    } else {
      InitiallyClean(cfg, states[i]);
    }
  }

  lemma RunStepsClean(cfg: Config, states: seq<State>, actions: seq<Action>, i: nat)
    requires IsRun(cfg, states, actions) && CleanRun(states, actions) && i < |actions| && cfg.maxAttempts >= 1
    requires CleanInv(states[i], cfg)
    ensures CleanInv(states[i + 1], cfg)
  {
    assert StepAt(cfg, states, actions, i);
    CleanStep(states[i], cfg, actions[i]);
  }

  // ---------------------------------------------------------------- the clean specification

  /** Work to do and no token that anybody will use. */
  ghost predicate Bereft(s: State, d: Id) {
    Owed(s, d) && !HasUsable(s, d)
  }

  /** Step j hit a crash window for the delivery, and it has had no usable token ever since. */
  ghost predicate BereftSince(states: seq<State>, actions: seq<Action>, j: nat, i: nat, d: Id)
    requires |states| == |actions| + 1 && j < i < |states|
  {
    Hit(states[j], actions[j], d) && forall k | j < k <= i :: Bereft(states[k], d)
  }

  lemma {:induction false} BereftOnlyByHit(cfg: Config, states: seq<State>, actions: seq<Action>, i: nat, d: Id)
    requires IsRun(cfg, states, actions) && CleanRun(states, actions) && i < |states| && cfg.maxAttempts >= 1
    requires Bereft(states[i], d)
    ensures exists j | 0 <= j < i :: BereftSince(states, actions, j, i, d)
  {
    if i > 0 {
      if Bereft(states[i - 1], d) {
        BereftOnlyByHit(cfg, states, actions, i - 1, d);
        var j :| 0 <= j < i - 1 && BereftSince(states, actions, j, i - 1, d);
        assert BereftSince(states, actions, j, i, d);
      } else {
        BereftByHit(cfg, states, actions, i - 1, d);
        assert BereftSince(states, actions, i - 1, i, d);
      }
    }
  }

  lemma BereftByHit(cfg: Config, states: seq<State>, actions: seq<Action>, i: nat, d: Id)
    requires IsRun(cfg, states, actions) && CleanRun(states, actions) && i < |actions| && cfg.maxAttempts >= 1
    requires !Bereft(states[i], d) && Bereft(states[i + 1], d)
    ensures Hit(states[i], actions[i], d)
  {
    RunIsClean(cfg, states, actions, i);
    assert StepAt(cfg, states, actions, i);
    UsableStep(states[i], cfg, actions[i], d);
  }

  /** An unfinished delivery has exactly one token, unless a crash window was hit for it since it
      last had one; a finished one has none, no budget is ever exceeded, and the retry set agrees
      with the rows. */
  lemma CleanRefinement(cfg: Config, states: seq<State>, actions: seq<Action>, i: nat, d: Id)
    requires IsRun(cfg, states, actions) && CleanRun(states, actions) && i < |states| && cfg.maxAttempts >= 1
    requires d in states[i].store.deliveries
    ensures var s, row := states[i], states[i].store.deliveries[d];
            && (row.Live() ==> HasUsable(s, d) || exists j | 0 <= j < i :: BereftSince(states, actions, j, i, d))
            && (forall b, c :: Token(s, b, d) && Token(s, c, d) ==> b == c)
            && (!row.Live() ==> NoToken(s, d))
            && row.attemptCount <= cfg.maxAttempts
            && (row.Live() ==> row.attemptCount < cfg.maxAttempts)
            && (forall k | k in s.redis.retry && k.delivery == d ::
                  row.state.Retrying? && row.nextRetryAt == Some(s.redis.retry[k]))
  {
    RunIsClean(cfg, states, actions, i);
    if Bereft(states[i], d) { BereftOnlyByHit(cfg, states, actions, i, d); }
  }

  /** Delivered is absorbing, and dead is left only by a replay. */
  lemma FinishedStaysFinished(cfg: Config, states: seq<State>, actions: seq<Action>, i: nat, d: Id)
    requires IsRun(cfg, states, actions) && CleanRun(states, actions) && i < |actions| && cfg.maxAttempts >= 1
    requires d in states[i].store.deliveries && !states[i].store.deliveries[d].Live()
    requires d in states[i + 1].store.deliveries
    ensures || states[i + 1].store.deliveries[d] == states[i].store.deliveries[d]
            || (&& states[i].store.deliveries[d].state.Dead?
                && actions[i].ReplayStep? && actions[i].reset == CommitReset(d))
  {
    RunIsClean(cfg, states, actions, i);
    assert StepAt(cfg, states, actions, i);
    FinishedRowStep(states[i], cfg, actions[i], d);
  }

  lemma FinishedRowStep(s: State, cfg: Config, a: Action, d: Id)
    requires CleanInv(s, cfg) && Enabled(s, cfg, a) && CleanAction(s, a)
    requires d in s.store.deliveries && !s.store.deliveries[d].Live() && d in Apply(s, cfg, a).store.deliveries
    ensures || Apply(s, cfg, a).store.deliveries[d] == s.store.deliveries[d]
            || (s.store.deliveries[d].state.Dead? && a.ReplayStep? && a.reset == CommitReset(d))
  {
    match a
    case Environment(e) => EnvFrame(s, e);
    case RelayStep(x, r) => RelayFrame(s, x, r);
    case WorkStep(t, w) => FinishedRowWork(s, cfg, t, w, d);
    case SchedulerStep(w, b) => SchedulerFrame(s, w, b);
    case ReplayStep(w, b) => ReplayFrame(s, w, b); ResetReadsDead(s, w, b);
  }

  lemma FinishedRowWork(s: State, cfg: Config, t: Id, a: WorkAction, d: Id)
    requires CleanInv(s, cfg) && WorkEnabled(s, cfg, t, a)
    requires d in s.store.deliveries && !s.store.deliveries[d].Live()
    ensures d in WorkApply(s, cfg, t, a).store.deliveries && WorkApply(s, cfg, t, a).store.deliveries[d] == s.store.deliveries[d]
  {
    WorkRows(s, cfg, t, a);
    if a.CommitDeferral? || a.CommitAttempt? { CommitIsAlone(s, cfg, t, a); }
  }

  /** Nothing fires early: an attempt begins on a fresh row, or at or after the row's own
      next_retry_at; and it works on the row that is committed, alone. */
  lemma NothingFiresEarly(cfg: Config, states: seq<State>, actions: seq<Action>, i: nat, t: Id)
    requires IsRun(cfg, states, actions) && CleanRun(states, actions) && i < |actions| && cfg.maxAttempts >= 1
    requires actions[i] == WorkStep(t, BeginAttempt)
    ensures AtPhase(states[i], t) && TaskMessage(states[i], t).delivery in states[i].store.deliveries
    ensures var d, s := TaskMessage(states[i], t).delivery, states[i];
            var row := s.store.deliveries[d];
            && (row.state.Pending? || (row.state.Retrying? && row.nextRetryAt.Some? && row.nextRetryAt.value <= s.clock))
            && forall u | u in s.tasks && u != t && !s.tasks[u].phase.ReadyToAck? ::
                 AtPhase(s, u) && TaskMessage(s, u).delivery != d
  {
    RunIsClean(cfg, states, actions, i);
    assert StepAt(cfg, states, actions, i);
    BeginIsDue(states[i], cfg, t);
  }

  lemma BeginIsDue(s: State, cfg: Config, t: Id)
    requires CleanInv(s, cfg) && WorkEnabled(s, cfg, t, BeginAttempt)
    ensures var d := TaskMessage(s, t).delivery;
            var row := s.store.deliveries[d];
            && (row.state.Pending? || (row.state.Retrying? && row.nextRetryAt.Some? && row.nextRetryAt.value <= s.clock))
            && forall u | u in s.tasks && u != t && !s.tasks[u].phase.ReadyToAck? ::
                 AtPhase(s, u) && TaskMessage(s, u).delivery != d
  {
    HeldToken(s, t);
    assert PhaseMatches(s, t);
    var d := TaskMessage(s, t).delivery;
    assert DueRow(s, d);
    forall u | u in s.tasks && u != t && !s.tasks[u].phase.ReadyToAck?
      ensures AtPhase(s, u) && TaskMessage(s, u).delivery != d
    {
      HeldToken(s, u);
    }
  }
}
