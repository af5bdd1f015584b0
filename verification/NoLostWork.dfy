/** At-least-once: in every reachable state of every run, with crashes anywhere, each delivery
    that still has work to do is carried by something that will bring it to a worker again,
    unless one of four crash windows was hit for it. */
module NoLostWork {
  import opened Prelude
  import opened Protocol
  import opened Frames
  import opened Invariants

  /** Something that will bring a delivery to a worker again. */
  datatype Carrier =
    | InStream(entry: nat)
    | InPel(msg: nat)
    | InRetrySet(member: Message)
    | InHand(worker: Id, position: nat)
    | InReplay(replay: Id)
    | Owing(task: Id)

  ghost predicate Carries(s: State, c: Carrier, d: Id) {
    match c
    // published and not yet handed out
    case InStream(i) => s.redis.delivered <= i < |s.redis.entries| && s.redis.entries[i].delivery == d
    // handed out, and nobody is about to acknowledge it
    case InPel(m) =>
      m in s.redis.pel && m < |s.redis.entries| && s.redis.entries[m].delivery == d && !AckPending(s, m)
    case InRetrySet(k) => k in s.redis.retry && k.delivery == d
    // popped by a scheduler that has not re-added it yet
    case InHand(w, k) => w in s.hand && k < |s.hand[w]| && s.hand[w][k].delivery == d
    // reset by a replay that has not published it yet
    case InReplay(w) => w in s.replaying && s.replaying[w] == d
    // a coroutine committed a retry and still owes the retry set its member
    case Owing(t) => AtPhase(s, t) && s.tasks[t].phase.MustSchedule? && TaskMessage(s, t).delivery == d
  }

  ghost predicate Carried(s: State, d: Id) {
    exists c :: Carries(s, c, d)
  }

  predicate Hazardous(s: State, d: Id) {
    exists h | h in s.ledger.hazards :: h.delivery == d
  }

  /** Committed and unfinished, or inserted and published by an open fan-out transaction. */
  ghost predicate Owed(s: State, d: Id) {
    || (d in s.store.deliveries && s.store.deliveries[d].Live())
    || exists x | x in s.txs :: d in s.txs[x].created && s.txs[x].unpublished != Some(d)
  }

  ghost predicate NothingLost(s: State) {
    forall d :: Owed(s, d) ==> Carried(s, d) || Hazardous(s, d)
  }

  // ---------------------------------------------------------------- the four crash windows

  /** The crash, or the early drop, that each cause stands for. */
  ghost predicate Hits(s: State, a: Action, h: Hazard) {
    match h.cause
    case SchedulerCrash =>
      && a.SchedulerStep? && a.sched.CrashScheduler?
      && exists k | 0 <= k < |HandOf(s, a.worker)| :: HandOf(s, a.worker)[k].delivery == h.delivery
    case ReplayCrash =>
      a.ReplayStep? && a.reset.CrashReplay? && a.replay in s.replaying && s.replaying[a.replay] == h.delivery
    case RobbedCrash =>
      && a.WorkStep? && a.work.Abort? && Carries(s, Owing(a.task), h.delivery)
      && (s.tasks[a.task].msg !in s.redis.pel || AckPending(s, s.tasks[a.task].msg))
    case EarlyDrop =>
      && a.WorkStep? && a.work.NotFound? && AtPhase(s, a.task) && s.tasks[a.task].role.Reaper?
      && TaskMessage(s, a.task).delivery == h.delivery && Uncommitted(s, h.delivery)
  }

  /** This step is a crash window hit for this delivery. */
  ghost predicate Hit(s: State, a: Action, d: Id) {
    exists cause :: Hits(s, a, Hazard(d, cause))
  }

  lemma HitIsRecorded(s: State, cfg: Config, a: Action, d: Id)
    requires Enabled(s, cfg, a) && Hit(s, a, d)
    ensures Hazardous(Apply(s, cfg, a), d)
  {
    var cause :| Hits(s, a, Hazard(d, cause));
    assert Hazard(d, cause) in Apply(s, cfg, a).ledger.hazards;
  }

  // --------------------------------------------------------- where a carrier goes in a step

  function WorkSuccessor(s: State, t: Id, a: WorkAction, c: Carrier): Carrier {
    if a.ReadNext? && c == InStream(s.redis.delivered) then InPel(s.redis.delivered)
    else if a.ScheduleRetry? && AtPhase(s, t) && (c == Owing(t) || c == InPel(s.tasks[t].msg))
    then InRetrySet(TaskMessage(s, t))
    else if a.Abort? && c == Owing(t) && t in s.tasks then InPel(s.tasks[t].msg)
    else c
  }

  function SchedulerSuccessor(s: State, w: Id, a: SchedulerAction, c: Carrier): Carrier {
    if a.PopDue? && c == InRetrySet(a.member) then InHand(w, |HandOf(s, w)|)
    else if a.Requeue? && c == InHand(w, 0) then InStream(|s.redis.entries|)
    else if a.Requeue? && c.InHand? && c.worker == w && c.position > 0 then InHand(w, c.position - 1)
    else c
  }

  lemma SchedulerMoves(s: State, w: Id, a: SchedulerAction, c: Carrier, d: Id)
    requires Wf(s) && SchedulerEnabled(s, w, a) && Carries(s, c, d)
    ensures Carries(SchedulerApply(s, w, a), SchedulerSuccessor(s, w, a, c), d) || Hit(s, SchedulerStep(w, a), d)
  {
    if a.CrashScheduler? && c.InHand? && c.worker == w {
      assert HandOf(s, w)[c.position].delivery == d;
      assert Hits(s, SchedulerStep(w, a), Hazard(d, SchedulerCrash));
    }
  }

  lemma ReplayMoves(s: State, w: Id, a: ReplayAction, c: Carrier, d: Id)
    requires Wf(s) && ReplayEnabled(s, w, a) && Carries(s, c, d)
    ensures Carried(ReplayApply(s, w, a), d) || Hit(s, ReplayStep(w, a), d)
  {
    var s' := ReplayApply(s, w, a);
    if c == InReplay(w) {
      if a.PublishReset? {
        assert Carries(s', InStream(|s.redis.entries|), d);
      } else {
        assert Hits(s, ReplayStep(w, a), Hazard(d, ReplayCrash));
      }
    } else {
      assert Carries(s', c, d);
    }
  }

  lemma WorkMovesStream(s: State, cfg: Config, t: Id, a: WorkAction, c: Carrier, d: Id)
    requires Wf(s) && WorkEnabled(s, cfg, t, a) && Carries(s, c, d)
    requires c.InStream? || c.InRetrySet?
    ensures Carries(WorkApply(s, cfg, t, a), WorkSuccessor(s, t, a, c), d)
  {
    var s' := WorkApply(s, cfg, t, a);
    WorkFrame(s, cfg, t, a);
    WorkRedis(s, cfg, t, a);
    if a.ReadNext? && c == InStream(s.redis.delivered) && AckPending(s', s.redis.delivered) {
      var u :| u in s'.tasks && s'.tasks[u].msg == s.redis.delivered && Acking(s'.tasks[u].phase);
      OtherTask(s, cfg, t, a, u);
      assert false;
    }
  }

  /** Which steps make somebody ready to acknowledge a message. */
  lemma AckPendingOnlyBy(s: State, cfg: Config, t: Id, a: WorkAction, m: nat)
    requires Wf(s) && WorkEnabled(s, cfg, t, a) && AckPending(WorkApply(s, cfg, t, a), m)
    ensures || AckPending(s, m)
            || (&& t in s.tasks && s.tasks[t].msg == m
                && (a.ScheduleRetry? || a.CommitAttempt? || (a.NotFound? && s.tasks[t].role.Reaper?))
                && t in WorkApply(s, cfg, t, a).tasks && Acking(WorkApply(s, cfg, t, a).tasks[t].phase))
  {
    var s' := WorkApply(s, cfg, t, a);
    var u :| u in s'.tasks && s'.tasks[u].msg == m && Acking(s'.tasks[u].phase);
    if u == t {
      WorkTask(s, cfg, t, a);
    } else {
      OtherTask(s, cfg, t, a, u);
    }
  }

  lemma WorkMovesOwing(s: State, cfg: Config, t: Id, a: WorkAction, c: Carrier, d: Id)
    requires Wf(s) && WorkEnabled(s, cfg, t, a) && Carries(s, c, d)
    requires c.Owing?
    ensures Carries(WorkApply(s, cfg, t, a), WorkSuccessor(s, t, a, c), d) || Hit(s, WorkStep(t, a), d)
  {
    var s' := WorkApply(s, cfg, t, a);
    WorkFrame(s, cfg, t, a);
    if c.task != t {
      OtherTask(s, cfg, t, a, c.task);
    } else if a.Abort? {
      var m := s.tasks[t].msg;
      if m !in s.redis.pel || AckPending(s, m) {
        assert Hits(s, WorkStep(t, a), Hazard(d, RobbedCrash));
      } else if AckPending(s', m) {
        AckPendingOnlyBy(s, cfg, t, a, m);
      }
    }
  }

  /** An entry of the PEL stops being a carrier only when a coroutine gets ready to acknowledge
      it: after committing a final state, after scheduling the retry, or after finding the
      delivery gone. */
  lemma WorkMovesPel(s: State, cfg: Config, t: Id, a: WorkAction, c: Carrier, d: Id)
    requires Wf(s) && WorkEnabled(s, cfg, t, a) && Carries(s, c, d)
    requires c.InPel?
    requires Owed(WorkApply(s, cfg, t, a), d)
    ensures Carries(WorkApply(s, cfg, t, a), WorkSuccessor(s, t, a, c), d) || Hit(s, WorkStep(t, a), d)
  {
    var s' := WorkApply(s, cfg, t, a);
    WorkFrame(s, cfg, t, a);
    WorkRedis(s, cfg, t, a);
    if AckPending(s', c.msg) {
      AckPendingOnlyBy(s, cfg, t, a, c.msg);
      if a.NotFound? {
        assert Uncommitted(s, d);
        assert Hits(s, WorkStep(t, a), Hazard(d, EarlyDrop));
      } else if a.CommitAttempt? {
        FinalIsNotOwed(s, cfg, t, a.ok, a.at);
      }
    }
  }

  lemma FinalIsNotOwed(s: State, cfg: Config, t: Id, ok: bool, at: Time)
    requires Wf(s) && WorkEnabled(s, cfg, t, CommitAttempt(ok, at))
    requires WorkApply(s, cfg, t, CommitAttempt(ok, at)).tasks[t].phase.ReadyToAck?
    ensures !Owed(WorkApply(s, cfg, t, CommitAttempt(ok, at)), TaskMessage(s, t).delivery)
  {
  }

  lemma WorkMovesRest(s: State, cfg: Config, t: Id, a: WorkAction, c: Carrier, d: Id)
    requires Wf(s) && WorkEnabled(s, cfg, t, a) && Carries(s, c, d)
    requires c.InHand? || c.InReplay?
    ensures Carries(WorkApply(s, cfg, t, a), c, d)
  {
    WorkFrame(s, cfg, t, a);
  }

  lemma WorkMoves(s: State, cfg: Config, t: Id, a: WorkAction, c: Carrier, d: Id)
    requires Wf(s) && WorkEnabled(s, cfg, t, a) && Carries(s, c, d)
    requires Owed(WorkApply(s, cfg, t, a), d)
    ensures Carried(WorkApply(s, cfg, t, a), d) || Hit(s, WorkStep(t, a), d)
  {
    match c
    case InStream(_) => WorkMovesStream(s, cfg, t, a, c, d);
    case InRetrySet(_) => WorkMovesStream(s, cfg, t, a, c, d);
    case InPel(_) => WorkMovesPel(s, cfg, t, a, c, d);
    case Owing(_) => WorkMovesOwing(s, cfg, t, a, c, d);
    case InHand(_, _) => WorkMovesRest(s, cfg, t, a, c, d);
    case InReplay(_) => WorkMovesRest(s, cfg, t, a, c, d);
  }

  lemma EnvMoves(s: State, a: EnvAction, c: Carrier, d: Id)
    requires EnvEnabled(s, a) && Carries(s, c, d)
    ensures Carries(EnvApply(s, a), c, d)
  {
    EnvFrame(s, a);
  }

  lemma RelayMoves(s: State, x: Id, a: RelayAction, c: Carrier, d: Id)
    requires RelayEnabled(s, x, a) && Carries(s, c, d)
    ensures Carries(RelayApply(s, x, a), c, d)
  {
    RelayFrame(s, x, a);
  }

  lemma CarrierMoves(s: State, cfg: Config, a: Action, c: Carrier, d: Id)
    requires Wf(s) && Enabled(s, cfg, a) && Carries(s, c, d)
    requires Owed(Apply(s, cfg, a), d)
    ensures Carried(Apply(s, cfg, a), d) || Hit(s, a, d)
  {
    match a
    case Environment(e) => EnvMoves(s, e, c, d);
    case RelayStep(x, r) => RelayMoves(s, x, r, c, d);
    case WorkStep(t, w) => WorkMoves(s, cfg, t, w, c, d);
    case SchedulerStep(w, b) => SchedulerMoves(s, w, b, c, d);
    case ReplayStep(w, b) => ReplayMoves(s, w, b, c, d);
  }

  // ------------------------------------- becoming owed: each such step brings a carrier along

  lemma NewlyOwedRelay(s: State, x: Id, a: RelayAction, d: Id)
    requires Wf(s) && RelayEnabled(s, x, a)
    requires !Owed(s, d) && Owed(RelayApply(s, x, a), d)
    ensures Carried(RelayApply(s, x, a), d)
  {
    var s' := RelayApply(s, x, a);
    RelayFrame(s, x, a);
    RelayTx(s, x, a);
    if !(d in s'.store.deliveries && s'.store.deliveries[d].Live()) {
      var y :| y in s'.txs && d in s'.txs[y].created && s'.txs[y].unpublished != Some(d);
      if y != x { OtherTx(s, x, a, y); }
      assert a.Publish?;
      assert Carries(s', InStream(|s.redis.entries|), d);
    }
  }

  lemma NewlyOwedWork(s: State, cfg: Config, t: Id, a: WorkAction, d: Id)
    requires Wf(s) && WorkEnabled(s, cfg, t, a)
    requires !Owed(s, d) && Owed(WorkApply(s, cfg, t, a), d)
    ensures Carried(WorkApply(s, cfg, t, a), d)
  {
    WorkFrame(s, cfg, t, a);
    WorkRows(s, cfg, t, a);
    assert Carries(WorkApply(s, cfg, t, a), Owing(t), d);
  }

  lemma NewlyOwedReplay(s: State, w: Id, a: ReplayAction, d: Id)
    requires Wf(s) && ReplayEnabled(s, w, a)
    requires !Owed(s, d) && Owed(ReplayApply(s, w, a), d)
    ensures Carried(ReplayApply(s, w, a), d)
  {
    assert Carries(ReplayApply(s, w, a), InReplay(w), d);
  }

  lemma NewlyOwed(s: State, cfg: Config, a: Action, d: Id)
    requires Wf(s) && Enabled(s, cfg, a)
    requires !Owed(s, d) && Owed(Apply(s, cfg, a), d)
    ensures Carried(Apply(s, cfg, a), d)
  {
    match a
    case Environment(e) => EnvFrame(s, e);
    case RelayStep(x, r) => NewlyOwedRelay(s, x, r, d);
    case WorkStep(t, w) => NewlyOwedWork(s, cfg, t, w, d);
    case SchedulerStep(w, b) => SchedulerFrame(s, w, b);
    case ReplayStep(w, b) => NewlyOwedReplay(s, w, b, d);
  }

  lemma HazardsStay(s: State, cfg: Config, a: Action, d: Id)
    requires Enabled(s, cfg, a) && Hazardous(s, d)
    ensures Hazardous(Apply(s, cfg, a), d)
  {
    HazardsGrow(s, cfg, a);
  }

  lemma NothingLostStep(s: State, cfg: Config, a: Action)
    requires Wf(s) && NothingLost(s) && Enabled(s, cfg, a)
    ensures NothingLost(Apply(s, cfg, a))
  {
    var s' := Apply(s, cfg, a);
    forall d | Owed(s', d) ensures Carried(s', d) || Hazardous(s', d) {
      if !Owed(s, d) {
        NewlyOwed(s, cfg, a, d);
      } else if Hazardous(s, d) {
        HazardsStay(s, cfg, a, d);
      } else {
        var c :| Carries(s, c, d);
        CarrierMoves(s, cfg, a, c, d);
        if Hit(s, a, d) { HitIsRecorded(s, cfg, a, d); }
      }
    }
  }

  /** No lost work, over every run: any interleaving of ingests, endpoint changes, racing relay
      transactions, dispatchers, reapers, schedulers and replays, with any of them dying between
      any two commands. */
  lemma {:induction false} NoLostWork(cfg: Config, states: seq<State>, actions: seq<Action>, i: nat)
    requires IsRun(cfg, states, actions) && i < |states|
    ensures NothingLost(states[i])
  {
    if i > 0 {
      NoLostWork(cfg, states, actions, i - 1);
      RunIsWf(cfg, states, actions, i - 1);
      assert StepAt(cfg, states, actions, i - 1);
      NothingLostStep(states[i - 1], cfg, actions[i - 1]);
    }
  }

  // ------------------------------------------------ nothing else ever leaves a delivery behind

  /** Work to do and nothing that will bring it to a worker. */
  ghost predicate Stranded(s: State, d: Id) {
    Owed(s, d) && !Carried(s, d)
  }

  /** A delivery becomes stranded only in a step that hits a crash window for that delivery. */
  lemma StrandedOnlyByHit(s: State, cfg: Config, a: Action, d: Id)
    requires Wf(s) && Enabled(s, cfg, a)
    requires !Stranded(s, d) && Stranded(Apply(s, cfg, a), d)
    ensures Hit(s, a, d)
  {
    if Owed(s, d) {
      var c :| Carries(s, c, d);
      CarrierMoves(s, cfg, a, c, d);
    } else {
      NewlyOwed(s, cfg, a, d);
    }
  }

  /** Step j hit a crash window for the delivery, and it has been stranded ever since. */
  ghost predicate StrandedSince(states: seq<State>, actions: seq<Action>, j: nat, i: nat, d: Id)
    requires |states| == |actions| + 1 && j < i < |states|
  {
    Hit(states[j], actions[j], d) && forall k | j < k <= i :: Stranded(states[k], d)
  }

  /** Whatever crashed before, harmlessly or not: a delivery that is stranded now has been so
      without a break since a step that hit a crash window for that very delivery. */
  lemma {:induction false} LostOnlyByHit(cfg: Config, states: seq<State>, actions: seq<Action>, i: nat, d: Id)
    requires IsRun(cfg, states, actions) && i < |states| && Stranded(states[i], d)
    ensures exists j | 0 <= j < i :: StrandedSince(states, actions, j, i, d)
  {
    if i > 0 {
      if Stranded(states[i - 1], d) {
        LostOnlyByHit(cfg, states, actions, i - 1, d);
        var j :| 0 <= j < i - 1 && StrandedSince(states, actions, j, i - 1, d);
        assert StrandedSince(states, actions, j, i, d);
      } else {
        RunIsWf(cfg, states, actions, i - 1);
        assert StepAt(cfg, states, actions, i - 1);
        StrandedOnlyByHit(states[i - 1], cfg, actions[i - 1], d);
        assert StrandedSince(states, actions, i - 1, i, d);
      }
    }
  }
}
