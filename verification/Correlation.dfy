/** The correlation id of an ingest request follows its event's deliveries through every retry. */
module Correlation {
  import opened Prelude
  import opened Deliveries
  import opened Protocol
  import opened Frames
  import opened Invariants
  import opened FanOut
  import opened Scenarios

  /** The event a delivery belongs to, committed or still in its fan-out transaction. */
  ghost predicate BelongsTo(s: State, d: Id, e: Id) {
    || (d in s.store.deliveries && s.store.deliveries[d].eventId == e)
    || exists x | x in s.txs :: d in s.txs[x].created && s.txs[x].created[d].eventId == e
  }

  /** A message on the stream, in the retry set, or in a scheduler's hand. */
  ghost predicate Around(s: State, k: Message) {
    k in s.redis.entries || k in s.redis.retry || exists w | w in s.hand :: k in s.hand[w]
  }

  ghost predicate Faithful(s: State, k: Message) {
    forall e | e in s.store.events && BelongsTo(s, k.delivery, e) :: k.correlationId == s.store.events[e].correlationId
  }

  ghost predicate Follows(s: State, d: Id) {
    forall k | Around(s, k) && k.delivery == d :: Faithful(s, k)
  }

  /** A row waiting to be published was inserted for the event its transaction is working on. */
  ghost predicate UnpublishedIsCurrent(s: State) {
    forall x | x in s.txs && s.txs[x].unpublished.Some? :: TxIsCurrent(s.txs[x])
  }

  ghost predicate TxIsCurrent(tx: Tx)
    requires tx.unpublished.Some?
  {
    && tx.current.Some? && tx.unpublished.value in tx.created
    && tx.created[tx.unpublished.value].eventId == tx.current.value
  }

  /** This step publishes a reset of the delivery. */
  predicate Publishes(s: State, a: Action, d: Id) {
    a.ReplayStep? && a.reset.PublishReset? && a.replay in s.replaying && s.replaying[a.replay] == d
  }

  /** No event the delivery belongs to came in with a correlation id. */
  ghost predicate Anonymous(s: State, d: Id) {
    forall e | e in s.store.events && BelongsTo(s, d, e) :: s.store.events[e].correlationId.None?
  }

  // ---------------------------------------------------------------- one step

  lemma OwnTxIsCurrent(s: State, x: Id, a: RelayAction)
    requires Wf(s) && UnpublishedIsCurrent(s) && RelayEnabled(s, x, a)
    requires x in RelayApply(s, x, a).txs && RelayApply(s, x, a).txs[x].unpublished.Some?
    ensures TxIsCurrent(RelayApply(s, x, a).txs[x])
  {
  }

  lemma CurrentStep(s: State, cfg: Config, a: Action)
    requires Wf(s) && UnpublishedIsCurrent(s) && Enabled(s, cfg, a)
    ensures UnpublishedIsCurrent(Apply(s, cfg, a))
  {
    match a
    case Environment(e) => EnvFrame(s, e);
    case RelayStep(x, r) =>
      var s' := RelayApply(s, x, r);
      forall y | y in s'.txs && s'.txs[y].unpublished.Some? ensures TxIsCurrent(s'.txs[y]) {
        if y == x { OwnTxIsCurrent(s, x, r); } else { OtherTx(s, x, r, y); }
      }
    case WorkStep(t, w) => WorkFrame(s, cfg, t, w);
    case SchedulerStep(w, b) => SchedulerFrame(s, w, b);
    case ReplayStep(w, b) => ReplayFrame(s, w, b);
  }

  /** A delivery belongs to an accepted event. */
  lemma OwnerIsKnown(s: State, d: Id, e: Id)
    requires FanOutInv(s) && BelongsTo(s, d, e)
    ensures e in s.store.events
  {
    if d in s.store.deliveries && s.store.deliveries[d].eventId == e {
      assert e in s.ledger.fanout;
    } else {
      var x :| x in s.txs && d in s.txs[x].created && s.txs[x].created[d].eventId == e;
      assert TxMatches(s.store, s.ledger.ids, s.txs[x]);
      assert e in s.txs[x].targets;
    }
  }

  lemma OwnerBackRelay(s: State, x: Id, a: RelayAction, d: Id, e: Id)
    requires Wf(s) && RelayEnabled(s, x, a) && BelongsTo(RelayApply(s, x, a), d, e) && d in s.ledger.ids
    ensures BelongsTo(s, d, e)
  {
    var s' := RelayApply(s, x, a);
    RelayFrame(s, x, a);
    if !(d in s'.store.deliveries && s'.store.deliveries[d].eventId == e) {
      var y :| y in s'.txs && d in s'.txs[y].created && s'.txs[y].created[d].eventId == e;
      if y == x { RelayTx(s, x, a); } else { OtherTx(s, x, a, y); }
    }
  }

  lemma OwnerBackFrame(s: State, s': State, d: Id, e: Id)
    requires s'.txs == s.txs && BelongsTo(s', d, e)
    requires d in s'.store.deliveries ==> d in s.store.deliveries && SamePair(s.store.deliveries[d], s'.store.deliveries[d])
    ensures BelongsTo(s, d, e)
  {
  }

  /** A known delivery never changes hands. */
  lemma OwnerBack(s: State, cfg: Config, a: Action, d: Id, e: Id)
    requires Wf(s) && FanOutInv(s) && Enabled(s, cfg, a) && BelongsTo(Apply(s, cfg, a), d, e) && d in s.ledger.ids
    ensures BelongsTo(s, d, e)
  {
    var s' := Apply(s, cfg, a);
    match a
    case Environment(b) => EnvFrame(s, b); OwnerBackFrame(s, s', d, e);
    case RelayStep(x, r) => OwnerBackRelay(s, x, r, d, e);
    case WorkStep(t, w) => WorkFrame(s, cfg, t, w); WorkPairs(s, cfg, t, w); OwnerBackFrame(s, s', d, e);
    case SchedulerStep(w, b) => SchedulerFrame(s, w, b); OwnerBackFrame(s, s', d, e);
    case ReplayStep(w, b) => ReplayFrame(s, w, b); OwnerBackFrame(s, s', d, e);
  }

  lemma EventsStayEnv(s: State, a: EnvAction, e: Id)
    requires OutboxMatches(s) && EnvEnabled(s, a) && e in s.store.events
    ensures e in EnvApply(s, a).store.events && EnvApply(s, a).store.events[e] == s.store.events[e]
  {
  }

  lemma EventsStayReplay(s: State, w: Id, a: ReplayAction)
    requires ReplayEnabled(s, w, a)
    ensures ReplayApply(s, w, a).store.events == s.store.events
  {
  }

  lemma EventsStay(s: State, cfg: Config, a: Action, e: Id)
    requires OutboxMatches(s) && Enabled(s, cfg, a) && e in s.store.events
    ensures e in Apply(s, cfg, a).store.events && Apply(s, cfg, a).store.events[e] == s.store.events[e]
  {
    match a
    case Environment(b) => EventsStayEnv(s, b, e);
    case RelayStep(x, r) => RelayStoreFrame(s, x, r);
    case WorkStep(t, w) => WorkStoreFrame(s, cfg, t, w);
    case SchedulerStep(w, b) => SchedulerFrame(s, w, b);
    case ReplayStep(w, b) => EventsStayReplay(s, w, b);
  }

  lemma AroundBackRelay(s: State, x: Id, a: RelayAction, k: Message)
    requires Wf(s) && RelayEnabled(s, x, a) && Around(RelayApply(s, x, a), k)
    ensures || Around(s, k)
            || (a.Publish? && x in s.txs && s.txs[x].unpublished == Some(k.delivery)
                && s.txs[x].current.Some? && s.txs[x].current.value in s.store.events
                && k.correlationId == s.store.events[s.txs[x].current.value].correlationId)
  {
    var s' := RelayApply(s, x, a);
    RelayFrame(s, x, a);
    if a.Publish? {
      var m := Message(s.txs[x].unpublished.value, s.store.events[s.txs[x].current.value].correlationId);
      assert s'.redis.entries == s.redis.entries + [m];
    } else {
      RelayEntries(s, x, a);
    }
  }

  lemma AroundBackWork(s: State, cfg: Config, t: Id, a: WorkAction, k: Message)
    requires Wf(s) && WorkEnabled(s, cfg, t, a) && Around(WorkApply(s, cfg, t, a), k)
    ensures Around(s, k)
  {
    WorkFrame(s, cfg, t, a);
    WorkRedis(s, cfg, t, a);
  }

  lemma AroundBackScheduler(s: State, w: Id, a: SchedulerAction, k: Message)
    requires SchedulerEnabled(s, w, a) && Around(SchedulerApply(s, w, a), k)
    ensures Around(s, k)
  {
    if a.Requeue? {
      assert forall j | j in s.hand[w][1..] :: j in s.hand[w];
      assert s.hand[w][0] in s.hand[w];
    }
  }

  lemma AroundBackReplay(s: State, w: Id, a: ReplayAction, k: Message)
    requires ReplayEnabled(s, w, a) && Around(ReplayApply(s, w, a), k)
    ensures || Around(s, k)
            || (a.PublishReset? && w in s.replaying && k == Message(s.replaying[w], None))
  {
  }

  /** The two messages a step can make up: a fan-out's names its event's correlation id, and a
      replay's none. */
  lemma AroundBack(s: State, cfg: Config, a: Action, k: Message)
    requires Wf(s) && Enabled(s, cfg, a) && Around(Apply(s, cfg, a), k)
    ensures || Around(s, k)
            || (a.RelayStep? && a.relay.Publish? && a.tx in s.txs && s.txs[a.tx].unpublished == Some(k.delivery)
                && s.txs[a.tx].current.Some? && s.txs[a.tx].current.value in s.store.events
                && k.correlationId == s.store.events[s.txs[a.tx].current.value].correlationId)
            || (Publishes(s, a, k.delivery) && k.correlationId.None?)
  {
    match a
    case Environment(e) => EnvFrame(s, e);
    case RelayStep(x, r) => AroundBackRelay(s, x, r, k);
    case WorkStep(t, w) => AroundBackWork(s, cfg, t, w, k);
    case SchedulerStep(w, b) => AroundBackScheduler(s, w, b, k);
    case ReplayStep(w, b) => AroundBackReplay(s, w, b, k);
  }

  /** A row about to be published belongs to nothing but the event being fanned out. */
  lemma UnpublishedOwner(s: State, x: Id, d: Id, e: Id)
    requires Wf(s) && UnpublishedIsCurrent(s) && x in s.txs && s.txs[x].unpublished == Some(d)
    requires BelongsTo(s, d, e)
    ensures s.txs[x].current == Some(e)
  {
    assert TxIsCurrent(s.txs[x]);
  }

  lemma AroundIsKnown(s: State, k: Message)
    requires Wf(s) && Around(s, k)
    ensures k.delivery in s.ledger.ids
  {
  }

  lemma FollowsStep(s: State, cfg: Config, a: Action, d: Id)
    requires Wf(s) && FanOutInv(s) && UnpublishedIsCurrent(s) && Follows(s, d) && Enabled(s, cfg, a)
    requires Publishes(s, a, d) ==> Anonymous(s, d)
    ensures Follows(Apply(s, cfg, a), d)
  {
    var s' := Apply(s, cfg, a);
    forall k, e | Around(s', k) && k.delivery == d && e in s'.store.events && BelongsTo(s', d, e)
      ensures k.correlationId == s'.store.events[e].correlationId
    {
      MessageFollows(s, cfg, a, k, e);
    }
  }

  lemma MessageFollows(s: State, cfg: Config, a: Action, k: Message, e: Id)
    requires Wf(s) && FanOutInv(s) && UnpublishedIsCurrent(s) && Follows(s, k.delivery) && Enabled(s, cfg, a)
    requires Publishes(s, a, k.delivery) ==> Anonymous(s, k.delivery)
    requires Around(Apply(s, cfg, a), k) && BelongsTo(Apply(s, cfg, a), k.delivery, e)
    ensures e in Apply(s, cfg, a).store.events && k.correlationId == Apply(s, cfg, a).store.events[e].correlationId
  {
    AroundBack(s, cfg, a, k);
    MessageIsKnown(s, cfg, a, k);
    OwnerBack(s, cfg, a, k.delivery, e);
    OwnerIsKnown(s, k.delivery, e);
    EventsStay(s, cfg, a, e);
    if Around(s, k) {
      assert Faithful(s, k);
    } else if !Publishes(s, a, k.delivery) {
      UnpublishedOwner(s, a.tx, k.delivery, e);
    }
  }

  lemma MessageIsKnown(s: State, cfg: Config, a: Action, k: Message)
    requires Wf(s) && Enabled(s, cfg, a) && Around(Apply(s, cfg, a), k)
    ensures k.delivery in s.ledger.ids
  {
    AroundBack(s, cfg, a, k);
    if Around(s, k) { AroundIsKnown(s, k); }
  }

  // ---------------------------------------------------------------- runs: it follows

  lemma {:induction false} RunIsCurrent(cfg: Config, states: seq<State>, actions: seq<Action>, i: nat)
    requires IsRun(cfg, states, actions) && i < |states|
    ensures UnpublishedIsCurrent(states[i])
  {
    if i > 0 {
      RunIsCurrent(cfg, states, actions, i - 1);
      RunIsWf(cfg, states, actions, i - 1);
      assert StepAt(cfg, states, actions, i - 1);
      CurrentStep(states[i - 1], cfg, actions[i - 1]);
    }
  }

  /** Every reset of the delivery that was published came while it belonged to no event with an id. */
  ghost predicate Harmless(states: seq<State>, actions: seq<Action>, i: nat, d: Id)
    requires |states| == |actions| + 1 && i < |states|
  {
    forall j | 0 <= j < i && Publishes(states[j], actions[j], d) :: Anonymous(states[j], d)
  }

  lemma {:induction false} RunFollows(cfg: Config, states: seq<State>, actions: seq<Action>, i: nat, d: Id)
    requires IsRun(cfg, states, actions) && i < |states| && Harmless(states, actions, i, d)
    ensures Follows(states[i], d)
  {
    if i > 0 {
      RunFollows(cfg, states, actions, i - 1, d);
      FollowsAt(cfg, states, actions, i - 1, d);
    }
  }

  lemma FollowsAt(cfg: Config, states: seq<State>, actions: seq<Action>, i: nat, d: Id)
    requires IsRun(cfg, states, actions) && i < |actions|
    requires Publishes(states[i], actions[i], d) ==> Anonymous(states[i], d)
    requires Follows(states[i], d)
    ensures Follows(states[i + 1], d)
  {
    RunIsWf(cfg, states, actions, i);
    RunFansOut(cfg, states, actions, i);
    RunIsCurrent(cfg, states, actions, i);
    assert StepAt(cfg, states, actions, i);
    FollowsStep(states[i], cfg, actions[i], d);
  }

  // ---------------------------------------------------------------- runs: or it does not

  /** In any one state a delivery belongs to at most one event. */
  lemma OneOwner(s: State, d: Id, e: Id, f: Id)
    requires Wf(s) && BelongsTo(s, d, e) && BelongsTo(s, d, f)
    ensures e == f
  {
  }

  /** The delivery belonged to this event already, and the event has not changed. */
  ghost predicate SameOwner(s: State, s': State, d: Id, e: Id) {
    BelongsTo(s, d, e) && e in s.store.events && e in s'.store.events && s.store.events[e] == s'.store.events[e]
  }

  /** The event of a delivery and its correlation id are what they were since the id was drawn. */
  lemma {:induction false} OwnerWas(cfg: Config, states: seq<State>, actions: seq<Action>, j: nat, i: nat, d: Id, e: Id)
    requires IsRun(cfg, states, actions) && j <= i < |states|
    requires d in states[j].ledger.ids && BelongsTo(states[i], d, e)
    ensures SameOwner(states[j], states[i], d, e)
    decreases i
  {
    if j < i {
      IdStays(cfg, states, actions, j, i - 1, d);
      OwnerStepBack(cfg, states, actions, i - 1, d, e);
      OwnerWas(cfg, states, actions, j, i - 1, d, e);
    } else {
      OwnerNow(cfg, states, actions, i, d, e);
    }
  }

  lemma OwnerNow(cfg: Config, states: seq<State>, actions: seq<Action>, i: nat, d: Id, e: Id)
    requires IsRun(cfg, states, actions) && i < |states| && BelongsTo(states[i], d, e)
    ensures SameOwner(states[i], states[i], d, e)
  {
    RunFansOut(cfg, states, actions, i);
    OwnerIsKnown(states[i], d, e);
  }

  lemma OwnerStepBack(cfg: Config, states: seq<State>, actions: seq<Action>, i: nat, d: Id, e: Id)
    requires IsRun(cfg, states, actions) && i < |actions| && d in states[i].ledger.ids && BelongsTo(states[i + 1], d, e)
    ensures SameOwner(states[i], states[i + 1], d, e)
  {
    RunIsWf(cfg, states, actions, i);
    RunFansOut(cfg, states, actions, i);
    assert StepAt(cfg, states, actions, i);
    OwnerBack(states[i], cfg, actions[i], d, e);
    OwnerIsKnown(states[i], d, e);
    EventsStay(states[i], cfg, actions[i], e);
  }

  lemma {:induction false} IdStays(cfg: Config, states: seq<State>, actions: seq<Action>, j: nat, i: nat, d: Id)
    requires IsRun(cfg, states, actions) && j <= i < |states| && d in states[j].ledger.ids
    ensures d in states[i].ledger.ids
    decreases i
  {
    if j < i {
      IdStays(cfg, states, actions, j, i - 1, d);
      assert StepAt(cfg, states, actions, i - 1);
      EverythingGrows(states[i - 1], cfg, actions[i - 1]);
    }
  }

  /** Stream entries are never removed. */
  lemma {:induction false} EntryStays(cfg: Config, states: seq<State>, actions: seq<Action>, j: nat, i: nat)
    requires IsRun(cfg, states, actions) && j <= i < |states|
    ensures states[j].redis.entries <= states[i].redis.entries
    decreases i
  {
    if j < i {
      EntryStays(cfg, states, actions, j, i - 1);
      assert StepAt(cfg, states, actions, i - 1);
      EverythingGrows(states[i - 1], cfg, actions[i - 1]);
    }
  }

  lemma PublishShows(s: State, cfg: Config, a: Action, d: Id)
    requires Enabled(s, cfg, a) && Publishes(s, a, d)
    ensures Message(d, None) in Apply(s, cfg, a).redis.entries
  {
    assert Apply(s, cfg, a).redis.entries == s.redis.entries + [Message(d, None)];
  }

  /** A published reset is on the stream for good, without a correlation id. */
  lemma PublishedStays(cfg: Config, states: seq<State>, actions: seq<Action>, j: nat, i: nat, d: Id)
    requires IsRun(cfg, states, actions) && j < i < |states| && Publishes(states[j], actions[j], d)
    ensures Around(states[i], Message(d, None))
  {
    assert StepAt(cfg, states, actions, j);
    PublishShows(states[j], cfg, actions[j], d);
    EntryStays(cfg, states, actions, j + 1, i);
    assert forall k | k in states[j + 1].redis.entries :: k in states[i].redis.entries;
  }

  // ---------------------------------------------------------------- exactly when

  ghost predicate ResetPublished(states: seq<State>, actions: seq<Action>, i: nat, d: Id)
    requires |states| == |actions| + 1 && i < |states|
  {
    exists j | 0 <= j < i :: Publishes(states[j], actions[j], d)
  }

  /** Every message for a stored delivery, first delivery and every retry alike, carries the
      correlation id of the request that brought its event in, if and only if that request had
      none, or no reset of the delivery was published yet. */
  lemma CorrelationFollowsExactly(cfg: Config, states: seq<State>, actions: seq<Action>, i: nat, d: Id)
    requires IsRun(cfg, states, actions) && i < |states| && d in states[i].store.deliveries
    ensures var s, e := states[i], states[i].store.deliveries[d].eventId;
            && e in s.store.events
            && (Follows(s, d) <==> s.store.events[e].correlationId.None? || !ResetPublished(states, actions, i, d))
  {
    var s, e := states[i], states[i].store.deliveries[d].eventId;
    RunFansOut(cfg, states, actions, i);
    assert BelongsTo(s, d, e);
    OwnerIsKnown(s, d, e);
    if s.store.events[e].correlationId.None? || !ResetPublished(states, actions, i, d) {
      IsHarmless(cfg, states, actions, i, d, e);
      RunFollows(cfg, states, actions, i, d);
    } else {
      var j :| 0 <= j < i && Publishes(states[j], actions[j], d);
      PublishedStays(cfg, states, actions, j, i, d);
      assert !Faithful(s, Message(d, None));
    }
  }

  lemma IsHarmless(cfg: Config, states: seq<State>, actions: seq<Action>, i: nat, d: Id, e: Id)
    requires IsRun(cfg, states, actions) && i < |states| && BelongsTo(states[i], d, e) && e in states[i].store.events
    requires states[i].store.events[e].correlationId.None? || !ResetPublished(states, actions, i, d)
    ensures Harmless(states, actions, i, d)
  {
    forall j, f | 0 <= j < i && Publishes(states[j], actions[j], d) && f in states[j].store.events && BelongsTo(states[j], d, f)
      ensures states[j].store.events[f].correlationId.None?
    {
      RunIsWf(cfg, states, actions, j);
      assert d in states[j].ledger.ids;
      OwnerWas(cfg, states, actions, j, i, d, e);
      OneOwner(states[j], d, e, f);
    }
  }

  // ---------------------------------------------------------------- and it does happen

  /** Whatever the budget: the reset of a dead delivery is published, and its message lacks the id
      its event has. */
  lemma ReplayLosesCorrelation(cfg: Config, cid: Id)
    requires cfg.maxAttempts >= 1
    ensures exists s :: Reachable(cfg, s) && DELIVERY in s.store.deliveries && !Follows(s, DELIVERY)
              && EVENT in s.store.events && s.store.events[EVENT].correlationId == Some(cid)
  {
    var s, row := ReachDead(cfg, Some(cid));
    var s1, w := ReadIt(cfg, s, Some(cid), row, map[]);
    var s2 := ResetIt(cfg, s1, Some(cid), row, map[w := DeadRead(DELIVERY, row)], w);
    var s3 := PublishIt(cfg, s2, Some(cid), ResetForReplay(row), s2.reading, w);
    assert BelongsTo(s3, DELIVERY, EVENT);
    assert Message(DELIVERY, None) in s3.redis.entries;
    assert !Faithful(s3, Message(DELIVERY, None));
  }
}
