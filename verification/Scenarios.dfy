/** Concrete reachable states, one command after another, from the empty system to a request on
    its way. */
module Scenarios {
  import opened Prelude
  import opened Deliveries
  import opened Protocol
  import opened Frames
  import opened Hazards

  /** Some run ends here. */
  ghost predicate Reached(cfg: Config, s: State) {
    exists states, actions :: IsRun(cfg, states, actions) && states[|actions|] == s
  }

  /** Some run under the stated assumptions ends here, and no message is handed out twice in it. */
  ghost predicate Reachable(cfg: Config, s: State) {
    exists states, actions ::
      IsRun(cfg, states, actions) && Assumed(states, actions) && NoClaims(actions) && states[|actions|] == s
  }

  predicate NoClaim(a: Action) { a.WorkStep? ==> !a.work.ClaimStale? }

  predicate NoClaims(actions: seq<Action>) {
    forall i | 0 <= i < |actions| :: NoClaim(actions[i])
  }

  lemma ReachableIsReached(cfg: Config, s: State)
    requires Reachable(cfg, s)
    ensures Reached(cfg, s)
  {
  }

  lemma ReachInitial(cfg: Config)
    ensures Reachable(cfg, INITIAL)
  {
    var states, actions: seq<Action> := [INITIAL], [];
    assert IsRun(cfg, states, actions) && Assumed(states, actions) && NoClaims(actions) && states[|actions|] == INITIAL;
  }

  lemma Step(cfg: Config, s: State, a: Action)
    requires Reached(cfg, s) && Enabled(s, cfg, a)
    ensures Reached(cfg, Apply(s, cfg, a))
  {
    var states, actions :| IsRun(cfg, states, actions) && states[|actions|] == s;
    ExtendRun(cfg, states, actions, a);
    var states', actions' := states + [Apply(s, cfg, a)], actions + [a];
    assert states'[|actions'|] == Apply(s, cfg, a);
  }

  lemma ReachStep(cfg: Config, s: State, a: Action)
    requires Reachable(cfg, s) && Enabled(s, cfg, a)
    requires NoClaim(a)
    ensures Reachable(cfg, Apply(s, cfg, a))
  {
    var states, actions :|
      IsRun(cfg, states, actions) && Assumed(states, actions) && NoClaims(actions) && states[|actions|] == s;
    ExtendRun(cfg, states, actions, a);
    var states', actions' := states + [Apply(s, cfg, a)], actions + [a];
    forall i | 0 <= i < |actions'|
      ensures ClaimsFromTheDead(states'[i], actions'[i]) && ClaimsAfterFanOut(states'[i], actions'[i])
    {
      assert states'[i] == if i < |actions| then states[i] else s;
    }
    assert states'[|actions'|] == Apply(s, cfg, a);
  }

  const TENANT: Id := 0
  const TYPE: Id := 0
  const EVENT: Id := 1
  const ENDPOINT: Id := 2
  const RELAY: Id := 3
  const DELIVERY: Id := 4
  const WORKER: Id := 5
  const SCHEDULER: Id := 6
  const REAPER: Id := 7

  function Entry(cid: Option<Id>): Message { Message(DELIVERY, cid) }

  /** An accepted event and one subscriber. */
  function Listening(cid: Option<Id>): State {
    State(
      0,
      Store(map[EVENT := Event(TENANT, TYPE, cid)], map[EVENT := OutboxPending],
            map[ENDPOINT := Endpoint(TENANT, true, {TYPE})], map[], map[]),
      Redis([], 0, map[], map[]),
      map[], map[], map[], map[], map[],
      Ledger({EVENT, ENDPOINT}, {}, map[], map[], map[], map[], {}, {}))
  }

  lemma ReachListening(cfg: Config, cid: Option<Id>)
    ensures Reachable(cfg, Listening(cid))
  {
    ReachInitial(cfg);
    var a1, a2 := Environment(Ingest(EVENT, TENANT, TYPE, cid)), Environment(CreateEndpoint(ENDPOINT, TENANT, {TYPE}));
    ReachStep(cfg, INITIAL, a1);
    var s1 := Apply(INITIAL, cfg, a1);
    ReachStep(cfg, s1, a2);
    assert Apply(s1, cfg, a2) == Listening(cid);
  }

  /** A relay has locked the outbox row and read its targets. */
  function Claimed(cid: Option<Id>): State {
    var s := Listening(cid);
    s.(txs := map[RELAY := Tx({EVENT}, {}, Some(EVENT), {ENDPOINT}, map[EVENT := {ENDPOINT}], map[], None)],
       ledger := s.ledger.(ids := {EVENT, ENDPOINT, RELAY}))
  }

  lemma ReachClaimed(cfg: Config, cid: Option<Id>)
    ensures Reachable(cfg, Claimed(cid))
  {
    ReachListening(cfg, cid);
    var a1, a2 := RelayStep(RELAY, ClaimDue({EVENT})), RelayStep(RELAY, ReadTargets(EVENT));
    ReachStep(cfg, Listening(cid), a1);
    var s1 := Apply(Listening(cid), cfg, a1);
    assert ActiveSubscribed(s1.store, TENANT, TYPE) == {ENDPOINT};
    ReachStep(cfg, s1, a2);
    assert Apply(s1, cfg, a2) == Claimed(cid);
  }

  /** It has inserted the delivery and published its message. */
  function Published(cid: Option<Id>): State {
    var s := Claimed(cid);
    s.(redis := Redis([Entry(cid)], 0, map[], map[]),
       txs := map[RELAY := Tx({EVENT}, {}, Some(EVENT), {}, map[EVENT := {ENDPOINT}],
                              map[DELIVERY := Create(EVENT, ENDPOINT)], None)],
       ledger := s.ledger.(ids := {EVENT, ENDPOINT, RELAY, DELIVERY}))
  }

  lemma ReachPublished(cfg: Config, cid: Option<Id>)
    ensures Reachable(cfg, Published(cid))
  {
    ReachClaimed(cfg, cid);
    var a1, a2 := RelayStep(RELAY, CreateDelivery(ENDPOINT, DELIVERY)), RelayStep(RELAY, Publish);
    ReachStep(cfg, Claimed(cid), a1);
    var s1 := Apply(Claimed(cid), cfg, a1);
    ReachStep(cfg, s1, a2);
    var s2 := Apply(s1, cfg, a2);
    assert s2.txs[RELAY].todo == {};
    assert s2.txs == Published(cid).txs;
    assert s2 == Published(cid);
  }

  /** The outbox row is marked, nothing is committed yet. */
  function Marked(cid: Option<Id>): State {
    var s := Published(cid);
    s.(txs := map[RELAY := Tx({EVENT}, {EVENT}, None, {}, map[EVENT := {ENDPOINT}],
                              map[DELIVERY := Create(EVENT, ENDPOINT)], None)])
  }

  lemma ReachMarked(cfg: Config, cid: Option<Id>)
    ensures Reachable(cfg, Marked(cid))
  {
    ReachPublished(cfg, cid);
    var a := RelayStep(RELAY, MarkProcessed);
    ReachStep(cfg, Published(cid), a);
    var s1 := Apply(Published(cid), cfg, a);
    assert s1.txs[RELAY].done == {EVENT};
    assert s1.txs == Marked(cid).txs;
    assert s1 == Marked(cid);
  }

  /** The fan-out is committed. */
  function FannedOut(cid: Option<Id>): State {
    var s := Marked(cid);
    s.(store := s.store.(outbox := map[EVENT := OutboxProcessed],
                         deliveries := map[DELIVERY := Create(EVENT, ENDPOINT)]),
       txs := map[],
       ledger := s.ledger.(fanout := map[EVENT := {ENDPOINT}]))
  }

  lemma CommitsTo(cfg: Config, cid: Option<Id>)
    ensures RelayEnabled(Marked(cid), RELAY, CommitFanOut)
    ensures RelayApply(Marked(cid), RELAY, CommitFanOut) == FannedOut(cid)
  {
    var s' := CommitTx(Marked(cid), RELAY);
    assert s'.store.outbox == map[EVENT := OutboxProcessed];
    assert s'.store.deliveries == map[DELIVERY := Create(EVENT, ENDPOINT)];
    assert s'.txs == map[];
    assert s'.ledger.fanout == map[EVENT := {ENDPOINT}];
  }

  lemma ReachFannedOut(cfg: Config, cid: Option<Id>)
    ensures Reachable(cfg, FannedOut(cid))
  {
    ReachMarked(cfg, cid);
    var a := RelayStep(RELAY, CommitFanOut);
    ReachStep(cfg, Marked(cid), a);
    CommitsTo(cfg, cid);
  }

  /** A dispatcher has been handed the message. */
  function Handed(cid: Option<Id>): State {
    var s := FannedOut(cid);
    s.(redis := Redis([Entry(cid)], 1, map[0 := 0], map[]),
       tasks := map[WORKER := Task(0, Dispatcher, Read)],
       ledger := s.ledger.(ids := {EVENT, ENDPOINT, RELAY, DELIVERY, WORKER}))
  }

  lemma ReachHanded(cfg: Config, cid: Option<Id>)
    ensures Reachable(cfg, Handed(cid))
  {
    ReachFannedOut(cfg, cid);
    var a := WorkStep(WORKER, ReadNext);
    ReachStep(cfg, FannedOut(cid), a);
    assert Apply(FannedOut(cid), cfg, a) == Handed(cid);
  }

  /** It has sent the request and waits for the answer. */
  function Waiting(cid: Option<Id>): State {
    var s := Handed(cid);
    s.(tasks := map[WORKER := Task(0, Dispatcher, Requested(Create(EVENT, ENDPOINT)))],
       ledger := s.ledger.(sends := map[DELIVERY := 1]))
  }

  lemma ReachWaiting(cfg: Config, cid: Option<Id>)
    ensures Reachable(cfg, Waiting(cid))
  {
    ReachHanded(cfg, cid);
    var a1, a2 := WorkStep(WORKER, BeginAttempt), WorkStep(WORKER, Request);
    ReachStep(cfg, Handed(cid), a1);
    var s1 := Apply(Handed(cid), cfg, a1);
    ReachStep(cfg, s1, a2);
    assert Apply(s1, cfg, a2) == Waiting(cid);
  }

  // ------------------------------------------------------- a whole chain of attempts, by shape

  /** One delivery of one event, no transaction open, nothing popped and nothing reset; `reading`
      are the replays that have read a row. */
  ghost predicate Calm(s: State, cid: Option<Id>, row: Delivery, reading: map<Id, DeadRead>) {
    && EVENT in s.store.events && s.store.events[EVENT] == Event(TENANT, TYPE, cid)
    && DELIVERY in s.store.deliveries && s.store.deliveries[DELIVERY] == row
    && row.eventId == EVENT
    && DELIVERY in s.ledger.ids && (forall w | w in reading :: w in s.ledger.ids)
    && s.txs == map[] && s.reading == reading && s.replaying == map[] && s.clock >= 0
    && (forall w | w in s.hand :: s.hand[w] == []) && s.ledger.hazards == {}
  }

  /** Its message waits on the stream. */
  ghost predicate OnStream(s: State, cid: Option<Id>, row: Delivery, reading: map<Id, DeadRead>) {
    && Calm(s, cid, row, reading) && s.tasks == map[] && s.redis.pel == map[] && s.redis.retry == map[]
    && |s.redis.entries| == s.redis.delivered + 1 && s.redis.entries[s.redis.delivered].delivery == DELIVERY
  }

  /** A dispatcher has read the row, and is at this phase. */
  ghost predicate Held(s: State, cid: Option<Id>, row: Delivery, reading: map<Id, DeadRead>, t: Id, p: Phase) {
    && Calm(s, cid, row, reading)
    && s.redis.delivered == |s.redis.entries| && s.redis.delivered > 0
    && s.redis.entries[s.redis.delivered - 1].delivery == DELIVERY
    && s.tasks == map[t := Task(s.redis.delivered - 1, Dispatcher, p)]
    && s.redis.pel.Keys == {s.redis.delivered - 1}
  }

  /** Nothing is under way. */
  ghost predicate Spent(s: State, cid: Option<Id>, row: Delivery, reading: map<Id, DeadRead>) {
    && Calm(s, cid, row, reading) && s.tasks == map[] && s.redis.pel == map[] && s.redis.retry == map[]
    && s.redis.delivered == |s.redis.entries|
  }

  lemma HandOut(cfg: Config, s: State, cid: Option<Id>, row: Delivery, reading: map<Id, DeadRead>) returns (s': State, t: Id)
    requires Reachable(cfg, s) && OnStream(s, cid, row, reading)
    ensures Reachable(cfg, s') && Held(s', cid, row, reading, t, Read) && s'.redis.retry == map[]
  {
    t := FreshExists(s.ledger.ids);
    ReachStep(cfg, s, WorkStep(t, ReadNext));
    s' := Apply(s, cfg, WorkStep(t, ReadNext));
    assert s'.redis.pel.Keys == {s.redis.delivered};
  }

  lemma Send(cfg: Config, s: State, cid: Option<Id>, row: Delivery, reading: map<Id, DeadRead>, t: Id) returns (s': State)
    requires Reachable(cfg, s) && Held(s, cid, row, reading, t, Read) && s.redis.retry == map[]
    ensures Reachable(cfg, s') && Held(s', cid, row, reading, t, Requested(row)) && s'.redis.retry == map[]
  {
    ReachStep(cfg, s, WorkStep(t, BeginAttempt));
    var s1 := Apply(s, cfg, WorkStep(t, BeginAttempt));
    assert s1.tasks[t].phase == Attempting(row);
    ReachStep(cfg, s1, WorkStep(t, Request));
    s' := Apply(s1, cfg, WorkStep(t, Request));
  }

  lemma CommitOutcome(cfg: Config, s: State, cid: Option<Id>, row: Delivery, reading: map<Id, DeadRead>, t: Id, ok: bool)
    returns (s': State)
    requires Reachable(cfg, s) && Held(s, cid, row, reading, t, Requested(row)) && s.redis.retry == map[]
    ensures var row' := RecordOutcome(row, ok, 0, cfg.maxAttempts);
            && Reachable(cfg, s') && s'.redis.retry == map[]
            && Held(s', cid, row', reading, t, if row'.state.Retrying? then MustSchedule(0) else ReadyToAck)
  {
    ReachStep(cfg, s, WorkStep(t, CommitAttempt(ok, 0)));
    s' := Apply(s, cfg, WorkStep(t, CommitAttempt(ok, 0)));
  }

  lemma Acknowledge(cfg: Config, s: State, cid: Option<Id>, row: Delivery, reading: map<Id, DeadRead>, t: Id)
    returns (s': State)
    requires Reachable(cfg, s) && Held(s, cid, row, reading, t, ReadyToAck)
    ensures Reachable(cfg, s') && Calm(s', cid, row, reading) && s'.tasks == map[] && s'.redis.pel == map[]
    ensures s'.redis.retry == s.redis.retry && s'.redis.delivered == |s'.redis.entries|
  {
    ReachStep(cfg, s, WorkStep(t, Ack));
    s' := Apply(s, cfg, WorkStep(t, Ack));
    assert s'.redis.pel.Keys == {};
    assert s'.tasks.Keys == {};
  }

  /** The retry is scheduled, popped as soon as it is due, and put back on the stream. */
  lemma GoRound(cfg: Config, s: State, cid: Option<Id>, row: Delivery, reading: map<Id, DeadRead>, t: Id) returns (s': State)
    requires Reachable(cfg, s) && Held(s, cid, row, reading, t, MustSchedule(0)) && s.redis.retry == map[]
    ensures Reachable(cfg, s') && OnStream(s', cid, row, reading)
  {
    var k := s.redis.entries[s.redis.delivered - 1];
    ReachStep(cfg, s, WorkStep(t, ScheduleRetry));
    var s1 := Apply(s, cfg, WorkStep(t, ScheduleRetry));
    assert Held(s1, cid, row, reading, t, ReadyToAck) && s1.redis.retry == map[k := 0];
    var s2 := Acknowledge(cfg, s1, cid, row, reading, t);
    s' := Refire(cfg, s2, cid, row, reading, k);
  }

  lemma Refire(cfg: Config, s: State, cid: Option<Id>, row: Delivery, reading: map<Id, DeadRead>, k: Message) returns (s': State)
    requires Reachable(cfg, s) && Calm(s, cid, row, reading) && s.tasks == map[] && s.redis.pel == map[]
    requires s.redis.retry == map[k := 0] && k.delivery == DELIVERY && s.redis.delivered == |s.redis.entries|
    ensures Reachable(cfg, s') && OnStream(s', cid, row, reading)
  {
    ReachStep(cfg, s, SchedulerStep(SCHEDULER, PopDue(k)));
    var s1 := Apply(s, cfg, SchedulerStep(SCHEDULER, PopDue(k)));
    assert HandOf(s1, SCHEDULER) == [k];
    assert s1.redis.retry == map[];
    ReachStep(cfg, s1, SchedulerStep(SCHEDULER, Requeue));
    s' := Apply(s1, cfg, SchedulerStep(SCHEDULER, Requeue));
    assert s'.hand[SCHEDULER] == [];
  }

  /** One attempt that fails with budget left. */
  lemma FailOnce(cfg: Config, s: State, cid: Option<Id>, row: Delivery, reading: map<Id, DeadRead>) returns (s': State)
    requires Reachable(cfg, s) && OnStream(s, cid, row, reading) && row.attemptCount + 1 < cfg.maxAttempts
    ensures Reachable(cfg, s') && OnStream(s', cid, MarkRetrying(row, 0), reading)
  {
    var s1, t := HandOut(cfg, s, cid, row, reading);
    var s2 := Send(cfg, s1, cid, row, reading, t);
    var s3 := CommitOutcome(cfg, s2, cid, row, reading, t, false);
    s' := GoRound(cfg, s3, cid, MarkRetrying(row, 0), reading, t);
  }

  /** The last attempt: it succeeds, or it fails with the budget used up. */
  lemma FinishWith(cfg: Config, s: State, cid: Option<Id>, row: Delivery, reading: map<Id, DeadRead>, ok: bool) returns (s': State)
    requires Reachable(cfg, s) && OnStream(s, cid, row, reading) && (ok || row.attemptCount + 1 >= cfg.maxAttempts)
    ensures Reachable(cfg, s') && Spent(s', cid, if ok then MarkDelivered(row) else MarkDead(row), reading)
  {
    var s1, t := HandOut(cfg, s, cid, row, reading);
    var s2 := Send(cfg, s1, cid, row, reading, t);
    var s3 := CommitOutcome(cfg, s2, cid, row, reading, t, ok);
    s' := Acknowledge(cfg, s3, cid, if ok then MarkDelivered(row) else MarkDead(row), reading, t);
  }

  /** After any number of failed attempts that leave budget, the message is on the stream again. */
  lemma {:induction false} ReachTried(cfg: Config, cid: Option<Id>, k: nat) returns (s: State, row: Delivery)
    requires k < cfg.maxAttempts
    ensures Reachable(cfg, s) && OnStream(s, cid, row, map[]) && row.attemptCount == k
  {
    if k == 0 {
      ReachFannedOut(cfg, cid);
      s, row := FannedOut(cid), Create(EVENT, ENDPOINT);
    } else {
      var s0, row0 := ReachTried(cfg, cid, k - 1);
      s := FailOnce(cfg, s0, cid, row0, map[]);
      row := MarkRetrying(row0, 0);
    }
  }

  /** Whatever the budget, a delivery can use it up. */
  lemma ReachDead(cfg: Config, cid: Option<Id>) returns (s: State, row: Delivery)
    requires cfg.maxAttempts >= 1
    ensures Reachable(cfg, s) && Spent(s, cid, row, map[]) && row.state.Dead?
  {
    var s0, row0 := ReachTried(cfg, cid, cfg.maxAttempts - 1);
    s := FinishWith(cfg, s0, cid, row0, map[], false);
    row := MarkDead(row0);
  }

  /** A replay reads the dead row. */
  lemma ReadIt(cfg: Config, s: State, cid: Option<Id>, row: Delivery, reading: map<Id, DeadRead>) returns (s': State, w: Id)
    requires Reachable(cfg, s) && Spent(s, cid, row, reading) && row.state.Dead?
    ensures Reachable(cfg, s') && w !in reading && Spent(s', cid, row, reading[w := DeadRead(DELIVERY, row)])
  {
    w := FreshExists(s.ledger.ids);
    ReachStep(cfg, s, ReplayStep(w, ReadDead(DELIVERY, TENANT)));
    s' := Apply(s, cfg, ReplayStep(w, ReadDead(DELIVERY, TENANT)));
  }

  /** And commits its reset. */
  ghost predicate Resetting(s: State, cid: Option<Id>, row: Delivery, reading: map<Id, DeadRead>, w: Id) {
    && EVENT in s.store.events && s.store.events[EVENT] == Event(TENANT, TYPE, cid)
    && s.replaying == map[w := DELIVERY]
    && Spent(s.(replaying := map[]), cid, row, reading)
  }

  lemma ResetIt(cfg: Config, s: State, cid: Option<Id>, row: Delivery, reading: map<Id, DeadRead>, w: Id) returns (s': State)
    requires Reachable(cfg, s) && Spent(s, cid, row, reading) && w in reading && reading[w].delivery == DELIVERY
    ensures Reachable(cfg, s') && Resetting(s', cid, ResetForReplay(row), reading - {w}, w)
  {
    ReachStep(cfg, s, ReplayStep(w, CommitReset(DELIVERY)));
    s' := Apply(s, cfg, ReplayStep(w, CommitReset(DELIVERY)));
  }

  /** And publishes it. */
  lemma PublishIt(cfg: Config, s: State, cid: Option<Id>, row: Delivery, reading: map<Id, DeadRead>, w: Id) returns (s': State)
    requires Reachable(cfg, s) && Resetting(s, cid, row, reading, w)
    ensures Reachable(cfg, s') && OnStream(s', cid, row, reading)
    ensures s'.redis.entries[s'.redis.delivered] == Message(DELIVERY, None)
  {
    ReachStep(cfg, s, ReplayStep(w, PublishReset));
    s' := Apply(s, cfg, ReplayStep(w, PublishReset));
    assert s'.replaying == map[];
  }
}
