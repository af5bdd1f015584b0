/** The delivery engine as a step system: crash-prone workers over a transactional store, a
    Redis stream with one consumer group, and the retry sorted set. One action is one atomic
    command against one of the three stores (or the death of a coroutine between two of them);
    a run is any interleaving of actions. */
module Protocol {
  import opened Prelude
  import opened Deliveries
  import opened AttemptLogs

  // ---------------------------------------------------------------- state

  datatype Config = Config(maxAttempts: int, minIdle: Time)

  datatype Event = Event(tenant: Id, eventType: Id, correlationId: Option<Id>)

  datatype OutboxStatus = OutboxPending | OutboxProcessed

  datatype Endpoint = Endpoint(tenant: Id, active: bool, subscribed: set<Id>)

  /** Committed rows. The outbox row of an event is keyed by the event; `log` holds the
      attempt rows of each delivery. */
  datatype Store = Store(
    events: map<Id, Event>,
    outbox: map<Id, OutboxStatus>,
    endpoints: map<Id, Endpoint>,
    deliveries: map<Id, Delivery>,
    log: map<Id, seq<LogRow>>)

  /** A stream entry, and equally a member of the retry set. */
  datatype Message = Message(delivery: Id, correlationId: Option<Id>)

  /** A message id is a position in `entries`. The group has handed out the first `delivered`
      of them; `pel` maps those not yet acknowledged to the time they were last handed out;
      `retry` is the sorted set with its scores. */
  datatype Redis = Redis(
    entries: seq<Message>,
    delivered: nat,
    pel: map<nat, Time>,
    retry: map<Message, Time>)

  /** An open fan-out transaction: the outbox rows it locked, those it marked processed, the
      one it is working on with the endpoints still to do, the endpoint sets it read, the
      delivery rows it inserted, and the one of them whose message is not published yet. */
  datatype Tx = Tx(
    batch: set<Id>,
    done: set<Id>,
    current: Option<Id>,
    todo: set<Id>,
    targets: map<Id, set<Id>>,
    created: map<Id, Delivery>,
    unpublished: Option<Id>)

  datatype Role = Dispatcher | Reaper

  /** Where a coroutine that holds a message stands. The row is what its transaction read. */
  datatype Phase =
    | Read
    | Attempting(row: Delivery)
    | Requested(row: Delivery)
    | MustSchedule(at: Time)
    | ReadyToAck
    | Gone

  datatype Task = Task(msg: nat, role: Role, phase: Phase)

  /** The row a replay's transaction read and found dead. No lock is taken on it. */
  datatype DeadRead = DeadRead(delivery: Id, row: Delivery)

  /** Why a delivery may be left without anything that will ever process it. */
  datatype Cause = SchedulerCrash | ReplayCrash | RobbedCrash | EarlyDrop

  datatype Hazard = Hazard(delivery: Id, cause: Cause)

  /** History variables: nothing in the system reads them except to draw fresh identifiers. */
  datatype Ledger = Ledger(
    ids: set<Id>,
    hazards: set<Hazard>,
    fanout: map<Id, set<Id>>,
    sends: map<Id, nat>,
    recorded: map<Id, nat>,
    aborted: map<Id, nat>,
    committed: set<nat>,
    done: set<nat>)

  datatype State = State(
    clock: Time,
    store: Store,
    redis: Redis,
    txs: map<Id, Tx>,
    tasks: map<Id, Task>,
    hand: map<Id, seq<Message>>,
    reading: map<Id, DeadRead>,
    replaying: map<Id, Id>,
    ledger: Ledger)

  const INITIAL: State := State(
    0,
    Store(map[], map[], map[], map[], map[]),
    Redis([], 0, map[], map[]),
    map[], map[], map[], map[], map[],
    Ledger({}, {}, map[], map[], map[], map[], {}, {}))

  // ---------------------------------------------------------------- actions

  datatype EnvAction =
    | Tick(to: Time)
    | Ingest(event: Id, tenant: Id, eventType: Id, correlationId: Option<Id>)
    | CreateEndpoint(endpoint: Id, tenant: Id, subscribed: set<Id>)
    | UpdateEndpoint(endpoint: Id, active: bool, subscribed: set<Id>)
    | DeleteEndpoint(endpoint: Id)

  /** One relay transaction. */
  datatype RelayAction =
    | ClaimDue(batch: set<Id>)
    | ReadTargets(event: Id)
    | CreateDelivery(endpoint: Id, delivery: Id)
    | Publish
    | MarkProcessed
    | CommitFanOut
    | RollBack

  /** One coroutine of the dispatcher or the reaper, from receiving a message to the end. */
  datatype WorkAction =
    | ReadNext
    | ClaimStale(msg: nat)
    | BeginAttempt
    | NotFound
    | Request
    | CommitDeferral(at: Time)
    | CommitAttempt(ok: bool, at: Time)
    | ScheduleRetry
    | Ack
    | Abort

  datatype SchedulerAction =
    | PopDue(member: Message)
    | Requeue
    | CrashScheduler

  /** One replay, from reading the row to publishing it again. */
  datatype ReplayAction =
    | ReadDead(delivery: Id, tenant: Id)
    | CommitReset(delivery: Id)
    | GiveUpReset
    | PublishReset
    | CrashReplay

  datatype Action =
    | Environment(env: EnvAction)
    | RelayStep(tx: Id, relay: RelayAction)
    | WorkStep(task: Id, work: WorkAction)
    | SchedulerStep(worker: Id, sched: SchedulerAction)
    | ReplayStep(replay: Id, reset: ReplayAction)

  // ---------------------------------------------------------------- helpers

  function TaskMessage(s: State, t: Id): Message
    requires t in s.tasks && s.tasks[t].msg < |s.redis.entries|
  {
    s.redis.entries[s.tasks[t].msg]
  }

  function HandOf(s: State, w: Id): seq<Message> {
    if w in s.hand then s.hand[w] else []
  }

  function Count(m: map<Id, nat>, d: Id): nat {
    if d in m then m[d] else 0
  }

  function Bump(m: map<Id, nat>, d: Id): map<Id, nat> {
    m[d := Count(m, d) + 1]
  }

  function LogOf(st: Store, d: Id): seq<LogRow> {
    if d in st.log then st.log[d] else []
  }

  /** The fan-out query: active endpoints of the tenant that subscribe to the type. */
  function ActiveSubscribed(st: Store, tenant: Id, eventType: Id): set<Id> {
    set p | p in st.endpoints
         && st.endpoints[p].tenant == tenant
         && st.endpoints[p].active
         && eventType in st.endpoints[p].subscribed
  }

  predicate Locked(s: State, e: Id) {
    exists x | x in s.txs :: e in s.txs[x].batch
  }

  /** Some open transaction has inserted this delivery row. */
  predicate Uncommitted(s: State, d: Id) {
    exists x | x in s.txs :: d in s.txs[x].created
  }

  /** A coroutine holding this message is about to acknowledge it. */
  predicate AckPending(s: State, m: nat) {
    exists t | t in s.tasks :: s.tasks[t].msg == m && Acking(s.tasks[t].phase)
  }

  predicate Acking(p: Phase) { p.ReadyToAck? || p.Gone? }

  function Xadd(r: Redis, m: Message): Redis { r.(entries := r.entries + [m]) }

  function SetPhase(s: State, t: Id, p: Phase): State
    requires t in s.tasks
  {
    s.(tasks := s.tasks[t := s.tasks[t].(phase := p)])
  }

  function DropTask(s: State, t: Id): State { s.(tasks := s.tasks - {t}) }

  // ---------------------------------------------------------------- guards

  /** What must hold for a command to be issued and to take effect. */
  predicate Enabled(s: State, cfg: Config, a: Action) {
    match a
    case Environment(e) => EnvEnabled(s, e)
    case RelayStep(x, r) => RelayEnabled(s, x, r)
    case WorkStep(t, w) => WorkEnabled(s, cfg, t, w)
    case SchedulerStep(w, c) => SchedulerEnabled(s, w, c)
    case ReplayStep(w, c) => ReplayEnabled(s, w, c)
  }

  predicate EnvEnabled(s: State, a: EnvAction) {
    match a
    case Tick(to) => s.clock <= to
    case Ingest(e, _, _, _) => e !in s.ledger.ids
    case CreateEndpoint(p, _, _) => p !in s.ledger.ids
    case UpdateEndpoint(p, _, _) => p in s.store.endpoints
    // The foreign keys of rows inserted but not committed yet block the delete.
    case DeleteEndpoint(p) =>
      && p in s.store.endpoints
      && forall x, d | x in s.txs && d in s.txs[x].created :: s.txs[x].created[d].endpointId != p
  }

  predicate RelayEnabled(s: State, x: Id, a: RelayAction) {
    match a
    // FOR UPDATE SKIP LOCKED: pending rows that no other open transaction has locked.
    case ClaimDue(batch) =>
      && x !in s.ledger.ids
      && forall e | e in batch :: e in s.store.outbox && s.store.outbox[e].OutboxPending? && !Locked(s, e)
    case ReadTargets(e) =>
      && x in s.txs && s.txs[x].current.None?
      && e in s.txs[x].batch - s.txs[x].done
      && e in s.store.events
    // The insert fails, and with it the transaction, when the endpoint is gone.
    case CreateDelivery(p, d) =>
      && x in s.txs && s.txs[x].current.Some? && s.txs[x].unpublished.None?
      && p in s.txs[x].todo && p in s.store.endpoints
      && d !in s.ledger.ids
    case Publish =>
      && x in s.txs && s.txs[x].unpublished.Some? && s.txs[x].current.Some?
      && s.txs[x].current.value in s.store.events
    case MarkProcessed =>
      x in s.txs && s.txs[x].current.Some? && s.txs[x].todo == {} && s.txs[x].unpublished.None?
    case CommitFanOut => x in s.txs && s.txs[x].done == s.txs[x].batch && s.txs[x].current.None?
    case RollBack => x in s.txs
  }

  predicate WorkEnabled(s: State, cfg: Config, t: Id, a: WorkAction) {
    match a
    case ReadNext => t !in s.ledger.ids && s.redis.delivered < |s.redis.entries|
    case ClaimStale(m) =>
      t !in s.ledger.ids && m in s.redis.pel && s.clock - s.redis.pel[m] >= cfg.minIdle
    case BeginAttempt => AtPhase(s, t) && s.tasks[t].phase.Read? && Known(s, t)
    // The delivery, or a row it hangs on, was missing when the transaction looked.
    case NotFound =>
      AtPhase(s, t) && (s.tasks[t].phase.Read? || s.tasks[t].phase.Attempting?) && !Known(s, t)
    case Request => AtPhase(s, t) && s.tasks[t].phase.Attempting?
    case CommitDeferral(_) => AtPhase(s, t) && s.tasks[t].phase.Attempting? && Known(s, t)
    case CommitAttempt(_, _) => AtPhase(s, t) && s.tasks[t].phase.Requested? && Known(s, t)
    case ScheduleRetry => AtPhase(s, t) && s.tasks[t].phase.MustSchedule?
    case Ack => AtPhase(s, t) && Acking(s.tasks[t].phase)
    case Abort => AtPhase(s, t)
  }

  predicate AtPhase(s: State, t: Id) {
    t in s.tasks && s.tasks[t].msg < |s.redis.entries|
  }

  predicate Known(s: State, t: Id)
    requires AtPhase(s, t)
  {
    TaskMessage(s, t).delivery in s.store.deliveries
  }

  predicate SchedulerEnabled(s: State, w: Id, a: SchedulerAction) {
    match a
    case PopDue(k) => k in s.redis.retry && s.redis.retry[k] <= s.clock
    case Requeue => HandOf(s, w) != []
    case CrashScheduler => true
  }

  predicate ReplayEnabled(s: State, w: Id, a: ReplayAction) {
    match a
    // Another tenant's delivery is not found.
    case ReadDead(d, tenant) =>
      && w !in s.ledger.ids && d in s.store.deliveries && s.store.deliveries[d].state.Dead?
      && s.store.deliveries[d].eventId in s.store.events
      && s.store.events[s.store.deliveries[d].eventId].tenant == tenant
    // The UPDATE does not ask again whether the row is dead; it only needs the row to be there.
    case CommitReset(d) => w in s.reading && s.reading[w].delivery == d && d in s.store.deliveries
    case GiveUpReset => w in s.reading
    case PublishReset => w in s.replaying
    case CrashReplay => w in s.replaying
  }

  // ---------------------------------------------------------------- effects

  function Apply(s: State, cfg: Config, a: Action): State
    requires Enabled(s, cfg, a)
  {
    match a
    case Environment(e) => EnvApply(s, e)
    case RelayStep(x, r) => RelayApply(s, x, r)
    case WorkStep(t, w) => WorkApply(s, cfg, t, w)
    case SchedulerStep(w, c) => SchedulerApply(s, w, c)
    case ReplayStep(w, c) => ReplayApply(s, w, c)
  }

  function EnvApply(s: State, a: EnvAction): State
    requires EnvEnabled(s, a)
  {
    match a
    case Tick(to) => s.(clock := to)
    // Event and outbox row in one commit.
    case Ingest(e, tenant, ty, cid) =>
      UseId(s, e).(store := s.store.(
        events := s.store.events[e := Event(tenant, ty, cid)],
        outbox := s.store.outbox[e := OutboxPending]))
    case CreateEndpoint(p, tenant, sub) =>
      UseId(s, p).(store := s.store.(endpoints := s.store.endpoints[p := Endpoint(tenant, true, sub)]))
    case UpdateEndpoint(p, active, sub) =>
      s.(store := s.store.(endpoints := s.store.endpoints[p := s.store.endpoints[p].(active := active, subscribed := sub)]))
    // The delete cascades to the endpoint's deliveries and their attempt rows.
    case DeleteEndpoint(p) =>
      var gone := set d | d in s.store.deliveries && s.store.deliveries[d].endpointId == p;
      s.(store := s.store.(
        endpoints := s.store.endpoints - {p},
        deliveries := s.store.deliveries - gone,
        log := s.store.log - gone))
  }

  function RelayApply(s: State, x: Id, a: RelayAction): State
    requires RelayEnabled(s, x, a)
  {
    match a
    case ClaimDue(batch) =>
      UseId(s, x).(txs := s.txs[x := Tx(batch, {}, None, {}, map[], map[], None)])
    case ReadTargets(e) =>
      var found := ActiveSubscribed(s.store, s.store.events[e].tenant, s.store.events[e].eventType);
      s.(txs := s.txs[x := s.txs[x].(current := Some(e), todo := found, targets := s.txs[x].targets[e := found])])
    case CreateDelivery(p, d) =>
      var tx := s.txs[x];
      UseId(s, d).(txs := s.txs[x := tx.(
        todo := tx.todo - {p},
        created := tx.created[d := Create(tx.current.value, p)],
        unpublished := Some(d))])
    case Publish =>
      var tx := s.txs[x];
      s.(redis := Xadd(s.redis, Message(tx.unpublished.value, s.store.events[tx.current.value].correlationId)),
         txs := s.txs[x := tx.(unpublished := None)])
    case MarkProcessed =>
      s.(txs := s.txs[x := s.txs[x].(done := s.txs[x].done + {s.txs[x].current.value}, current := None)])
    case CommitFanOut => CommitTx(s, x)
    case RollBack => s.(txs := s.txs - {x})
  }

  function CommitTx(s: State, x: Id): State
    requires x in s.txs
  {
    var tx := s.txs[x];
    s.(store := s.store.(
         outbox := map e | e in s.store.outbox :: if e in tx.batch then OutboxProcessed else s.store.outbox[e],
         deliveries := s.store.deliveries + tx.created),
       txs := s.txs - {x},
       ledger := s.ledger.(fanout := s.ledger.fanout + tx.targets))
  }

  function WorkApply(s: State, cfg: Config, t: Id, a: WorkAction): State
    requires WorkEnabled(s, cfg, t, a)
  {
    match a
    case ReadNext =>
      UseId(s, t).(
        redis := s.redis.(delivered := s.redis.delivered + 1, pel := s.redis.pel[s.redis.delivered := s.clock]),
        tasks := s.tasks[t := Task(s.redis.delivered, Dispatcher, Read)])
    case ClaimStale(m) =>
      UseId(s, t).(redis := s.redis.(pel := s.redis.pel[m := s.clock]), tasks := s.tasks[t := Task(m, Reaper, Read)])
    case BeginAttempt => SetPhase(s, t, Attempting(s.store.deliveries[TaskMessage(s, t).delivery]))
    case NotFound => DropOrGone(s, t)
    case Request =>
      SetPhase(s, t, Requested(s.tasks[t].phase.row)).(
        ledger := s.ledger.(sends := Bump(s.ledger.sends, TaskMessage(s, t).delivery)))
    case CommitDeferral(at) => Defer(s, t, at)
    case CommitAttempt(ok, at) => Record(s, cfg, t, ok, at)
    case ScheduleRetry =>
      SetPhase(s, t, ReadyToAck).(
        redis := s.redis.(retry := s.redis.retry[TaskMessage(s, t) := s.tasks[t].phase.at]),
        ledger := s.ledger.(done := s.ledger.done + {s.tasks[t].msg}))
    case Ack => DropTask(s, t).(redis := s.redis.(pel := s.redis.pel - {s.tasks[t].msg}))
    case Abort => Die(s, t)
  }

  /** The dispatcher leaves the message unacknowledged; only the reaper goes on to drop it. */
  function DropOrGone(s: State, t: Id): State
    requires AtPhase(s, t)
  {
    if s.tasks[t].role.Dispatcher? then DropTask(s, t)
    else
      var d := TaskMessage(s, t).delivery;
      var s' := SetPhase(s, t, Gone);
      if Uncommitted(s, d) then AddHazards(s', {Hazard(d, EarlyDrop)}) else s'
  }

  function Defer(s: State, t: Id, at: Time): State
    requires AtPhase(s, t) && s.tasks[t].phase.Attempting?
  {
    var d := TaskMessage(s, t).delivery;
    SetPhase(s, t, MustSchedule(at)).(
      store := s.store.(deliveries := s.store.deliveries[d := Reschedule(s.tasks[t].phase.row, at)]),
      ledger := s.ledger.(committed := s.ledger.committed + {s.tasks[t].msg}))
  }

  function Record(s: State, cfg: Config, t: Id, ok: bool, at: Time): State
    requires AtPhase(s, t) && s.tasks[t].phase.Requested?
  {
    var d := TaskMessage(s, t).delivery;
    var row := s.tasks[t].phase.row;
    var row' := RecordOutcome(row, ok, at, cfg.maxAttempts);
    var m := s.tasks[t].msg;
    SetPhase(s, t, if row'.state.Retrying? then MustSchedule(at) else ReadyToAck).(
      store := s.store.(
        deliveries := s.store.deliveries[d := row'],
        log := s.store.log[d := LogOf(s.store, d) + [LogRow(row.attemptCount + 1, ok)]]),
      ledger := s.ledger.(
        recorded := Bump(s.ledger.recorded, d),
        committed := s.ledger.committed + {m},
        done := if row'.state.Retrying? then s.ledger.done else s.ledger.done + {m}))
  }

  /** The coroutine dies, or gives up on an exception, wherever it stands. If it owed the retry
      set a member and its message is already acknowledged, or about to be, by somebody who
      claimed it meanwhile, nothing will remember the retry. */
  function Die(s: State, t: Id): State
    requires AtPhase(s, t)
  {
    var d := TaskMessage(s, t).delivery;
    var m := s.tasks[t].msg;
    var s1 := DropTask(s, t);
    var s2 := if s.tasks[t].phase.Requested?
              then s1.(ledger := s.ledger.(aborted := Bump(s.ledger.aborted, d)))
              else s1;
    if s.tasks[t].phase.MustSchedule? && (m !in s.redis.pel || AckPending(s, m))
    then AddHazards(s2, {Hazard(d, RobbedCrash)})
    else s2
  }

  function SchedulerApply(s: State, w: Id, a: SchedulerAction): State
    requires SchedulerEnabled(s, w, a)
  {
    match a
    case PopDue(k) =>
      s.(redis := s.redis.(retry := s.redis.retry - {k}), hand := s.hand[w := HandOf(s, w) + [k]])
    case Requeue =>
      s.(redis := Xadd(s.redis, s.hand[w][0]), hand := s.hand[w := s.hand[w][1..]])
    case CrashScheduler =>
      AddHazards(s, set k | 0 <= k < |HandOf(s, w)| :: Hazard(HandOf(s, w)[k].delivery, SchedulerCrash)).(
        hand := s.hand[w := []])
  }

  function ReplayApply(s: State, w: Id, a: ReplayAction): State
    requires ReplayEnabled(s, w, a)
  {
    match a
    case ReadDead(d, _) => UseId(s, w).(reading := s.reading[w := DeadRead(d, s.store.deliveries[d])])
    case CommitReset(d) =>
      s.(store := s.store.(deliveries := s.store.deliveries[d := ResetForReplay(s.store.deliveries[d])]),
         reading := s.reading - {w},
         replaying := s.replaying[w := d])
    case GiveUpReset => s.(reading := s.reading - {w})
    case PublishReset =>
      s.(redis := Xadd(s.redis, Message(s.replaying[w], None)), replaying := s.replaying - {w})
    case CrashReplay =>
      AddHazards(s, {Hazard(s.replaying[w], ReplayCrash)}).(replaying := s.replaying - {w})
  }

  function UseId(s: State, id: Id): State {
    s.(ledger := s.ledger.(ids := s.ledger.ids + {id}))
  }

  function AddHazards(s: State, hs: set<Hazard>): State {
    s.(ledger := s.ledger.(hazards := s.ledger.hazards + hs))
  }

  // ---------------------------------------------------------------- runs

  ghost predicate IsRun(cfg: Config, states: seq<State>, actions: seq<Action>) {
    && |states| == |actions| + 1
    && states[0] == INITIAL
    && forall i | 0 <= i < |actions| :: StepAt(cfg, states, actions, i)
  }

  ghost predicate StepAt(cfg: Config, states: seq<State>, actions: seq<Action>, i: nat)
    requires |states| == |actions| + 1 && i < |actions|
  {
    && Enabled(states[i], cfg, actions[i])
    && states[i + 1] == Apply(states[i], cfg, actions[i])
  }
}
