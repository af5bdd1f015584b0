/** Tenants never mix: what is delivered to an endpoint comes from its own tenant, and only that
    tenant replays it. */
module Tenants {
  import opened Prelude
  import opened Deliveries
  import opened Protocol
  import opened Frames
  import opened Invariants
  import opened FanOut

  // ---------------------------------------------------------------- the invariant

  /** A row's endpoint has the tenant of the row's event. */
  predicate SameTenant(st: Store, row: Delivery) {
    && row.eventId in st.events && row.endpointId in st.endpoints
    && st.endpoints[row.endpointId].tenant == st.events[row.eventId].tenant
  }

  /** What a transaction read as the targets of an event is the event's tenant's, as far as it still
      exists. */
  ghost predicate TargetsOwned(st: Store, tx: Tx) {
    forall e, p | e in tx.targets && p in tx.targets[e] && p in st.endpoints ::
      e in st.events && st.endpoints[p].tenant == st.events[e].tenant
  }

  ghost predicate Owned(s: State) {
    && (forall d | d in s.store.deliveries :: SameTenant(s.store, s.store.deliveries[d]))
    && (forall x | x in s.txs :: TargetsOwned(s.store, s.txs[x]))
  }

  /** Events and endpoints keep their tenants, and new ones take fresh ids. */
  ghost predicate TenantsKept(s: State, s': State) {
    && (forall e | e in s.store.events :: e in s'.store.events && s'.store.events[e].tenant == s.store.events[e].tenant)
    && (forall p | p in s'.store.endpoints && p in s.store.endpoints ::
          s'.store.endpoints[p].tenant == s.store.endpoints[p].tenant)
    && (forall p | p in s'.store.endpoints && p !in s.store.endpoints :: p !in s.ledger.ids)
  }

  lemma EnvKeepsTenants(s: State, a: EnvAction)
    requires OutboxMatches(s) && EnvEnabled(s, a)
    ensures TenantsKept(s, EnvApply(s, a))
  {
  }

  lemma ReplayStore(s: State, w: Id, a: ReplayAction)
    requires ReplayEnabled(s, w, a)
    ensures ReplayApply(s, w, a).store.events == s.store.events
    ensures ReplayApply(s, w, a).store.endpoints == s.store.endpoints
  {
  }

  lemma TargetsStayOwned(s: State, s': State, tx: Tx)
    requires TargetsOwned(s.store, tx) && TenantsKept(s, s') && forall e | e in tx.targets :: tx.targets[e] <= s.ledger.ids
    ensures TargetsOwned(s'.store, tx)
  {
  }

  /** The transaction that acts: a read adds the event's own audience. */
  lemma RelayTargetsOwned(s: State, x: Id, a: RelayAction)
    requires FanOutInv(s) && Owned(s) && RelayEnabled(s, x, a) && x in RelayApply(s, x, a).txs
    ensures TargetsOwned(s.store, RelayApply(s, x, a).txs[x])
  {
    var s' := RelayApply(s, x, a);
    forall e, p | e in s'.txs[x].targets && p in s'.txs[x].targets[e] && p in s.store.endpoints
      ensures e in s.store.events && s.store.endpoints[p].tenant == s.store.events[e].tenant
    {
      RelayTargetSource(s, x, a, e);
    }
  }

  lemma OwnedRelay(s: State, x: Id, a: RelayAction)
    requires Wf(s) && FanOutInv(s) && Owned(s) && RelayEnabled(s, x, a)
    ensures Owned(RelayApply(s, x, a))
  {
    RelayTxsOwned(s, x, a);
    RelayRowsOwned(s, x, a);
  }

  lemma RelayTxsOwned(s: State, x: Id, a: RelayAction)
    requires FanOutInv(s) && Owned(s) && RelayEnabled(s, x, a)
    ensures forall y | y in RelayApply(s, x, a).txs :: TargetsOwned(RelayApply(s, x, a).store, RelayApply(s, x, a).txs[y])
  {
    var s' := RelayApply(s, x, a);
    RelayStoreFrame(s, x, a);
    forall y | y in s'.txs ensures TargetsOwned(s'.store, s'.txs[y]) {
      if y == x { RelayTargetsOwned(s, x, a); } else { OtherTx(s, x, a, y); }
    }
  }

  lemma RelayRowsOwned(s: State, x: Id, a: RelayAction)
    requires FanOutInv(s) && Owned(s) && RelayEnabled(s, x, a)
    ensures var st := RelayApply(s, x, a).store; forall d | d in st.deliveries :: SameTenant(st, st.deliveries[d])
  {
    RelayFrame(s, x, a);
    RelayStoreFrame(s, x, a);
    if a.CommitFanOut? { InsertedAreOwned(s, x); }
  }

  /** The rows of an open transaction are for targets it read. */
  lemma InsertedAreOwned(s: State, x: Id)
    requires FanOutInv(s) && Owned(s) && x in s.txs
    ensures forall d | d in s.txs[x].created :: SameTenant(s.store, s.txs[x].created[d])
  {
    assert TxMatches(s.store, s.ledger.ids, s.txs[x]) && TargetsOwned(s.store, s.txs[x]);
  }

  lemma OwnedEnvironment(s: State, a: EnvAction)
    requires Wf(s) && FanOutInv(s) && Owned(s) && EnvEnabled(s, a)
    ensures Owned(EnvApply(s, a))
  {
    var s' := EnvApply(s, a);
    EnvFrame(s, a);
    EnvKeepsTenants(s, a);
    EnvOutbox(s, a);
    forall x | x in s'.txs ensures TargetsOwned(s'.store, s'.txs[x]) {
      assert TxMatches(s.store, s.ledger.ids, s.txs[x]);
      TargetsStayOwned(s, s', s.txs[x]);
    }
  }

  /** Rewriting rows without changing whose they are. */
  lemma OwnedByPairs(s: State, s': State)
    requires Owned(s) && s'.txs == s.txs && s'.store.events == s.store.events && s'.store.endpoints == s.store.endpoints
    requires s'.store.deliveries.Keys == s.store.deliveries.Keys
    requires forall d | d in s.store.deliveries :: SamePair(s.store.deliveries[d], s'.store.deliveries[d])
    ensures Owned(s')
  {
    forall d | d in s'.store.deliveries ensures SameTenant(s'.store, s'.store.deliveries[d]) {
      assert SameTenant(s.store, s.store.deliveries[d]);
    }
  }

  lemma OwnedStep(s: State, cfg: Config, a: Action)
    requires Wf(s) && FanOutInv(s) && Owned(s) && Enabled(s, cfg, a)
    ensures Owned(Apply(s, cfg, a))
  {
    match a
    case Environment(e) => OwnedEnvironment(s, e);
    case RelayStep(x, r) => OwnedRelay(s, x, r);
    case WorkStep(t, w) =>
      WorkFrame(s, cfg, t, w);
      WorkStoreFrame(s, cfg, t, w);
      WorkPairs(s, cfg, t, w);
      OwnedByPairs(s, WorkApply(s, cfg, t, w));
    case SchedulerStep(w, b) => SchedulerFrame(s, w, b);
    case ReplayStep(w, b) =>
      ReplayFrame(s, w, b);
      ReplayStore(s, w, b);
      OwnedByPairs(s, ReplayApply(s, w, b));
  }

  lemma {:induction false} RunIsOwned(cfg: Config, states: seq<State>, actions: seq<Action>, i: nat)
    requires IsRun(cfg, states, actions) && i < |states|
    ensures Owned(states[i])
  {
    if i > 0 {
      RunIsOwned(cfg, states, actions, i - 1);
      OwnedAt(cfg, states, actions, i - 1);
    }
  }

  lemma OwnedAt(cfg: Config, states: seq<State>, actions: seq<Action>, i: nat)
    requires IsRun(cfg, states, actions) && i < |actions| && Owned(states[i])
    ensures Owned(states[i + 1])
  {
    RunIsWf(cfg, states, actions, i);
    RunFansOut(cfg, states, actions, i);
    assert StepAt(cfg, states, actions, i);
    OwnedStep(states[i], cfg, actions[i]);
  }

  // ---------------------------------------------------------------- what was sent is what is stored

  /** A step before `n` accepted this very event under this id. */
  ghost predicate WasIngested(actions: seq<Action>, n: nat, e: Id, event: Event)
    requires n <= |actions|
  {
    exists j | 0 <= j < n :: Ingests(actions[j], e, event)
  }

  predicate Ingests(a: Action, e: Id, event: Event) {
    a == Environment(Ingest(e, event.tenant, event.eventType, event.correlationId))
  }

  /** A step before `n` created this endpoint for this tenant. */
  ghost predicate WasCreatedFor(actions: seq<Action>, n: nat, p: Id, tenant: Id)
    requires n <= |actions|
  {
    exists j | 0 <= j < n :: CreatesFor(actions[j], p, tenant)
  }

  predicate CreatesFor(a: Action, p: Id, tenant: Id) {
    a.Environment? && a.env.CreateEndpoint? && a.env.endpoint == p && a.env.tenant == tenant
  }

  /** What is stored after the step was stored before, or this step sent it. */
  ghost predicate StoresOnly(s: State, s': State, a: Action) {
    && (forall e | e in s'.store.events ::
          (e in s.store.events && s'.store.events[e] == s.store.events[e]) || Ingests(a, e, s'.store.events[e]))
    && (forall p | p in s'.store.endpoints ::
          || (p in s.store.endpoints && s'.store.endpoints[p].tenant == s.store.endpoints[p].tenant)
          || CreatesFor(a, p, s'.store.endpoints[p].tenant))
  }

  lemma EnvStores(s: State, a: EnvAction)
    requires EnvEnabled(s, a)
    ensures StoresOnly(s, EnvApply(s, a), Environment(a))
  {
  }

  lemma StoredBefore(s: State, cfg: Config, a: Action)
    requires Enabled(s, cfg, a)
    ensures StoresOnly(s, Apply(s, cfg, a), a)
  {
    match a
    case Environment(e) => EnvStores(s, e);
    case RelayStep(x, r) => RelayStoreFrame(s, x, r);
    case WorkStep(t, w) => WorkStoreFrame(s, cfg, t, w);
    case SchedulerStep(w, b) => SchedulerFrame(s, w, b);
    case ReplayStep(w, b) => ReplayStore(s, w, b);
  }

  /** Every stored event is one that was sent, correlation id and all, and every endpoint is still
      the tenant's that created it. */
  lemma {:induction false} StoredAsSent(cfg: Config, states: seq<State>, actions: seq<Action>, i: nat)
    requires IsRun(cfg, states, actions) && i < |states|
    ensures forall e | e in states[i].store.events :: WasIngested(actions, i, e, states[i].store.events[e])
    ensures forall p | p in states[i].store.endpoints :: WasCreatedFor(actions, i, p, states[i].store.endpoints[p].tenant)
  {
    if i > 0 {
      StoredAsSent(cfg, states, actions, i - 1);
      assert StepAt(cfg, states, actions, i - 1);
      StoredBefore(states[i - 1], cfg, actions[i - 1]);
      forall e, event | WasIngested(actions, i - 1, e, event) ensures WasIngested(actions, i, e, event) {}
      forall p, tenant | WasCreatedFor(actions, i - 1, p, tenant) ensures WasCreatedFor(actions, i, p, tenant) {}
    }
  }

  // ---------------------------------------------------------------- the theorems

  /** In every reachable state, a delivery, committed or only inserted, is for an event that some
      tenant sent and for an endpoint that the very same tenant created. */
  lemma RowsStayInTheirTenant(cfg: Config, states: seq<State>, actions: seq<Action>, i: nat, d: Id, row: Delivery)
    requires IsRun(cfg, states, actions) && i < |states|
    requires || (d in states[i].store.deliveries && row == states[i].store.deliveries[d])
             || exists x | x in states[i].txs :: d in states[i].txs[x].created && row == states[i].txs[x].created[d]
    ensures var st := states[i].store;
            && row.eventId in st.events && row.endpointId in st.endpoints
            && WasIngested(actions, i, row.eventId, st.events[row.eventId])
            && st.endpoints[row.endpointId].tenant == st.events[row.eventId].tenant
            && WasCreatedFor(actions, i, row.endpointId, st.events[row.eventId].tenant)
  {
    RunIsOwned(cfg, states, actions, i);
    StoredAsSent(cfg, states, actions, i);
    RunFansOut(cfg, states, actions, i);
    var s := states[i];
    if d in s.store.deliveries && row == s.store.deliveries[d] {
      assert SameTenant(s.store, row);
    } else {
      var x :| x in s.txs && d in s.txs[x].created && row == s.txs[x].created[d];
      InsertedAreOwned(s, x);
    }
  }

  /** Replay `w` read delivery `d` dead at step `j`, for the tenant of its event. */
  ghost predicate ReadByOwner(states: seq<State>, actions: seq<Action>, j: nat, w: Id, d: Id, tenant: Id)
    requires |states| == |actions| + 1 && j < |actions|
  {
    var st := states[j].store;
    && actions[j] == ReplayStep(w, ReadDead(d, tenant))
    && d in st.deliveries && st.deliveries[d].state == Dead
    && st.deliveries[d].eventId in st.events && st.events[st.deliveries[d].eventId].tenant == tenant
  }

  /** The delivery is not in an open transaction, and if it still exists it is this tenant's. */
  ghost predicate StillOwned(s: State, d: Id, tenant: Id) {
    && d in s.ledger.ids && !Uncommitted(s, d)
    && (d in s.store.deliveries ==>
          var e := s.store.deliveries[d].eventId;
          e in s.store.events && s.store.events[e].tenant == tenant)
  }

  lemma StillOwnedRelay(s: State, x: Id, a: RelayAction, d: Id, tenant: Id)
    requires StillOwned(s, d, tenant) && RelayEnabled(s, x, a)
    ensures StillOwned(RelayApply(s, x, a), d, tenant)
  {
    RelayFrame(s, x, a);
    RelayStoreFrame(s, x, a);
    StaysOutOfTxs(s, x, a, d);
  }

  lemma StillOwnedStep(s: State, cfg: Config, a: Action, d: Id, tenant: Id)
    requires Wf(s) && FanOutInv(s) && StillOwned(s, d, tenant) && Enabled(s, cfg, a)
    ensures StillOwned(Apply(s, cfg, a), d, tenant)
  {
    match a
    case Environment(e) => EnvFrame(s, e); EnvKeepsTenants(s, e);
    case RelayStep(x, r) => StillOwnedRelay(s, x, r, d, tenant);
    case WorkStep(t, w) =>
      WorkFrame(s, cfg, t, w);
      WorkStoreFrame(s, cfg, t, w);
      WorkLedgerFrame(s, cfg, t, w);
      WorkPairs(s, cfg, t, w);
    case SchedulerStep(w, b) => SchedulerFrame(s, w, b);
    case ReplayStep(w, b) => ReplayFrame(s, w, b); ReplayStore(s, w, b);
  }

  /** A replay that has read a row did so as the owner, and the owner does not change. */
  lemma {:induction false} ReaderIsOwner(cfg: Config, states: seq<State>, actions: seq<Action>, i: nat, w: Id)
    returns (j: nat, tenant: Id)
    requires IsRun(cfg, states, actions) && i < |states| && w in states[i].reading
    ensures var d := states[i].reading[w].delivery;
            j < i && ReadByOwner(states, actions, j, w, d, tenant) && StillOwned(states[i], d, tenant)
  {
    assert i > 0;
    var a := actions[i - 1];
    assert StepAt(cfg, states, actions, i - 1);
    if a.ReplayStep? && a.replay == w && a.reset.ReadDead? {
      j, tenant := i - 1, a.reset.tenant;
      RunIsWf(cfg, states, actions, i - 1);
      ReadShowsOwner(states[i - 1], w, a.reset.delivery, tenant);
    } else {
      ReaderWasReading(states[i - 1], cfg, a, w);
      j, tenant := ReaderIsOwner(cfg, states, actions, i - 1, w);
    }
    OwnerKept(cfg, states, actions, i - 1, states[i].reading[w].delivery, tenant);
  }

  lemma OwnerKept(cfg: Config, states: seq<State>, actions: seq<Action>, i: nat, d: Id, tenant: Id)
    requires IsRun(cfg, states, actions) && i < |actions| && StillOwned(states[i], d, tenant)
    ensures StillOwned(states[i + 1], d, tenant)
  {
    assert StepAt(cfg, states, actions, i);
    RunIsWf(cfg, states, actions, i);
    RunFansOut(cfg, states, actions, i);
    StillOwnedStep(states[i], cfg, actions[i], d, tenant);
  }

  lemma ReadShowsOwner(s: State, w: Id, d: Id, tenant: Id)
    requires Wf(s) && ReplayEnabled(s, w, ReadDead(d, tenant))
    ensures StillOwned(s, d, tenant)
    ensures var s' := ReplayApply(s, w, ReadDead(d, tenant)); w in s'.reading && s'.reading[w].delivery == d
  {
  }

  lemma ReaderWasReading(s: State, cfg: Config, a: Action, w: Id)
    requires Enabled(s, cfg, a) && w in Apply(s, cfg, a).reading
    requires a.ReplayStep? && a.replay == w ==> !a.reset.ReadDead?
    ensures w in s.reading && Apply(s, cfg, a).reading[w] == s.reading[w]
  {
    match a
    case Environment(e) => EnvFrame(s, e);
    case RelayStep(x, r) => RelayFrame(s, x, r);
    case WorkStep(t, b) => WorkFrame(s, cfg, t, b);
    case SchedulerStep(v, b) => SchedulerFrame(s, v, b);
    case ReplayStep(v, b) =>
  }

  /** Whoever else was at work meanwhile: a delivery is reset only by a replay that read it dead for
      the tenant its event belongs to, then and now. */
  lemma OnlyOwnersReset(cfg: Config, states: seq<State>, actions: seq<Action>, i: nat, w: Id, d: Id)
    requires IsRun(cfg, states, actions) && i < |actions| && actions[i] == ReplayStep(w, CommitReset(d))
    ensures exists j: nat, tenant ::
              && j < i && ReadByOwner(states, actions, j, w, d, tenant)
              && var st := states[i].store;
                 && d in st.deliveries && st.deliveries[d].eventId in st.events
                 && st.events[st.deliveries[d].eventId].tenant == tenant
  {
    assert StepAt(cfg, states, actions, i);
    var j, tenant := ReaderIsOwner(cfg, states, actions, i, w);
    assert ReadByOwner(states, actions, j, w, d, tenant);
  }

  // ---------------------------------------------------------------- subscriptions

  /** Creating an endpoint makes it active. */
  predicate SetsTo(a: Action, p: Id, active: bool, subscribed: set<Id>) {
    && a.Environment?
    && match a.env
       case CreateEndpoint(q, _, types) => q == p && active && types == subscribed
       case UpdateEndpoint(q, on, types) => q == p && on == active && types == subscribed
       case _ => false
  }

  /** The last setting of endpoint `p` before step `i` is the one of step `j`. */
  ghost predicate LastSetting(actions: seq<Action>, j: nat, i: nat, p: Id, active: bool, subscribed: set<Id>)
    requires j < i <= |actions|
  {
    && SetsTo(actions[j], p, active, subscribed)
    && forall k | j < k < i && actions[k].Environment? && actions[k].env.UpdateEndpoint? :: actions[k].env.endpoint != p
  }

  lemma {:induction false} SettingHolds(cfg: Config, states: seq<State>, actions: seq<Action>, j: nat, i: nat, p: Id,
                                        active: bool, subscribed: set<Id>)
    requires IsRun(cfg, states, actions) && j < i <= |actions| && LastSetting(actions, j, i, p, active, subscribed)
    ensures p in states[i].ledger.ids
    ensures p in states[i].store.endpoints ==>
              states[i].store.endpoints[p].active == active && states[i].store.endpoints[p].subscribed == subscribed
    decreases i
  {
    var s, a := states[i - 1], actions[i - 1];
    assert StepAt(cfg, states, actions, i - 1);
    EverythingGrows(s, cfg, a);
    if j + 1 < i {
      SettingHolds(cfg, states, actions, j, i - 1, p, active, subscribed);
      SettingKept(s, cfg, a, p);
    } else {
      RunFansOut(cfg, states, actions, i - 1);
    }
  }

  lemma SettingKept(s: State, cfg: Config, a: Action, p: Id)
    requires Enabled(s, cfg, a) && p in s.ledger.ids
    requires a.Environment? && a.env.UpdateEndpoint? ==> a.env.endpoint != p
    ensures p in Apply(s, cfg, a).store.endpoints ==>
              p in s.store.endpoints && Apply(s, cfg, a).store.endpoints[p] == s.store.endpoints[p]
  {
    match a
    case Environment(e) =>
    case RelayStep(x, r) => RelayStoreFrame(s, x, r);
    case WorkStep(t, w) => WorkStoreFrame(s, cfg, t, w);
    case SchedulerStep(w, b) => SchedulerFrame(s, w, b);
    case ReplayStep(w, b) => ReplayStore(s, w, b);
  }

  /** The owner's last word counts, both ways: until an endpoint is set again, a fan-out of its
      tenant's event reads it as a target if it was last set active and to the event's type, and no
      fan-out does if it was not. */
  lemma LastSettingCounts(cfg: Config, states: seq<State>, actions: seq<Action>, j: nat, i: nat, x: Id, e: Id, p: Id,
                          active: bool, subscribed: set<Id>)
    requires IsRun(cfg, states, actions) && j < i < |actions| && LastSetting(actions, j, i, p, active, subscribed)
    requires actions[i] == RelayStep(x, ReadTargets(e)) && e in states[i].store.events
    ensures x in states[i + 1].txs && e in states[i + 1].txs[x].targets
    ensures var st := states[i].store;
            p in states[i + 1].txs[x].targets[e] <==>
              && p in st.endpoints && st.endpoints[p].tenant == st.events[e].tenant
              && active && st.events[e].eventType in subscribed
  {
    SettingHolds(cfg, states, actions, j, i, p, active, subscribed);
    assert StepAt(cfg, states, actions, i);
    RelayTargetSource(states[i], x, ReadTargets(e), e);
    RunFansOut(cfg, states, actions, i);
    assert TxMatches(states[i].store, states[i].ledger.ids, states[i].txs[x]);
  }
}
