/** Exactly-once fan-out with racing, crashing relays, and the end-to-end account of every
    accepted event. */
module FanOut {
  import opened Prelude
  import opened Deliveries
  import opened Protocol
  import opened Frames
  import opened Invariants
  import opened NoLostWork

  // ---------------------------------------------------------------- the invariant

  /** One outbox row per event; it is processed exactly when a fan-out of the event committed. */
  ghost predicate OutboxMatches(s: State) {
    && s.store.outbox.Keys == s.store.events.Keys
    && (forall e | e in s.store.events :: e in s.ledger.ids)
    && (forall p | p in s.store.endpoints :: p in s.ledger.ids)
    && (forall e :: e in s.ledger.fanout <==> e in s.store.outbox && s.store.outbox[e].OutboxProcessed?)
    && (forall e | e in s.ledger.fanout :: s.ledger.fanout[e] <= s.ledger.ids)
  }

  /** A committed delivery belongs to a processed event and to an endpoint of the set that the
      committed fan-out read. */
  ghost predicate RowsMatch(s: State) {
    forall d | d in s.store.deliveries ::
      var row := s.store.deliveries[d];
      && row.eventId in s.ledger.fanout
      && row.endpointId in s.ledger.fanout[row.eventId]
      && row.endpointId in s.store.endpoints
  }

  /** No two rows for the same event and endpoint. */
  ghost predicate NoTwins(rows: map<Id, Delivery>) {
    forall c, d | c in rows && d in rows && rows[c].eventId == rows[d].eventId
                  && rows[c].endpointId == rows[d].endpointId :: c == d
  }

  ghost predicate HasRow(rows: map<Id, Delivery>, e: Id, p: Id) {
    exists d | d in rows :: rows[d].eventId == e && rows[d].endpointId == p
  }

  /** Every endpoint of the fan-out set that was not deleted has its row. */
  ghost predicate Complete(s: State) {
    forall e, p | e in s.ledger.fanout && p in s.ledger.fanout[e] && p in s.store.endpoints ::
      HasRow(s.store.deliveries, e, p)
  }

  /** The same, inside one open transaction: what it inserted so far is exactly the targets it
      read minus those still to do. */
  ghost predicate TxMatches(st: Store, ids: set<Id>, tx: Tx) {
    && (forall e | e in tx.batch :: e in st.outbox && st.outbox[e].OutboxPending?)
    && tx.done <= tx.batch
    && (tx.current.Some? ==> tx.current.value in tx.batch - tx.done)
    && tx.targets.Keys == tx.done + (if tx.current.Some? then {tx.current.value} else {})
    && (forall e | e in tx.targets :: tx.targets[e] <= ids)
    && (tx.current.Some? ==> tx.todo <= tx.targets[tx.current.value])
    && TxRowsMatch(st, tx)
    && NoTwins(tx.created)
    && (forall e, p | e in tx.targets && p in tx.targets[e] && p in st.endpoints && !Todo(tx, e, p) ::
          HasRow(tx.created, e, p))
  }

  predicate Todo(tx: Tx, e: Id, p: Id) { tx.current == Some(e) && p in tx.todo }

  ghost predicate TxRowsMatch(st: Store, tx: Tx) {
    forall d | d in tx.created ::
      var row := tx.created[d];
      && row.eventId in tx.targets
      && row.endpointId in tx.targets[row.eventId]
      && row.endpointId in st.endpoints
      && !Todo(tx, row.eventId, row.endpointId)
  }

  ghost predicate TxsMatch(s: State) {
    forall x | x in s.txs :: TxMatches(s.store, s.ledger.ids, s.txs[x])
  }

  /** Racing relays never hold the same outbox row. */
  ghost predicate LocksDisjoint(s: State) {
    forall x, y | x in s.txs && y in s.txs && x != y :: s.txs[x].batch !! s.txs[y].batch
  }

  /** What an attempt read still names the same event and endpoint. */
  ghost predicate SnapshotsMatch(s: State) {
    forall t | t in s.tasks && (s.tasks[t].phase.Attempting? || s.tasks[t].phase.Requested?) :: SnapshotMatches(s, t)
  }

  ghost predicate SnapshotMatches(s: State, t: Id)
    requires t in s.tasks && (s.tasks[t].phase.Attempting? || s.tasks[t].phase.Requested?)
  {
    && s.tasks[t].msg < |s.redis.entries|
    && var d := TaskMessage(s, t).delivery;
       && d in s.ledger.ids
       && !Uncommitted(s, d)
       && (d in s.store.deliveries ==> SamePair(s.store.deliveries[d], s.tasks[t].phase.row))
  }

  predicate SamePair(a: Delivery, b: Delivery) { a.eventId == b.eventId && a.endpointId == b.endpointId }

  ghost predicate FanOutInv(s: State) {
    && OutboxMatches(s) && RowsMatch(s) && NoTwins(s.store.deliveries) && Complete(s)
    && TxsMatch(s) && LocksDisjoint(s) && SnapshotsMatch(s)
  }

  // ---------------------------------------------------------------- environment

  lemma FanOutEnvironment(s: State, a: EnvAction)
    requires Wf(s) && FanOutInv(s) && EnvEnabled(s, a)
    ensures FanOutInv(EnvApply(s, a))
  {
    var s' := EnvApply(s, a);
    EnvFrame(s, a);
    EnvTxs(s, a);
    EnvComplete(s, a);
    EnvOutbox(s, a);
    assert forall t | t in s'.tasks && (s'.tasks[t].phase.Attempting? || s'.tasks[t].phase.Requested?) ::
      SnapshotMatches(s, t) && TaskMessage(s', t) == TaskMessage(s, t);
  }

  lemma EnvOutbox(s: State, a: EnvAction)
    requires Wf(s) && FanOutInv(s) && EnvEnabled(s, a)
    ensures OutboxMatches(EnvApply(s, a)) && RowsMatch(EnvApply(s, a))
  {
    EnvFrame(s, a);
  }

  lemma EnvComplete(s: State, a: EnvAction)
    requires Wf(s) && FanOutInv(s) && EnvEnabled(s, a)
    ensures Complete(EnvApply(s, a))
  {
    var s' := EnvApply(s, a);
    EnvFrame(s, a);
    forall e, p | e in s'.ledger.fanout && p in s'.ledger.fanout[e] && p in s'.store.endpoints
      ensures HasRow(s'.store.deliveries, e, p)
    {
      assert HasRow(s.store.deliveries, e, p);
      var d :| d in s.store.deliveries && s.store.deliveries[d].eventId == e && s.store.deliveries[d].endpointId == p;
      assert d in s'.store.deliveries;
    }
  }

  lemma EnvTxs(s: State, a: EnvAction)
    requires Wf(s) && FanOutInv(s) && EnvEnabled(s, a)
    ensures TxsMatch(EnvApply(s, a))
  {
    var s' := EnvApply(s, a);
    EnvFrame(s, a);
    forall x | x in s'.txs ensures TxMatches(s'.store, s'.ledger.ids, s'.txs[x]) {
      EnvTx(s, a, x);
    }
  }

  lemma EnvTx(s: State, a: EnvAction, x: Id)
    requires Wf(s) && FanOutInv(s) && EnvEnabled(s, a) && x in s.txs
    ensures TxMatches(EnvApply(s, a).store, EnvApply(s, a).ledger.ids, s.txs[x])
  {
    assert TxMatches(s.store, s.ledger.ids, s.txs[x]);
    var tx, s' := s.txs[x], EnvApply(s, a);
    forall e, p | e in tx.targets && p in tx.targets[e] && p in s'.store.endpoints && !Todo(tx, e, p)
      ensures HasRow(tx.created, e, p)
    {
      assert p in s.ledger.ids;
    }
  }

  // ---------------------------------------------------------------- relay

  lemma TxAfterRead(st: Store, ids: set<Id>, tx: Tx, e: Id, found: set<Id>)
    requires TxMatches(st, ids, tx) && tx.current.None? && e in tx.batch - tx.done && found <= ids
    ensures TxMatches(st, ids, tx.(current := Some(e), todo := found, targets := tx.targets[e := found]))
  {
    var tx' := tx.(current := Some(e), todo := found, targets := tx.targets[e := found]);
    assert e !in tx.targets;
    assert tx'.targets.Keys == tx.done + {e};
    forall f, p | f in tx'.targets && p in tx'.targets[f] && p in st.endpoints && !Todo(tx', f, p)
      ensures HasRow(tx.created, f, p)
    {
      assert f != e && !Todo(tx, f, p);
    }
  }

  lemma TxAfterCreate(st: Store, ids: set<Id>, tx: Tx, p: Id, d: Id)
    requires TxMatches(st, ids, tx) && tx.current.Some? && p in tx.todo && p in st.endpoints
    requires d !in tx.created
    ensures TxMatches(st, ids + {d}, tx.(todo := tx.todo - {p},
                                         created := tx.created[d := Create(tx.current.value, p)],
                                         unpublished := Some(d)))
  {
    var e := tx.current.value;
    var tx' := tx.(todo := tx.todo - {p}, created := tx.created[d := Create(e, p)], unpublished := Some(d));
    assert Todo(tx, e, p);
    assert TxRowsMatch(st, tx');
    forall f, q | f in tx'.targets && q in tx'.targets[f] && q in st.endpoints && !Todo(tx', f, q)
      ensures HasRow(tx'.created, f, q)
    {
      if f == e && q == p {
        assert tx'.created[d].eventId == f;
      } else {
        assert HasRow(tx.created, f, q);
        var c :| c in tx.created && tx.created[c].eventId == f && tx.created[c].endpointId == q;
        assert tx'.created[c] == tx.created[c];
      }
    }
  }

  lemma TxAfterMark(st: Store, ids: set<Id>, tx: Tx)
    requires TxMatches(st, ids, tx) && tx.current.Some? && tx.todo == {}
    ensures TxMatches(st, ids, tx.(done := tx.done + {tx.current.value}, current := None))
  {
    var tx' := tx.(done := tx.done + {tx.current.value}, current := None);
    forall e, p | e in tx'.targets && p in tx'.targets[e] && p in st.endpoints && !Todo(tx', e, p)
      ensures HasRow(tx'.created, e, p)
    {
      assert !Todo(tx, e, p);
    }
  }

  /** The transaction that acts. */
  lemma RelayTxMatches(s: State, x: Id, a: RelayAction)
    requires Wf(s) && FanOutInv(s) && RelayEnabled(s, x, a)
    requires !a.CommitFanOut? && !a.RollBack?
    ensures var s' := RelayApply(s, x, a);
            s'.store == s.store && x in s'.txs && TxMatches(s'.store, s'.ledger.ids, s'.txs[x])
  {
    if x in s.txs { assert TxMatches(s.store, s.ledger.ids, s.txs[x]); }
    match a
    case ClaimDue(batch) =>
    case ReadTargets(e) =>
      TxAfterRead(s.store, s.ledger.ids, s.txs[x], e,
                  ActiveSubscribed(s.store, s.store.events[e].tenant, s.store.events[e].eventType));
    case CreateDelivery(p, d) => TxAfterCreate(s.store, s.ledger.ids, s.txs[x], p, d);
    case Publish =>
    case MarkProcessed => TxAfterMark(s.store, s.ledger.ids, s.txs[x]);
  }

  /** The others do not notice, because nobody shares a locked row. */
  lemma RelayOtherMatches(s: State, x: Id, a: RelayAction, y: Id)
    requires Wf(s) && FanOutInv(s) && RelayEnabled(s, x, a) && y in s.txs && y != x
    ensures var s' := RelayApply(s, x, a); TxMatches(s'.store, s'.ledger.ids, s.txs[y])
  {
    assert TxMatches(s.store, s.ledger.ids, s.txs[y]);
    RelayFrame(s, x, a);
    if a.CommitFanOut? {
      assert s.txs[x].batch !! s.txs[y].batch;
    }
    RelayStoreFrame(s, x, a);
  }

  lemma RelayStoreFrame(s: State, x: Id, a: RelayAction)
    requires RelayEnabled(s, x, a)
    ensures var s' := RelayApply(s, x, a);
            && s'.store.endpoints == s.store.endpoints && s'.store.events == s.store.events
            && s'.store.outbox.Keys == s.store.outbox.Keys
            && (forall e | e in s.store.outbox ::
                  s'.store.outbox[e] == if a.CommitFanOut? && e in s.txs[x].batch then OutboxProcessed else s.store.outbox[e])
            && s'.ledger.fanout == (if a.CommitFanOut? then s.ledger.fanout + s.txs[x].targets else s.ledger.fanout)
  {
  }

  lemma RelayTxs(s: State, x: Id, a: RelayAction)
    requires Wf(s) && FanOutInv(s) && RelayEnabled(s, x, a)
    ensures TxsMatch(RelayApply(s, x, a))
  {
    var s' := RelayApply(s, x, a);
    RelayTx(s, x, a);
    forall y | y in s'.txs ensures TxMatches(s'.store, s'.ledger.ids, s'.txs[y]) {
      if y == x {
        RelayTxMatches(s, x, a);
      } else {
        OtherTx(s, x, a, y);
        RelayOtherMatches(s, x, a, y);
      }
    }
  }

  lemma RelayBatch(s: State, x: Id, a: RelayAction)
    requires RelayEnabled(s, x, a) && x in RelayApply(s, x, a).txs
    ensures if a.ClaimDue? then RelayApply(s, x, a).txs[x].batch == a.batch
            else x in s.txs && RelayApply(s, x, a).txs[x].batch == s.txs[x].batch
  {
  }

  lemma RelayLocks(s: State, x: Id, a: RelayAction)
    requires Wf(s) && FanOutInv(s) && RelayEnabled(s, x, a)
    ensures LocksDisjoint(RelayApply(s, x, a))
  {
    var s' := RelayApply(s, x, a);
    forall y, z | y in s'.txs && z in s'.txs && y != z ensures s'.txs[y].batch !! s'.txs[z].batch {
      if y == x { RelayBatch(s, x, a); OtherTx(s, x, a, z); assert a.ClaimDue? ==> forall e | e in a.batch :: !Locked(s, e); }
      else if z == x { RelayBatch(s, x, a); OtherTx(s, x, a, y); assert a.ClaimDue? ==> forall e | e in a.batch :: !Locked(s, e); }
      else { OtherTx(s, x, a, y); OtherTx(s, x, a, z); }
    }
  }

  /** The commit adds the rows of freshly processed events, which had none before. */
  lemma CommitRows(s: State, x: Id)
    requires Wf(s) && FanOutInv(s) && RelayEnabled(s, x, CommitFanOut)
    ensures RowsMatch(RelayApply(s, x, CommitFanOut))
  {
    assert TxMatches(s.store, s.ledger.ids, s.txs[x]);
    RelayFrame(s, x, CommitFanOut);
    RelayStoreFrame(s, x, CommitFanOut);
    CommittedTargets(s, x);
  }

  lemma NoTwinsUnion(rows: map<Id, Delivery>, added: map<Id, Delivery>)
    requires NoTwins(rows) && NoTwins(added)
    requires forall c, d | c in rows && d in added :: rows[c].eventId != added[d].eventId
    ensures NoTwins(rows + added)
  {
  }

  lemma CommitTwins(s: State, x: Id)
    requires Wf(s) && FanOutInv(s) && RelayEnabled(s, x, CommitFanOut)
    ensures NoTwins(RelayApply(s, x, CommitFanOut).store.deliveries)
  {
    var rows, added := s.store.deliveries, s.txs[x].created;
    assert TxMatches(s.store, s.ledger.ids, s.txs[x]);
    forall c, d | c in rows && d in added ensures rows[c].eventId != added[d].eventId {
      assert added[d].eventId in s.txs[x].batch;
    }
    NoTwinsUnion(rows, added);
  }

  lemma CommitComplete(s: State, x: Id)
    requires Wf(s) && FanOutInv(s) && RelayEnabled(s, x, CommitFanOut)
    ensures Complete(RelayApply(s, x, CommitFanOut))
  {
    var s', tx := RelayApply(s, x, CommitFanOut), s.txs[x];
    assert TxMatches(s.store, s.ledger.ids, tx);
    RelayFrame(s, x, CommitFanOut);
    RelayStoreFrame(s, x, CommitFanOut);
    forall e, p | e in s'.ledger.fanout && p in s'.ledger.fanout[e] && p in s'.store.endpoints
      ensures HasRow(s'.store.deliveries, e, p)
    {
      if e in tx.targets {
        assert HasRow(tx.created, e, p);
        var d :| d in tx.created && tx.created[d].eventId == e && tx.created[d].endpointId == p;
        assert s'.store.deliveries[d] == tx.created[d];
      } else {
        assert HasRow(s.store.deliveries, e, p);
        var d :| d in s.store.deliveries && s.store.deliveries[d].eventId == e && s.store.deliveries[d].endpointId == p;
        assert d !in tx.created;
        assert s'.store.deliveries[d] == s.store.deliveries[d];
      }
    }
  }

  lemma RelayOutbox(s: State, x: Id, a: RelayAction)
    requires Wf(s) && FanOutInv(s) && RelayEnabled(s, x, a)
    ensures OutboxMatches(RelayApply(s, x, a))
  {
    RelayFrame(s, x, a);
    RelayStoreFrame(s, x, a);
    if a.CommitFanOut? { CommittedTargets(s, x); }
  }

  /** A transaction about to commit read a set of known endpoints for each event it claimed. */
  lemma CommittedTargets(s: State, x: Id)
    requires FanOutInv(s) && RelayEnabled(s, x, CommitFanOut)
    ensures s.txs[x].targets.Keys == s.txs[x].batch && s.txs[x].batch <= s.store.outbox.Keys
    ensures forall e | e in s.txs[x].targets :: s.txs[x].targets[e] <= s.ledger.ids
  {
    assert TxMatches(s.store, s.ledger.ids, s.txs[x]);
  }

  lemma RelayRows(s: State, x: Id, a: RelayAction)
    requires Wf(s) && FanOutInv(s) && RelayEnabled(s, x, a)
    ensures var s' := RelayApply(s, x, a);
            RowsMatch(s') && NoTwins(s'.store.deliveries) && Complete(s')
  {
    if a.CommitFanOut? {
      CommitRows(s, x);
      CommitTwins(s, x);
      CommitComplete(s, x);
    } else {
      RelayFrame(s, x, a);
      RelayStoreFrame(s, x, a);
    }
  }

  lemma RelaySnapshots(s: State, x: Id, a: RelayAction)
    requires Wf(s) && FanOutInv(s) && RelayEnabled(s, x, a)
    ensures SnapshotsMatch(RelayApply(s, x, a))
  {
    var s' := RelayApply(s, x, a);
    RelayFrame(s, x, a);
    forall t | t in s'.tasks && (s'.tasks[t].phase.Attempting? || s'.tasks[t].phase.Requested?)
      ensures SnapshotMatches(s', t)
    {
      assert SnapshotMatches(s, t);
      assert TaskMessage(s', t) == TaskMessage(s, t);
      StaysOutOfTxs(s, x, a, TaskMessage(s, t).delivery);
    }
  }

  lemma FanOutRelay(s: State, x: Id, a: RelayAction)
    requires Wf(s) && FanOutInv(s) && RelayEnabled(s, x, a)
    ensures FanOutInv(RelayApply(s, x, a))
  {
    RelayOutbox(s, x, a);
    RelayRows(s, x, a);
    RelayTxs(s, x, a);
    RelayLocks(s, x, a);
    RelaySnapshots(s, x, a);
  }

  // ---------------------------------------------------------------- coroutines and replay

  /** Rewriting rows without changing whose they are keeps everything. */
  lemma PairsKept(s: State, s': State)
    requires FanOutInv(s)
    requires s'.store.events == s.store.events && s'.store.outbox == s.store.outbox
    requires s'.store.endpoints == s.store.endpoints && s'.txs == s.txs && s'.ledger.fanout == s.ledger.fanout
    requires s.ledger.ids <= s'.ledger.ids
    requires s'.store.deliveries.Keys == s.store.deliveries.Keys
    requires forall d | d in s.store.deliveries :: SamePair(s.store.deliveries[d], s'.store.deliveries[d])
    ensures OutboxMatches(s') && RowsMatch(s') && NoTwins(s'.store.deliveries) && Complete(s')
    ensures TxsMatch(s') && LocksDisjoint(s')
  {
    forall x | x in s'.txs ensures TxMatches(s'.store, s'.ledger.ids, s'.txs[x]) {
      assert TxMatches(s.store, s.ledger.ids, s.txs[x]);
    }
    forall e, p | e in s'.ledger.fanout && p in s'.ledger.fanout[e] && p in s'.store.endpoints
      ensures HasRow(s'.store.deliveries, e, p)
    {
      assert HasRow(s.store.deliveries, e, p);
      var d :| d in s.store.deliveries && s.store.deliveries[d].eventId == e && s.store.deliveries[d].endpointId == p;
      assert SamePair(s.store.deliveries[d], s'.store.deliveries[d]);
    }
  }

  lemma WorkPairs(s: State, cfg: Config, t: Id, a: WorkAction)
    requires Wf(s) && SnapshotsMatch(s) && WorkEnabled(s, cfg, t, a)
    ensures var s' := WorkApply(s, cfg, t, a);
            && s'.store.deliveries.Keys == s.store.deliveries.Keys
            && forall d | d in s.store.deliveries :: SamePair(s.store.deliveries[d], s'.store.deliveries[d])
  {
    WorkRows(s, cfg, t, a);
    if a.CommitDeferral? || a.CommitAttempt? {
      assert SnapshotMatches(s, t);
      CommitPair(s, cfg, t, a);
    }
  }

  lemma CommitPair(s: State, cfg: Config, t: Id, a: WorkAction)
    requires WorkEnabled(s, cfg, t, a) && (a.CommitDeferral? || a.CommitAttempt?)
    ensures var d := TaskMessage(s, t).delivery;
            && d in s.store.deliveries && d in WorkApply(s, cfg, t, a).store.deliveries
            && SamePair(WorkApply(s, cfg, t, a).store.deliveries[d], s.tasks[t].phase.row)
  {
  }

  lemma OwnSnapshot(s: State, cfg: Config, t: Id, a: WorkAction)
    requires Wf(s) && SnapshotsMatch(s) && WorkEnabled(s, cfg, t, a)
    requires t in WorkApply(s, cfg, t, a).tasks
    requires var p := WorkApply(s, cfg, t, a).tasks[t].phase; p.Attempting? || p.Requested?
    ensures SnapshotMatches(WorkApply(s, cfg, t, a), t)
  {
    var s' := WorkApply(s, cfg, t, a);
    WorkFrame(s, cfg, t, a);
    assert a.BeginAttempt? || a.Request?;
    if a.Request? { assert SnapshotMatches(s, t); }
    var d := TaskMessage(s, t).delivery;
    assert Uncommitted(s', d) == Uncommitted(s, d);
  }

  lemma WorkSnapshots(s: State, cfg: Config, t: Id, a: WorkAction)
    requires Wf(s) && SnapshotsMatch(s) && WorkEnabled(s, cfg, t, a)
    ensures SnapshotsMatch(WorkApply(s, cfg, t, a))
  {
    var s' := WorkApply(s, cfg, t, a);
    WorkFrame(s, cfg, t, a);
    WorkLedgerFrame(s, cfg, t, a);
    WorkPairs(s, cfg, t, a);
    forall u | u in s'.tasks && (s'.tasks[u].phase.Attempting? || s'.tasks[u].phase.Requested?)
      ensures SnapshotMatches(s', u)
    {
      if u == t {
        OwnSnapshot(s, cfg, t, a);
      } else {
        OtherTask(s, cfg, t, a, u);
        assert SnapshotMatches(s, u);
        var d := TaskMessage(s, u).delivery;
        assert Uncommitted(s', d) == Uncommitted(s, d);
        if d in s.store.deliveries { assert SamePair(s.store.deliveries[d], s'.store.deliveries[d]); }
      }
    }
  }

  lemma FanOutWork(s: State, cfg: Config, t: Id, a: WorkAction)
    requires Wf(s) && FanOutInv(s) && WorkEnabled(s, cfg, t, a)
    ensures FanOutInv(WorkApply(s, cfg, t, a))
  {
    WorkFrame(s, cfg, t, a);
    WorkStoreFrame(s, cfg, t, a);
    WorkLedgerFrame(s, cfg, t, a);
    WorkPairs(s, cfg, t, a);
    PairsKept(s, WorkApply(s, cfg, t, a));
    WorkSnapshots(s, cfg, t, a);
  }

  lemma SnapshotsFrame(s: State, s': State)
    requires RedisWf(s) && SnapshotsMatch(s)
    requires s'.tasks == s.tasks && s'.txs == s.txs && s.redis.entries <= s'.redis.entries
    requires s.ledger.ids <= s'.ledger.ids
    requires s'.store.deliveries.Keys == s.store.deliveries.Keys
    requires forall d | d in s.store.deliveries :: SamePair(s.store.deliveries[d], s'.store.deliveries[d])
    ensures SnapshotsMatch(s')
  {
    forall t | t in s'.tasks && (s'.tasks[t].phase.Attempting? || s'.tasks[t].phase.Requested?)
      ensures SnapshotMatches(s', t)
    {
      assert SnapshotMatches(s, t);
      assert TaskMessage(s', t) == TaskMessage(s, t);
      var d := TaskMessage(s, t).delivery;
      assert Uncommitted(s', d) == Uncommitted(s, d);
      if d in s.store.deliveries { assert SamePair(s.store.deliveries[d], s'.store.deliveries[d]); }
    }
  }

  lemma FanOutReplay(s: State, w: Id, a: ReplayAction)
    requires Wf(s) && FanOutInv(s) && ReplayEnabled(s, w, a)
    ensures FanOutInv(ReplayApply(s, w, a))
  {
    var s' := ReplayApply(s, w, a);
    ReplayFrame(s, w, a);
    PairsKept(s, s');
    SnapshotsFrame(s, s');
  }

  lemma FanOutScheduler(s: State, w: Id, a: SchedulerAction)
    requires Wf(s) && FanOutInv(s) && SchedulerEnabled(s, w, a)
    ensures FanOutInv(SchedulerApply(s, w, a))
  {
    var s' := SchedulerApply(s, w, a);
    SchedulerFrame(s, w, a);
    PairsKept(s, s');
    SnapshotsFrame(s, s');
  }

  lemma FanOutStep(s: State, cfg: Config, a: Action)
    requires Wf(s) && FanOutInv(s) && Enabled(s, cfg, a)
    ensures FanOutInv(Apply(s, cfg, a))
  {
    match a
    case Environment(e) => FanOutEnvironment(s, e);
    case RelayStep(x, r) => FanOutRelay(s, x, r);
    case WorkStep(t, w) => FanOutWork(s, cfg, t, w);
    case SchedulerStep(w, b) => FanOutScheduler(s, w, b);
    case ReplayStep(w, b) => FanOutReplay(s, w, b);
  }

  lemma {:induction false} RunFansOut(cfg: Config, states: seq<State>, actions: seq<Action>, i: nat)
    requires IsRun(cfg, states, actions) && i < |states|
    ensures FanOutInv(states[i])
  {
    if i > 0 {
      RunFansOut(cfg, states, actions, i - 1);
      RunIsWf(cfg, states, actions, i - 1);
      assert StepAt(cfg, states, actions, i - 1);
      FanOutStep(states[i - 1], cfg, actions[i - 1]);
    }
  }

  // ---------------------------------------------------------------- the theorems

  ghost predicate OnlyRow(rows: map<Id, Delivery>, e: Id, p: Id, d: Id) {
    && d in rows && rows[d].eventId == e && rows[d].endpointId == p
    && forall c | c in rows && rows[c].eventId == e && rows[c].endpointId == p :: c == d
  }

  /** Exactly-once fan-out, in every reachable state: an event whose outbox row is pending has no
      committed delivery; a processed one has exactly one for each endpoint of the set its
      transaction read that was not deleted since, and none for any other endpoint. */
  lemma ExactlyOnceFanOut(cfg: Config, states: seq<State>, actions: seq<Action>, i: nat, e: Id, p: Id)
    requires IsRun(cfg, states, actions) && i < |states| && e in states[i].store.events
    ensures var s := states[i];
            && e in s.store.outbox
            && (s.store.outbox[e].OutboxProcessed? <==> e in s.ledger.fanout)
            && if s.store.outbox[e].OutboxPending? || p !in s.ledger.fanout[e] || p !in s.store.endpoints
               then !HasRow(s.store.deliveries, e, p)
               else exists d :: OnlyRow(s.store.deliveries, e, p, d)
  {
    RunFansOut(cfg, states, actions, i);
    var s := states[i];
    if s.store.outbox[e].OutboxProcessed? && p in s.ledger.fanout[e] && p in s.store.endpoints {
      assert HasRow(s.store.deliveries, e, p);
      var d :| d in s.store.deliveries && s.store.deliveries[d].eventId == e && s.store.deliveries[d].endpointId == p;
      assert OnlyRow(s.store.deliveries, e, p, d);
    }
  }

  /** The endpoints an event is for: those of its tenant that are active and subscribe to its type. */
  ghost predicate Audience(st: Store, e: Id, found: set<Id>) {
    && e in st.events
    && forall p :: p in found <==>
         && p in st.endpoints
         && st.endpoints[p].tenant == st.events[e].tenant
         && st.endpoints[p].active
         && st.events[e].eventType in st.endpoints[p].subscribed
  }

  /** This step is transaction `x` reading exactly this set as the targets of `e`. */
  ghost predicate ReadsAt(s: State, a: Action, x: Id, e: Id, found: set<Id>) {
    a == RelayStep(x, ReadTargets(e)) && Audience(s.store, e, found)
  }

  ghost predicate ReadBefore(states: seq<State>, actions: seq<Action>, i: nat, x: Id, e: Id, found: set<Id>)
    requires |states| == |actions| + 1 && i < |states|
  {
    exists j | 0 <= j < i :: ReadsAt(states[j], actions[j], x, e, found)
  }

  /** One transaction read this set at some step, and committed at a later one. */
  ghost predicate ReadAndCommitted(states: seq<State>, actions: seq<Action>, k: nat, x: Id, e: Id, found: set<Id>)
    requires |states| == |actions| + 1 && k < |actions|
  {
    actions[k] == RelayStep(x, CommitFanOut) && ReadBefore(states, actions, k, x, e, found)
  }

  lemma {:induction false} TargetWasRead(cfg: Config, states: seq<State>, actions: seq<Action>, i: nat, x: Id, e: Id)
    requires IsRun(cfg, states, actions) && i < |states|
    requires x in states[i].txs && e in states[i].txs[x].targets
    ensures ReadBefore(states, actions, i, x, e, states[i].txs[x].targets[e])
  {
    assert i > 0;
    assert StepAt(cfg, states, actions, i - 1);
    TargetStepSource(states[i - 1], cfg, actions[i - 1], e, x);
    if !ReadsAt(states[i - 1], actions[i - 1], x, e, states[i].txs[x].targets[e]) {
      TargetWasRead(cfg, states, actions, i - 1, x, e);
    }
  }

  /** The set in the account is the active, subscribed endpoints at the moment they were read by
      the very transaction that went on to commit the fan-out. */
  lemma {:induction false} FanOutReadsTargets(cfg: Config, states: seq<State>, actions: seq<Action>, i: nat, e: Id)
    requires IsRun(cfg, states, actions) && i < |states|
    requires e in states[i].ledger.fanout
    ensures exists k, x | 0 <= k < i :: ReadAndCommitted(states, actions, k, x, e, states[i].ledger.fanout[e])
  {
    assert i > 0;
    assert StepAt(cfg, states, actions, i - 1);
    var s, a, found := states[i - 1], actions[i - 1], states[i].ledger.fanout[e];
    FanOutStepSource(s, cfg, a, e);
    if e in s.ledger.fanout && found == s.ledger.fanout[e] {
      FanOutReadsTargets(cfg, states, actions, i - 1, e);
    } else {
      TargetWasRead(cfg, states, actions, i - 1, a.tx, e);
      assert ReadAndCommitted(states, actions, i - 1, a.tx, e, found);
    }
  }

  lemma FanOutStepSource(s: State, cfg: Config, a: Action, e: Id)
    requires Enabled(s, cfg, a) && e in Apply(s, cfg, a).ledger.fanout
    ensures var found := Apply(s, cfg, a).ledger.fanout[e];
            || (e in s.ledger.fanout && found == s.ledger.fanout[e])
            || (a.RelayStep? && a.relay.CommitFanOut? && a.tx in s.txs
                && e in s.txs[a.tx].targets && found == s.txs[a.tx].targets[e])
  {
    match a
    case Environment(b) => EnvFrame(s, b);
    case RelayStep(x, r) => RelayStoreFrame(s, x, r);
    case WorkStep(t, w) => WorkLedgerFrame(s, cfg, t, w);
    case SchedulerStep(w, b) => SchedulerFrame(s, w, b);
    case ReplayStep(w, b) => ReplayFrame(s, w, b);
  }

  lemma RelayTargetSource(s: State, x: Id, a: RelayAction, e: Id)
    requires RelayEnabled(s, x, a) && x in RelayApply(s, x, a).txs && e in RelayApply(s, x, a).txs[x].targets
    ensures var found := RelayApply(s, x, a).txs[x].targets[e];
            || ReadsAt(s, RelayStep(x, a), x, e, found)
            || (x in s.txs && e in s.txs[x].targets && found == s.txs[x].targets[e])
  {
  }

  lemma TargetStepSource(s: State, cfg: Config, a: Action, e: Id, x: Id)
    requires Enabled(s, cfg, a) && x in Apply(s, cfg, a).txs && e in Apply(s, cfg, a).txs[x].targets
    ensures var found := Apply(s, cfg, a).txs[x].targets[e];
            || ReadsAt(s, a, x, e, found)
            || (x in s.txs && e in s.txs[x].targets && found == s.txs[x].targets[e])
  {
    match a
    case Environment(b) => EnvFrame(s, b);
    case RelayStep(y, r) =>
      if x == y { RelayTargetSource(s, x, r, e); } else { OtherTx(s, y, r, x); }
    case WorkStep(t, w) => WorkFrame(s, cfg, t, w);
    case SchedulerStep(w, b) => SchedulerFrame(s, w, b);
    case ReplayStep(w, b) => ReplayFrame(s, w, b);
  }

  /** It has been stranded ever since a step that hit a crash window for it. */
  ghost predicate StrandedByHit(states: seq<State>, actions: seq<Action>, i: nat, d: Id)
    requires |states| == |actions| + 1 && i < |states|
  {
    exists j | 0 <= j < i :: StrandedSince(states, actions, j, i, d)
  }

  /** The end-to-end account of an accepted event `e` and an endpoint `p`. Either the fan-out is
      still to come; or `p` was not in the set it read, or was deleted since; or there is exactly
      one delivery, and it is finished, or carried, or it has been stranded ever since a step that
      hit a crash window for it. */
  lemma EndToEnd(cfg: Config, states: seq<State>, actions: seq<Action>, i: nat, e: Id, p: Id)
    requires IsRun(cfg, states, actions) && i < |states| && e in states[i].store.events
    ensures var s := states[i];
            || (e in s.store.outbox && s.store.outbox[e].OutboxPending?)
            || (e in s.ledger.fanout && p !in s.ledger.fanout[e])
            || p !in s.store.endpoints
            || exists d :: && OnlyRow(s.store.deliveries, e, p, d)
                           && (!s.store.deliveries[d].Live() || Carried(s, d) || StrandedByHit(states, actions, i, d))
  {
    ExactlyOnceFanOut(cfg, states, actions, i, e, p);
    var s := states[i];
    if s.store.outbox[e].OutboxProcessed? && p in s.ledger.fanout[e] && p in s.store.endpoints {
      var d :| OnlyRow(s.store.deliveries, e, p, d);
      if s.store.deliveries[d].Live() && !Carried(s, d) {
        assert Owed(s, d);
        LostOnlyByHit(cfg, states, actions, i, d);
      }
    }
  }
}
