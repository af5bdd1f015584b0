/** The relay: one transaction that claims due outbox rows, fans each of them out to rows and
    messages, and commits, or dies and takes everything but the messages with it. */
module Relays {
  import opened Prelude
  import opened Deliveries
  import opened Protocol
  import opened Invariants
  import opened FanOut
  import opened Clusters

  /** How a relay transaction ends: it commits, its process dies, or an insert runs into an
      endpoint deleted after it was read. */
  datatype RelayEnd = Committed | Died | EndpointGone

  /** Before which command the process of a relay dies. */
  datatype Point = BeforeInsert | BeforePublish
  datatype EntryDeath = AtEndpoint(endpoint: nat, point: Point) | BeforeMark
  datatype Death = InEntry(entry: nat, at: EntryDeath) | BeforeCommit

  /** Since `from`, this endpoint was there at one moment of the run. */
  ghost predicate SeenSince(states: seq<State>, from: nat, p: Id) {
    exists i | from <= i < |states| :: p in states[i].store.endpoints
  }

  ghost predicate AllSeen(states: seq<State>, from: nat, ps: set<Id>) {
    forall p | p in ps :: SeenSince(states, from, p)
  }

  lemma AllSeenGrows(states: seq<State>, states': seq<State>, from: nat, ps: set<Id>)
    requires AllSeen(states, from, ps) && states <= states'
    ensures AllSeen(states', from, ps)
  {
    forall p | p in ps ensures SeenSince(states', from, p) {
      var i :| from <= i < |states| && p in states[i].store.endpoints;
      assert states'[i] == states[i];
    }
  }

  /** Some endpoint was there at one moment since `from` and is not there now. */
  ghost predicate DeletedSince(states: seq<State>, from: nat, s: State) {
    exists p :: SeenSince(states, from, p) && p !in s.store.endpoints
  }

  /** Between two entries of the batch. */
  ghost predicate Idle(s: State, x: Id, batch: set<Id>, done: set<Id>) {
    && x in s.txs && s.txs[x].batch == batch && s.txs[x].done == done
    && s.txs[x].current.None? && s.txs[x].unpublished.None?
  }

  /** In the middle of entry `e`, with nothing inserted but unpublished. */
  ghost predicate Busy(s: State, x: Id, batch: set<Id>, done: set<Id>, e: Id) {
    && x in s.txs && s.txs[x].batch == batch && s.txs[x].done == done
    && s.txs[x].current == Some(e) && s.txs[x].unpublished.None?
  }

  /** Everybody else's turn; nobody touches an open transaction, and the events of the rows it
      locked stay. */
  method Turn(c: Cluster, x: Id)
    requires c.Valid() && x in c.s.txs
    modifies c
    ensures c.Valid() && old(c.states) <= c.states && old(c.actions) <= c.actions
    ensures x in c.s.txs && c.s.txs[x] == old(c.s).txs[x]
    ensures forall e | e in c.s.txs[x].batch :: e in c.s.store.events
    ensures old(c.s).redis.entries <= c.s.redis.entries
  {
    c.Others({Transaction(x)});
    assert Untouched(old(c.s), c.s, Transaction(x));
    RunIsWf(c.cfg, c.states, c.actions, |c.actions|);
    RunFansOut(c.cfg, c.states, c.actions, |c.actions|);
    assert TxMatches(c.s.store, c.s.ledger.ids, c.s.txs[x]);
  }

  predicate Due(s: State, e: Id) {
    e in s.store.outbox && s.store.outbox[e].OutboxPending? && !Locked(s, e)
  }

  /** Only rows that are pending and in nobody's open transaction, at most `limit` of them, and
      fewer only if there are no more. */
  ghost predicate ClaimsPending(s: State, batch: set<Id>, limit: nat) {
    && |batch| <= limit
    && (forall e | e in batch ::
          e in s.store.outbox && s.store.outbox[e] == OutboxPending && forall x | x in s.txs :: e !in s.txs[x].batch)
    && (|batch| < limit ==>
          forall e | e in s.store.outbox && s.store.outbox[e] == OutboxPending && e !in batch ::
            exists x | x in s.txs :: e in s.txs[x].batch)
  }

  /** FOR UPDATE SKIP LOCKED LIMIT: as many pending, unlocked rows as there are, up to the limit. */
  method ClaimDue(c: Cluster, limit: nat) returns (x: Id, batch: set<Id>)
    requires c.Valid()
    modifies c
    ensures c.Valid() && old(c.states) <= c.states && old(c.actions) <= c.actions
    ensures |old(c.states)| < |c.states|
    ensures Idle(c.s, x, batch, {}) && x !in old(c.s).ledger.ids
    ensures ClaimsPending(old(c.s), batch, limit)
  {
    batch := {};
    var due := set e | e in c.s.store.outbox && Due(c.s, e);
    while |batch| < limit && due != {}
      invariant |batch| <= limit && batch !! due
      invariant forall e :: e in batch || e in due <==> Due(c.s, e)
      decreases due
    {
      var e :| e in due;
      due := due - {e};
      batch := batch + {e};
    }
    x := c.FreshId();
    c.Do(RelayStep(x, RelayAction.ClaimDue(batch)));
  }

  /** The transaction has inserted a row for this event and endpoint, and a message names it. */
  ghost predicate Served(s: State, x: Id, e: Id, p: Id) {
    x in s.txs && exists d | d in s.txs[x].created :: s.txs[x].created[d] == Create(e, p) && Announced(s, d)
  }

  ghost predicate Announced(s: State, d: Id) {
    exists i | 0 <= i < |s.redis.entries| :: s.redis.entries[i].delivery == d
  }

  ghost predicate StillServed(s: State, s': State, x: Id) {
    forall e, p | Served(s, x, e, p) :: Served(s', x, e, p)
  }

  ghost predicate AllServed(s: State, x: Id, e: Id, ps: set<Id>) {
    forall p | p in ps :: Served(s, x, e, p)
  }

  lemma ServedMore(s: State, s': State, x: Id, e: Id, ps: set<Id>, p: Id)
    requires AllServed(s, x, e, ps) && StillServed(s, s', x) && Served(s', x, e, p)
    ensures AllServed(s', x, e, ps + {p})
  {
  }

  lemma StillServedTwice(s: State, s1: State, s2: State, x: Id)
    requires StillServed(s, s1, x) && StillServed(s1, s2, x)
    ensures StillServed(s, s2, x)
  {
  }

  lemma ServedStays(s: State, s': State, x: Id)
    requires x in s.txs ==> x in s'.txs
    requires x in s.txs ==> forall d | d in s.txs[x].created :: d in s'.txs[x].created && s'.txs[x].created[d] == s.txs[x].created[d]
    requires s.redis.entries <= s'.redis.entries
    ensures StillServed(s, s', x)
  {
    forall e, p | Served(s, x, e, p) ensures Served(s', x, e, p) {
      var d :| d in s.txs[x].created && s.txs[x].created[d] == Create(e, p) && Announced(s, d);
      var i :| 0 <= i < |s.redis.entries| && s.redis.entries[i].delivery == d;
      assert s'.redis.entries[i] == s.redis.entries[i];
    }
  }

  /** The row. */
  method InsertRow(c: Cluster, x: Id, p: Id, ghost batch: set<Id>, ghost done: set<Id>, ghost e: Id) returns (d: Id)
    requires c.Valid() && Busy(c.s, x, batch, done, e) && p in c.s.txs[x].todo && p in c.s.store.endpoints
    modifies c
    ensures c.Valid() && old(c.states) <= c.states && old(c.actions) <= c.actions
    ensures x in c.s.txs && c.s.txs[x] == old(c.s).txs[x].(
              todo := old(c.s).txs[x].todo - {p},
              created := old(c.s).txs[x].created[d := Create(e, p)],
              unpublished := Some(d))
    ensures StillServed(old(c.s), c.s, x)
  {
    RunIsWf(c.cfg, c.states, c.actions, |c.actions|);
    d := c.FreshId();
    c.Do(RelayStep(x, CreateDelivery(p, d)));
    ServedStays(old(c.s), c.s, x);
  }

  /** Its message. */
  method PublishRow(c: Cluster, x: Id)
    requires c.Valid() && RelayEnabled(c.s, x, Publish)
    modifies c
    ensures c.Valid() && old(c.states) <= c.states && old(c.actions) <= c.actions
    ensures x in c.s.txs && c.s.txs[x] == old(c.s).txs[x].(unpublished := None)
    ensures Announced(c.s, old(c.s).txs[x].unpublished.value)
    ensures StillServed(old(c.s), c.s, x)
  {
    c.Do(RelayStep(x, Publish));
    assert c.s.redis.entries[|old(c.s).redis.entries|].delivery == old(c.s).txs[x].unpublished.value;
    ServedStays(old(c.s), c.s, x);
  }

  /** One endpoint: one row, and then one message for it. */
  method FanOutTo(c: Cluster, x: Id, p: Id, ghost batch: set<Id>, ghost done: set<Id>, ghost e: Id, dies: Option<Point>)
    returns (r: Option<RelayEnd>)
    requires c.Valid() && Busy(c.s, x, batch, done, e) && p in c.s.txs[x].todo && e in batch
    modifies c
    ensures c.Valid() && old(c.states) <= c.states && old(c.actions) <= c.actions
    ensures r.None? ==>
              && Busy(c.s, x, batch, done, e) && c.s.txs[x].todo == old(c.s).txs[x].todo - {p}
              && c.s.txs[x].targets == old(c.s).txs[x].targets
              && Served(c.s, x, e, p) && StillServed(old(c.s), c.s, x)
    ensures r.Some? ==> x !in c.s.txs && !r.value.Committed?
    ensures r == Some(Died) ==> dies.Some?
    ensures r == Some(EndpointGone) ==> p !in c.s.store.endpoints
  {
    Turn(c, x);
    ServedStays(old(c.s), c.s, x);
    if dies == Some(BeforeInsert) {
      c.Do(RelayStep(x, RollBack));
      return Some(Died);
    }
    if p !in c.s.store.endpoints {
      c.Do(RelayStep(x, RollBack));
      return Some(EndpointGone);
    }
    var d := InsertRow(c, x, p, batch, done, e);
    ghost var inserted := c.s;
    Turn(c, x);
    ServedStays(inserted, c.s, x);
    if dies == Some(BeforePublish) {
      c.Do(RelayStep(x, RollBack));
      return Some(Died);
    }
    PublishRow(c, x);
    return None;
  }

  /** At some moment since `from`, this was the event's audience. */
  ghost predicate AudienceSince(states: seq<State>, from: nat, e: Id, found: set<Id>) {
    exists i | from <= i < |states| :: Audience(states[i].store, e, found)
  }

  lemma AudienceGrows(states: seq<State>, states': seq<State>, from: nat, e: Id, found: set<Id>)
    requires AudienceSince(states, from, e, found) && states <= states'
    ensures AudienceSince(states', from, e, found)
  {
    var i :| from <= i < |states| && Audience(states[i].store, e, found);
    assert states'[i] == states[i];
  }

  lemma ReadShows(s: State, x: Id, e: Id)
    requires RelayEnabled(s, x, ReadTargets(e))
    ensures var s' := RelayApply(s, x, ReadTargets(e));
            && x in s'.txs && e in s'.txs[x].targets && s'.txs[x].targets[e] == s'.txs[x].todo
            && Audience(s.store, e, s'.txs[x].todo) && s'.txs[x].todo <= s.store.endpoints.Keys
            && s'.store == s.store && s'.txs[x].created == s.txs[x].created && s'.redis == s.redis
  {
  }

  /** One outbox entry: every endpoint its query found gets its row and its message. `dies` says
      before which command the process dies, if before any. */
  method ProcessEntry(c: Cluster, x: Id, e: Id, ghost batch: set<Id>, ghost done: set<Id>, dies: Option<EntryDeath>)
    returns (r: Option<RelayEnd>)
    requires c.Valid() && Idle(c.s, x, batch, done) && e in batch - done
    modifies c
    ensures c.Valid() && old(c.states) <= c.states && old(c.actions) <= c.actions
    ensures r.None? ==>
              && Idle(c.s, x, batch, done + {e}) && e in c.s.txs[x].targets
              && AudienceSince(c.states, |old(c.states)| - 1, e, c.s.txs[x].targets[e])
              && AllServed(c.s, x, e, c.s.txs[x].targets[e])
              && StillServed(old(c.s), c.s, x)
    ensures r.Some? ==> x !in c.s.txs && !r.value.Committed?
    ensures r == Some(Died) ==> dies.Some?
    ensures r == Some(EndpointGone) ==> DeletedSince(c.states, |old(c.states)|, c.s)
  {
    ghost var from := |c.states|;
    Turn(c, x);
    ReadShows(c.s, x, e);
    c.Do(RelayStep(x, ReadTargets(e)));
    assert Audience(c.states[|c.states| - 1].store, e, c.s.txs[x].targets[e]);
    ghost var states := c.states;
    ServedStays(old(c.s), c.s, x);
    AllSeenNow(c.states, from, c.s, c.s.txs[x].todo);
    r := FanOutAll(c, x, e, batch, done, dies, from);
    if r.Some? { return; }
    AudienceGrows(states, c.states, from - 1, e, c.s.txs[x].targets[e]);
    if dies == Some(BeforeMark) {
      c.Do(RelayStep(x, RollBack));
      return Some(Died);
    }
    states := c.states;
    Finish(c, x, e, batch, done);
    AudienceGrows(states, c.states, from - 1, e, c.s.txs[x].targets[e]);
  }

  lemma AllSeenNow(states: seq<State>, from: nat, s: State, ps: set<Id>)
    requires from < |states| && states[|states| - 1] == s && ps <= s.store.endpoints.Keys
    ensures AllSeen(states, from, ps)
  {
    forall p | p in ps ensures SeenSince(states, from, p) {
      assert p in states[|states| - 1].store.endpoints;
    }
  }

  function PointAt(dies: Option<EntryDeath>, k: nat): Option<Point> {
    if dies.Some? && dies.value.AtEndpoint? && dies.value.endpoint == k then Some(dies.value.point) else None
  }

  function DeathIn(dies: Option<Death>, i: nat): Option<EntryDeath> {
    if dies.Some? && dies.value.InEntry? && dies.value.entry == i then Some(dies.value.at) else None
  }

  /** Every endpoint still to do. */
  method FanOutAll(c: Cluster, x: Id, e: Id, ghost batch: set<Id>, ghost done: set<Id>, dies: Option<EntryDeath>, ghost from: nat)
    returns (r: Option<RelayEnd>)
    requires c.Valid() && Busy(c.s, x, batch, done, e) && e in batch
    requires AllSeen(c.states, from, c.s.txs[x].todo)
    modifies c
    ensures c.Valid() && old(c.states) <= c.states && old(c.actions) <= c.actions
    ensures r.None? ==>
              && Busy(c.s, x, batch, done, e) && c.s.txs[x].todo == {}
              && c.s.txs[x].targets == old(c.s).txs[x].targets
              && AllServed(c.s, x, e, old(c.s).txs[x].todo)
              && StillServed(old(c.s), c.s, x)
    ensures r.Some? ==> x !in c.s.txs && !r.value.Committed?
    ensures r == Some(Died) ==> dies.Some?
    ensures r == Some(EndpointGone) ==> DeletedSince(c.states, from, c.s)
  {
    var todo := c.s.txs[x].todo;
    var k := 0;
    ghost var all := todo;
    while todo != {}
      invariant c.Valid() && old(c.states) <= c.states && old(c.actions) <= c.actions
      invariant Busy(c.s, x, batch, done, e) && c.s.txs[x].todo == todo
      invariant c.s.txs[x].targets == old(c.s).txs[x].targets
      invariant AllSeen(c.states, from, todo) && todo <= all
      invariant AllServed(c.s, x, e, all - todo)
      invariant StillServed(old(c.s), c.s, x)
      decreases todo
    {
      var p :| p in todo;
      ghost var states, before := c.states, c.s;
      r := FanOutTo(c, x, p, batch, done, e, PointAt(dies, k));
      AllSeenGrows(states, c.states, from, todo);
      if r.Some? {
        assert SeenSince(c.states, from, p);
        return;
      }
      ServedMore(before, c.s, x, e, all - todo, p);
      StillServedTwice(old(c.s), before, c.s, x);
      assert all - todo + {p} == all - (todo - {p});
      todo := todo - {p};
      k := k + 1;
    }
    assert all - todo == all;
    return None;
  }

  /** The entry is done. */
  method Finish(c: Cluster, x: Id, e: Id, ghost batch: set<Id>, ghost done: set<Id>)
    requires c.Valid() && Busy(c.s, x, batch, done, e) && c.s.txs[x].todo == {} && e in batch
    modifies c
    ensures c.Valid() && old(c.states) <= c.states && old(c.actions) <= c.actions
    ensures Idle(c.s, x, batch, done + {e}) && c.s.txs[x].targets == old(c.s).txs[x].targets
    ensures StillServed(old(c.s), c.s, x)
  {
    Turn(c, x);
    c.Do(RelayStep(x, MarkProcessed));
    ServedStays(old(c.s), c.s, x);
  }

  lemma CommitShows(s: State, x: Id)
    requires RelayEnabled(s, x, CommitFanOut) && TxMatches(s.store, s.ledger.ids, s.txs[x])
    ensures var s' := RelayApply(s, x, CommitFanOut);
            && x !in s'.txs
            && forall e | e in s.txs[x].batch ::
                 e in s'.store.outbox && s'.store.outbox[e].OutboxProcessed? && e in s'.ledger.fanout
  {
    assert s.txs[x].targets.Keys == s.txs[x].batch;
  }

  method CommitAll(c: Cluster, x: Id, ghost batch: set<Id>)
    requires c.Valid() && Idle(c.s, x, batch, batch)
    modifies c
    ensures c.Valid() && old(c.states) <= c.states && old(c.actions) <= c.actions
    ensures x !in c.s.txs
    ensures forall e | e in batch :: e in c.s.store.outbox && c.s.store.outbox[e].OutboxProcessed? && e in c.s.ledger.fanout
  {
    Turn(c, x);
    RunIsWf(c.cfg, c.states, c.actions, |c.actions|);
    RunFansOut(c.cfg, c.states, c.actions, |c.actions|);
    assert TxMatches(c.s.store, c.s.ledger.ids, c.s.txs[x]);
    CommitShows(c.s, x);
    c.Do(RelayStep(x, CommitFanOut));
  }

  /** One batch. `dies` gives the command before which the process dies, if it does; no
      other failure but an endpoint deleted under the transaction keeps it from committing. */
  method RunOnce(c: Cluster, limit: nat, dies: Option<Death>) returns (r: RelayEnd, x: Id, batch: set<Id>)
    requires c.Valid()
    modifies c
    ensures c.Valid() && old(c.states) <= c.states && old(c.actions) <= c.actions
    ensures ClaimsPending(old(c.s), batch, limit)
    ensures x !in c.s.txs
    ensures r.Committed? ==> forall e | e in batch ::
              e in c.s.store.outbox && c.s.store.outbox[e].OutboxProcessed? && e in c.s.ledger.fanout
    ensures r.Died? ==> dies.Some?
    ensures r.EndpointGone? ==> DeletedSince(c.states, |old(c.states)|, c.s)
  {
    x, batch := ClaimDue(c, limit);
    var left, i := batch, 0;
    while left != {}
      invariant c.Valid() && old(c.states) <= c.states && old(c.actions) <= c.actions
      invariant left <= batch && Idle(c.s, x, batch, batch - left)
      decreases left
    {
      var e :| e in left;
      ghost var from := |c.states|;
      var end := ProcessEntry(c, x, e, batch, batch - left, DeathIn(dies, i));
      if end.Some? {
        if end.value.EndpointGone? { DeletedEarlier(c.states, |old(c.states)|, from, c.s); }
        return end.value, x, batch;
      }
      assert batch - left + {e} == batch - (left - {e});
      left, i := left - {e}, i + 1;
    }
    assert batch - left == batch;
    if dies == Some(BeforeCommit) {
      c.Do(RelayStep(x, RollBack));
      return Died, x, batch;
    }
    CommitAll(c, x, batch);
    r := Committed;
  }

  lemma DeletedEarlier(states: seq<State>, from: nat, later: nat, s: State)
    requires from <= later && DeletedSince(states, later, s)
    ensures DeletedSince(states, from, s)
  {
    var p :| SeenSince(states, later, p) && p !in s.store.endpoints;
    assert SeenSince(states, from, p);
  }
}
