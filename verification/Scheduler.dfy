/** The retry scheduler and the dead-letter replay: the two workers that hold something only in
    memory between two commands. */
module Schedulers {
  import opened Prelude
  import opened Deliveries
  import opened Protocol
  import opened Clusters

  // ---------------------------------------------------------------- pop due

  predicate IsDue(s: State, k: Message) { k in s.redis.retry && s.redis.retry[k] <= s.clock }

  /** Of these due members none has a lower score. */
  predicate Least(s: State, due: set<Message>, k: Message) {
    && k in due && IsDue(s, k)
    && forall j | j in due :: IsDue(s, j) && s.redis.retry[k] <= s.redis.retry[j]
  }

  lemma LeastExists(s: State, due: set<Message>) returns (k: Message)
    requires due != {} && forall j | j in due :: IsDue(s, j)
    ensures Least(s, due, k)
    decreases due
  {
    k :| k in due;
    if due != {k} {
      assert due - {k} != {};
      var j := LeastExists(s, due - {k});
      assert forall i | i in due :: i == k || i in due - {k};
      if s.redis.retry[j] <= s.redis.retry[k] { k := j; }
    }
  }

  ghost predicate Distinct(ms: seq<Message>) {
    forall i, j | 0 <= i < j < |ms| :: ms[i] != ms[j]
  }

  ghost predicate Below(s: State, popped: seq<Message>, rest: set<Message>) {
    forall k, j | k in popped && j in rest :: IsDue(s, k) && IsDue(s, j) && s.redis.retry[k] <= s.redis.retry[j]
  }

  /** The members whose score is not past the clock, the lowest scores first, at most `limit` of
      them: none with a later score, and one is left behind only when the limit is used up by
      members that score no higher. */
  ghost predicate PopsDue(s: State, popped: seq<Message>, limit: nat) {
    && |popped| <= limit && Distinct(popped)
    && (forall k | k in popped :: k in s.redis.retry && s.redis.retry[k] <= s.clock)
    && (forall j | j in s.redis.retry && s.redis.retry[j] <= s.clock && j !in popped ::
          |popped| == limit && forall k | k in popped :: s.redis.retry[k] <= s.redis.retry[j])
  }

  /** The set after the pop. */
  ghost predicate Without(s: State, s': State, popped: seq<Message>) {
    && s'.clock == s.clock && s'.redis.entries == s.redis.entries
    && (forall k :: k in s'.redis.retry <==> k in s.redis.retry && k !in popped)
    && (forall k | k in s'.redis.retry :: s'.redis.retry[k] == s.redis.retry[k])
  }

  lemma BelowStep(s: State, popped: seq<Message>, due: set<Message>, k: Message)
    requires Below(s, popped, due) && Least(s, due, k)
    ensures Below(s, popped + [k], due - {k})
  {
  }

  lemma LeastBefore(s: State, s': State, popped: seq<Message>, due: set<Message>, k: Message)
    requires Without(s, s', popped) && Least(s', due, k)
    ensures Least(s, due, k)
  {
    forall j | j in due ensures IsDue(s, j) && s.redis.retry[k] <= s.redis.retry[j] {
      assert IsDue(s', j);
    }
  }

  /** A due member with the lowest score moves from the set to the hand. */
  method PopLeast(c: Cluster, w: Id, due: set<Message>) returns (k: Message)
    requires c.Valid() && due != {} && forall j | j in due :: IsDue(c.s, j)
    modifies c
    ensures c.Valid() && old(c.actions) <= c.actions
    ensures Least(old(c.s), due, k) && Without(old(c.s), c.s, [k])
    ensures HandOf(c.s, w) == HandOf(old(c.s), w) + [k]
  {
    ghost var least := LeastExists(c.s, due);
    k :| k in due && Least(c.s, due, k);
    c.Do(SchedulerStep(w, PopDue(k)));
  }

  lemma WithoutMore(s: State, s1: State, s2: State, popped: seq<Message>, k: Message)
    requires Without(s, s1, popped) && Without(s1, s2, [k])
    ensures Without(s, s2, popped + [k])
  {
    assert forall j :: j in popped + [k] <==> j in popped || j == k;
  }

  /** The script: read and remove in one command. */
  method PopDueRetries(c: Cluster, w: Id, limit: nat) returns (popped: seq<Message>)
    requires c.Valid() && HandOf(c.s, w) == []
    modifies c
    ensures c.Valid() && old(c.actions) <= c.actions
    ensures PopsDue(old(c.s), popped, limit) && Without(old(c.s), c.s, popped)
    ensures HandOf(c.s, w) == popped
  {
    popped := [];
    var due := set k | k in c.s.redis.retry && IsDue(c.s, k);
    while |popped| < limit && due != {}
      invariant c.Valid() && old(c.actions) <= c.actions
      invariant |popped| <= limit && Distinct(popped)
      invariant Without(old(c.s), c.s, popped) && HandOf(c.s, w) == popped
      invariant forall k :: k in due <==> IsDue(c.s, k)
      invariant forall k | k in popped :: IsDue(old(c.s), k)
      invariant Below(old(c.s), popped, due)
      decreases limit - |popped|
    {
      ghost var before := c.s;
      var k := PopLeast(c, w, due);
      LeastBefore(old(c.s), before, popped, due, k);
      WithoutMore(old(c.s), before, c.s, popped, k);
      BelowStep(old(c.s), popped, due, k);
      due := due - {k};
      popped := popped + [k];
    }
    PopEnds(old(c.s), c.s, popped, due, limit);
  }

  /** Whatever is due and not popped is still in the set, so the limit is used up. */
  lemma PopEnds(s: State, s': State, popped: seq<Message>, due: set<Message>, limit: nat)
    requires |popped| <= limit && Distinct(popped) && (|popped| == limit || due == {})
    requires Without(s, s', popped) && Below(s, popped, due)
    requires forall k :: k in due <==> IsDue(s', k)
    requires forall k | k in popped :: IsDue(s, k)
    ensures PopsDue(s, popped, limit)
  {
    forall j | j in s.redis.retry && s.redis.retry[j] <= s.clock && j !in popped
      ensures |popped| == limit && forall k | k in popped :: s.redis.retry[k] <= s.redis.retry[j]
    {
      assert IsDue(s', j);
    }
  }

  // ---------------------------------------------------------------- scheduler

  /** Each of these members was added to the stream after position `from`. */
  ghost predicate Requeued(entries: seq<Message>, from: nat, ms: seq<Message>) {
    forall m | m in ms :: m in entries[Min(from, |entries|)..]
  }

  lemma RequeuedGrows(entries: seq<Message>, entries': seq<Message>, from: nat, ms: seq<Message>)
    requires entries <= entries' && Requeued(entries, from, ms) && from <= |entries|
    ensures Requeued(entries', from, ms)
  {
    forall m | m in ms ensures m in entries'[from..] {
      var i :| 0 <= i < |entries[from..]| && entries[from..][i] == m;
      assert entries'[from..][i] == m;
    }
  }

  lemma RequeuedMore(entries: seq<Message>, from: nat, ms: seq<Message>, m: Message)
    requires Requeued(entries, from, ms) && from <= |entries|
    ensures Requeued(entries + [m], from, ms + [m])
  {
    RequeuedGrows(entries, entries + [m], from, ms);
    assert (entries + [m])[from..] == entries[from..] + [m];
  }

  /** One tick. `dies` is how many members it re-adds before its process dies, if it does. A tick
      that survives re-adds everything it popped; one that dies leaves the rest nowhere but in
      the account of crash windows. */
  method RunOnce(c: Cluster, w: Id, limit: nat, dies: Option<nat>) returns (fired: nat, ghost popped: seq<Message>)
    requires c.Valid() && HandOf(c.s, w) == []
    modifies c
    ensures c.Valid() && old(c.actions) <= c.actions
    ensures PopsDue(old(c.s), popped, limit)
    ensures |popped| < limit ==>
              forall k | k in old(c.s).redis.retry :: old(c.s).redis.retry[k] <= old(c.s).clock <==> k in popped
    ensures HandOf(c.s, w) == []
    ensures fired == if dies.Some? then Min(dies.value, |popped|) else |popped|
    ensures Requeued(c.s.redis.entries, |old(c.s).redis.entries|, popped[..fired])
    ensures forall i | fired <= i < |popped| :: Hazard(popped[i].delivery, SchedulerCrash) in c.s.ledger.hazards
  {
    var due := PopDueRetries(c, w, limit);
    popped := due;
    ghost var from := |c.s.redis.entries|;
    for i := 0 to |due|
      invariant c.Valid() && old(c.actions) <= c.actions
      invariant HandOf(c.s, w) == due[i..]
      invariant dies.Some? ==> i <= dies.value
      invariant from <= |c.s.redis.entries| && Requeued(c.s.redis.entries, from, due[..i])
    {
      ghost var before := c.s.redis.entries;
      c.Others({Scheduler(w)});
      RequeuedGrows(before, c.s.redis.entries, from, due[..i]);
      if dies == Some(i) {
        ghost var hand := HandOf(c.s, w);
        c.Do(SchedulerStep(w, CrashScheduler));
        assert forall k | 0 <= k < |hand| :: Hazard(hand[k].delivery, SchedulerCrash) in c.s.ledger.hazards;
        forall k | i <= k < |due| ensures Hazard(due[k].delivery, SchedulerCrash) in c.s.ledger.hazards {
          assert hand[k - i] == due[k];
        }
        return i, popped;
      }
      RequeuedMore(c.s.redis.entries, from, due[..i], due[i]);
      assert due[..i + 1] == due[..i] + [due[i]];
      c.Do(SchedulerStep(w, Requeue));
    }
    assert due[..|due|] == due;
    return |due|, popped;
  }

  // ---------------------------------------------------------------- replay

  datatype ReplayResult = NotFound | NotDead(state: DeliveryState) | RowGone | Replayed | DiedUncommitted | DiedUnpublished

  /** Where the process of a replay can die. */
  datatype ReplayDeath = BeforeCommit | BeforePublish

  /** A step since `from` committed a reset of this delivery, over whatever row was there then. */
  ghost predicate ResetSince(states: seq<State>, actions: seq<Action>, from: nat, d: Id)
    requires |states| == |actions| + 1
  {
    exists j | from <= j < |actions| :: ResetsAt(states, actions, j, d)
  }

  ghost predicate ResetsAt(states: seq<State>, actions: seq<Action>, j: nat, d: Id)
    requires |states| == |actions| + 1 && j < |actions|
  {
    && actions[j].ReplayStep? && actions[j].reset == CommitReset(d)
    && d in states[j].store.deliveries && d in states[j + 1].store.deliveries
    && FreshChain(states[j].store.deliveries[d], states[j + 1].store.deliveries[d])
  }

  /** The same delivery with its whole budget before it. */
  predicate FreshChain(before: Delivery, after: Delivery) {
    && after.eventId == before.eventId && after.endpointId == before.endpointId
    && after.state == Pending && after.attemptCount == 0 && after.nextRetryAt == None
  }

  lemma RequeuedEarlier(entries: seq<Message>, from: nat, later: nat, ms: seq<Message>)
    requires Requeued(entries, later, ms) && from <= later
    ensures Requeued(entries, from, ms)
  {
    forall m | m in ms ensures m in entries[Min(from, |entries|)..] {
      var i :| 0 <= i < |entries[Min(later, |entries|)..]| && entries[Min(later, |entries|)..][i] == m;
      assert entries[Min(from, |entries|)..][i + Min(later, |entries|) - Min(from, |entries|)] == m;
    }
  }

  lemma ResetSinceGrows(states: seq<State>, states': seq<State>, actions: seq<Action>, actions': seq<Action>, from: nat, d: Id)
    requires |states| == |actions| + 1 && |states'| == |actions'| + 1 && states <= states' && actions <= actions'
    requires ResetSince(states, actions, from, d)
    ensures ResetSince(states', actions', from, d)
  {
    var j :| from <= j < |actions| && ResetsAt(states, actions, j, d);
    assert states'[j] == states[j] && states'[j + 1] == states[j + 1] && actions'[j] == actions[j];
    assert ResetsAt(states', actions', j, d);
  }

  /** The row is read and checked, and the reset is committed later, with no lock in between; the
      stream hears of it after that. */
  method Replay(c: Cluster, d: Id, tenant: Id, dies: Option<ReplayDeath>) returns (r: ReplayResult)
    requires c.Valid()
    modifies c
    ensures c.Valid() && |c.states| == |c.actions| + 1 && old(c.states) <= c.states && old(c.actions) <= c.actions
    ensures r.NotFound? <==>
              || d !in old(c.s).store.deliveries
              || old(c.s).store.deliveries[d].eventId !in old(c.s).store.events
              || old(c.s).store.events[old(c.s).store.deliveries[d].eventId].tenant != tenant
    ensures r.NotDead? ==> r.state == old(c.s).store.deliveries[d].state && r.state != Dead
    ensures r.NotFound? || r.NotDead? ==> c.s == old(c.s)
    ensures r.RowGone? ==> d !in c.s.store.deliveries
    ensures r.RowGone? || r.Replayed? || r.DiedUncommitted? || r.DiedUnpublished? ==> old(c.s).store.deliveries[d].state.Dead?
    ensures r.Replayed? || r.DiedUnpublished? ==> ResetSince(c.states, c.actions, |old(c.actions)|, d)
    ensures r.Replayed? ==> Requeued(c.s.redis.entries, |old(c.s).redis.entries|, [Message(d, None)])
    ensures r.DiedUncommitted? ==> dies == Some(BeforeCommit)
    ensures r.DiedUnpublished? ==> dies == Some(BeforePublish) && Hazard(d, ReplayCrash) in c.s.ledger.hazards
  {
    if d !in c.s.store.deliveries {
      return ReplayResult.NotFound;
    }
    var event := c.s.store.deliveries[d].eventId;
    if event !in c.s.store.events || c.s.store.events[event].tenant != tenant {
      return ReplayResult.NotFound;
    }
    if !c.s.store.deliveries[d].state.Dead? {
      return NotDead(c.s.store.deliveries[d].state);
    }
    var w := BeginReset(c, d, tenant);
    if dies == Some(BeforeCommit) {
      c.Do(ReplayStep(w, GiveUpReset));
      return DiedUncommitted;
    }
    if d !in c.s.store.deliveries {
      c.Do(ReplayStep(w, GiveUpReset));
      return RowGone;
    }
    ghost var from := |c.s.redis.entries|;
    CommitTheReset(c, w, d);
    ghost var states, actions := c.states, c.actions;
    r := PublishTheReset(c, w, d, dies == Some(BeforePublish));
    ResetSinceGrows(states, c.states, actions, c.actions, |old(c.actions)|, d);
    if r.Replayed? { RequeuedEarlier(c.s.redis.entries, |old(c.s).redis.entries|, from, [Message(d, None)]); }
  }

  /** From the read on, with everybody else in between. */
  method BeginReset(c: Cluster, d: Id, tenant: Id) returns (w: Id)
    requires c.Valid() && d in c.s.store.deliveries && c.s.store.deliveries[d].state.Dead?
    requires c.s.store.deliveries[d].eventId in c.s.store.events
    requires c.s.store.events[c.s.store.deliveries[d].eventId].tenant == tenant
    modifies c
    ensures c.Valid() && old(c.states) <= c.states && old(c.actions) <= c.actions
    ensures w in c.s.reading && c.s.reading[w].delivery == d && old(c.s).redis.entries <= c.s.redis.entries
  {
    w := c.FreshId();
    c.Do(ReplayStep(w, ReadDead(d, tenant)));
    ghost var before := c.s;
    c.Others({Replayer(w)});
    assert Untouched(before, c.s, Replayer(w));
  }

  /** The commit. */
  method CommitTheReset(c: Cluster, w: Id, d: Id)
    requires c.Valid() && ReplayEnabled(c.s, w, CommitReset(d))
    modifies c
    ensures c.Valid() && |c.states| == |c.actions| + 1 && old(c.states) <= c.states && old(c.actions) <= c.actions
    ensures w in c.s.replaying && c.s.replaying[w] == d && c.s.redis.entries == old(c.s).redis.entries
    ensures ResetSince(c.states, c.actions, |old(c.actions)|, d)
  {
    ghost var j := |c.actions|;
    c.Do(ReplayStep(w, CommitReset(d)));
    assert ResetsAt(c.states, c.actions, j, d);
  }

  /** The XADD, unless the process dies first. */
  method PublishTheReset(c: Cluster, w: Id, d: Id, dies: bool) returns (r: ReplayResult)
    requires c.Valid() && w in c.s.replaying && c.s.replaying[w] == d
    modifies c
    ensures c.Valid() && |c.states| == |c.actions| + 1 && old(c.states) <= c.states && old(c.actions) <= c.actions
    ensures if dies then r.DiedUnpublished? && Hazard(d, ReplayCrash) in c.s.ledger.hazards
            else r.Replayed? && Requeued(c.s.redis.entries, |old(c.s).redis.entries|, [Message(d, None)])
  {
    c.Others({Replayer(w)});
    assert Untouched(old(c.s), c.s, Replayer(w));
    if dies {
      c.Do(ReplayStep(w, CrashReplay));
      return DiedUnpublished;
    }
    c.Do(ReplayStep(w, PublishReset));
    assert c.s.redis.entries[|c.s.redis.entries| - 1] == Message(d, None);
    return Replayed;
  }
}
