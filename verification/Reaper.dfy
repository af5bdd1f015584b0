/** The reaper's sweep: claim what has been idle too long, then process each claimed message with
    the dispatcher's own code. */
module Reapers {
  import opened Prelude
  import opened Protocol
  import opened Invariants
  import opened Frames
  import opened Clusters
  import opened Coroutines

  predicate Stale(s: State, minIdle: Time, m: nat) {
    m in s.redis.pel && s.clock - s.redis.pel[m] >= minIdle
  }

  /** XAUTOCLAIM looks at no more than this many pending entries for each one it may return. */
  const SCAN_FACTOR: nat := 10

  function PelBelow(s: State, n: nat): set<nat> { set m | m in s.redis.pel && m < n }

  /** The scan has looked at the pending entries below `n`, and `ms` are the stale ones. */
  ghost predicate Scanned(s: State, minIdle: Time, ms: seq<nat>, n: nat) {
    && (forall i, j | 0 <= i < j < |ms| :: ms[i] < ms[j])
    && (forall m: nat :: m in ms <==> m < n && m in s.redis.pel && s.redis.pel[m] + minIdle <= s.clock)
  }

  /** The stale messages in stream order, up to where the scan stops: at `count` of them, at the
      scan limit, or at the end. */
  ghost predicate FirstStale(s: State, minIdle: Time, ms: seq<nat>, count: nat) {
    exists n | 0 <= n <= s.redis.delivered ::
      && Scanned(s, minIdle, ms, n)
      && |ms| <= count && |PelBelow(s, n)| <= 10 * count
      && (n == s.redis.delivered || |ms| == count || |PelBelow(s, n)| == 10 * count)
  }

  /** From `n` on the pending list is as it was. */
  ghost predicate UnchangedFrom(s: State, s': State, n: nat) {
    && s'.clock == s.clock && s'.redis.entries == s.redis.entries && s'.redis.delivered == s.redis.delivered
    && (forall m: nat | m >= n :: m in s'.redis.pel <==> m in s.redis.pel)
    && (forall m: nat | m >= n && m in s.redis.pel :: s'.redis.pel[m] == s.redis.pel[m])
  }

  /** A claim starts the idle time of these messages again, and touches no other pending entry. */
  ghost predicate Reclaimed(s: State, s': State, ms: seq<nat>) {
    && s'.clock == s.clock
    && (forall m :: m in s'.redis.pel <==> m in s.redis.pel)
    && (forall m | m in s.redis.pel :: s'.redis.pel[m] == if m in ms then s.clock else s.redis.pel[m])
  }

  lemma ReclaimedMore(s: State, s1: State, s2: State, ms: seq<nat>, more: seq<nat>)
    requires Reclaimed(s, s1, ms) && Reclaimed(s1, s2, more)
    ensures Reclaimed(s, s2, ms + more)
  {
  }

  lemma ScanOne(s: State, minIdle: Time, ms: seq<nat>, n: nat)
    requires Scanned(s, minIdle, ms, n)
    ensures Scanned(s, minIdle, if Stale(s, minIdle, n) then ms + [n] else ms, n + 1)
    ensures |PelBelow(s, n + 1)| == |PelBelow(s, n)| + (if n in s.redis.pel then 1 else 0)
  {
    assert PelBelow(s, n + 1) == PelBelow(s, n) + (if n in s.redis.pel then {n} else {});
    if Stale(s, minIdle, n) {
      var ms' := ms + [n];
      assert forall i | 0 <= i < |ms| :: ms[i] in ms && ms'[i] == ms[i];
      assert forall m: nat :: m in ms' <==> m in ms || m == n;
    }
  }

  /** The scan that started in `s` has got to entry `n`: it has claimed `ms`, for `ts`. */
  ghost predicate Claiming(s: State, s': State, minIdle: Time, ts: seq<Id>, ms: seq<nat>, n: nat) {
    && n <= s'.redis.delivered <= |s'.redis.entries| && s'.redis.entries == s.redis.entries
    && Scanned(s, minIdle, ms, n) && UnchangedFrom(s, s', n) && Reclaimed(s, s', ms)
    && HandedOut(s', ts, ms, Reaper) && (forall i | 0 <= i < |ts| :: ts[i] in s'.ledger.ids)
  }

  /** XCLAIM of one stale entry. */
  method ClaimOne(c: Cluster, ts: seq<Id>, ms: seq<nat>, m: nat) returns (t: Id)
    requires c.Valid() && HandedOut(c.s, ts, ms, Reaper) && m < c.s.redis.delivered <= |c.s.redis.entries|
    requires Stale(c.s, c.cfg.minIdle, m) && forall i | 0 <= i < |ts| :: ts[i] in c.s.ledger.ids
    modifies c
    ensures c.Valid() && old(c.states) <= c.states && old(c.actions) <= c.actions
    ensures HandedOut(c.s, ts + [t], ms + [m], Reaper) && t in c.s.ledger.ids && old(c.s).ledger.ids <= c.s.ledger.ids
    ensures UnchangedFrom(old(c.s), c.s, m + 1) && Reclaimed(old(c.s), c.s, [m])
  {
    t := c.FreshId();
    c.Do(WorkStep(t, ClaimStale(m)));
  }

  /** One more entry of the pending list. */
  method ClaimIfStale(c: Cluster, ghost s0: State, ts: seq<Id>, ms: seq<nat>, m: nat) returns (ts': seq<Id>, ms': seq<nat>)
    requires c.Valid() && Claiming(s0, c.s, c.cfg.minIdle, ts, ms, m) && m < c.s.redis.delivered
    modifies c
    ensures c.Valid() && old(c.states) <= c.states && old(c.actions) <= c.actions
    ensures Claiming(s0, c.s, c.cfg.minIdle, ts', ms', m + 1) && c.s.redis.delivered == old(c.s).redis.delivered
    ensures |ms| <= |ms'| <= |ms| + 1
  {
    ts', ms' := ts, ms;
    ScanOne(s0, c.cfg.minIdle, ms, m);
    if Stale(c.s, c.cfg.minIdle, m) {
      var t := ClaimOne(c, ts, ms, m);
      ts', ms' := ts + [t], ms + [m];
      ReclaimedMore(s0, old(c.s), c.s, ms, [m]);
    }
  }

  /** XAUTOCLAIM, from the start of the stream. */
  method ClaimStaleDeliveries(c: Cluster, count: nat) returns (ts: seq<Id>, ms: seq<nat>)
    requires c.Valid()
    modifies c
    ensures c.Valid() && old(c.states) <= c.states && old(c.actions) <= c.actions
    ensures HandedOut(c.s, ts, ms, Reaper)
    ensures FirstStale(old(c.s), c.cfg.minIdle, ms, count)
    ensures Reclaimed(old(c.s), c.s, ms)
    ensures c.s.redis.entries == old(c.s).redis.entries && forall m | m in ms :: m < c.s.redis.delivered
  {
    RunIsWf(c.cfg, c.states, c.actions, |c.actions|);
    ts, ms := [], [];
    var m, examined := 0, 0;
    assert PelBelow(c.s, 0) == {};
    while m < c.s.redis.delivered && |ms| < count && examined < SCAN_FACTOR * count
      invariant c.Valid() && old(c.states) <= c.states && old(c.actions) <= c.actions
      invariant Claiming(old(c.s), c.s, c.cfg.minIdle, ts, ms, m) && |ms| <= count
      invariant c.s.redis.delivered == old(c.s).redis.delivered
      invariant examined == |PelBelow(old(c.s), m)| <= SCAN_FACTOR * count
      decreases c.s.redis.delivered - m
    {
      ScanOne(old(c.s), c.cfg.minIdle, ms, m);
      if m in c.s.redis.pel { examined := examined + 1; }
      ts, ms := ClaimIfStale(c, old(c.s), ts, ms, m);
      m := m + 1;
    }
  }

  // ---------------------------------------------------------------- the sweep

  /** What the breaker, the receiver and fate have in store for one claimed message. */
  datatype Plan = Plan(decision: Decision, faults: set<Fault>)

  /** What stays true of a handled message, whatever the others do afterwards. */
  ghost predicate Fate(states: seq<State>, s: State, n: nat, d: Id, m: nat, plan: Plan, end: Ending) {
    match end
    case Acked => m in s.ledger.done && m !in s.redis.pel
    case Dropped => AbsentSince(states, n, d) && m !in s.redis.pel
    case LeftUnacked => plan.faults == {} ==> AbsentSince(states, n, d)
    case Raised => AckFault in plan.faults
  }

  /** Only here: a delivery that is still missing after all that time is given up for good. */
  method DropMissing(c: Cluster, t: Id, mine: set<Actor>, faults: set<Fault>) returns (end: Ending)
    requires c.Valid() && AtPhase(c.s, t) && c.s.tasks[t].phase.Gone? && Coroutine(t) in mine
    modifies c
    ensures c.Valid() && old(c.states) <= c.states && old(c.actions) <= c.actions
    ensures Rely(old(c.s), c.s, mine, t) && t !in c.s.tasks
    ensures if AckFault in faults then end == Raised else end == Dropped && old(c.s).tasks[t].msg !in c.s.redis.pel
  {
    Wait(c, t, mine);
    if AckFault in faults {
      GiveUp(c, t, mine);
      return Raised;
    }
    AckDelivery(c, t, mine);
    return Dropped;
  }

  method DropMissed(c: Cluster, t: Id, mine: set<Actor>, plan: Plan, ghost s0: State, ghost n: nat, ghost a: nat)
    returns (end: Ending)
    requires c.Valid() && AtPhase(s0, t) && s0.tasks[t].role.Reaper? && Coroutine(t) in mine
    requires Outcome(c, s0, t, n, a, plan.decision, plan.faults, Missing)
    modifies c
    ensures c.Valid() && old(c.states) <= c.states && old(c.actions) <= c.actions
    ensures Rely(old(c.s), c.s, mine, t)
    ensures Handled(c, s0, t, n, a, plan.decision, plan.faults, end)
  {
    ghost var states := c.states;
    end := DropMissing(c, t, mine, plan.faults);
    AbsentGrows(states, c.states, n, TaskMessage(s0, t).delivery);
  }

  /** One claimed message: like the dispatcher, except that a missing delivery is dropped. */
  method ReprocessAndAck(c: Cluster, t: Id, mine: set<Actor>, plan: Plan) returns (end: Ending)
    requires c.Valid() && AtPhase(c.s, t) && c.s.tasks[t].phase.Read? && c.s.tasks[t].role.Reaper?
    requires Coroutine(t) in mine
    modifies c
    ensures c.Valid() && old(c.states) <= c.states && old(c.actions) <= c.actions
    ensures Rely(old(c.s), c.s, mine, t)
    ensures Handled(c, old(c.s), t, |old(c.states)|, |old(c.actions)|, plan.decision, plan.faults, end)
  {
    var r := ProcessDeliveryMessage(c, t, mine, plan.decision, plan.faults);
    if r.Missing? {
      end := DropMissed(c, t, mine, plan, old(c.s), |old(c.states)|, |old(c.actions)|);
    } else {
      end := Finish(c, t, mine, plan.decision, plan.faults, r, old(c.s), |old(c.states)|, |old(c.actions)|);
    }
  }

  /** The claimed messages not reached yet are as they were claimed. */
  ghost predicate Untried(s: State, ts: seq<Id>, ms: seq<nat>, from: nat) {
    && |ts| == |ms|
    && (forall i | from <= i < |ts| :: AtPhase(s, ts[i]) && s.tasks[ts[i]] == Task(ms[i], Reaper, Read))
    && (forall i | 0 <= i < from && i < |ts| :: ts[i] !in s.tasks)
  }

  lemma UntriedNext(s: State, s': State, mine: set<Actor>, ts: seq<Id>, ms: seq<nat>, i: nat)
    requires i < |ts| && Untried(s, ts, ms, i) && Rely(s, s', mine, ts[i]) && ts[i] !in s'.tasks
    requires forall j | 0 <= j < |ts| :: Coroutine(ts[j]) in mine
    requires forall j, k | 0 <= j < k < |ts| :: ts[j] != ts[k]
    ensures Untried(s', ts, ms, i + 1)
  {
    forall j | 0 <= j < |ts| && j != i ensures Untouched(s, s', Coroutine(ts[j])) {
      assert Coroutine(ts[j]) in mine && ts[j] != ts[i];
    }
  }

  /** The fate of the first messages of a sweep. */
  ghost predicate Fates(states: seq<State>, s: State, n: nat, entries: seq<Message>, ms: seq<nat>,
                        plans: seq<Plan>, ends: seq<Ending>)
    requires |ends| <= |ms| && |ends| <= |plans|
    requires forall i | 0 <= i < |ms| :: ms[i] < |entries|
  {
    forall i | 0 <= i < |ends| :: Fate(states, s, n, entries[ms[i]].delivery, ms[i], plans[i], ends[i])
  }

  lemma FateStays(states: seq<State>, states': seq<State>, s: State, s': State, n: nat, d: Id, m: nat,
                  plan: Plan, end: Ending)
    requires Fate(states, s, n, d, m, plan, end) && states <= states' && Grows(s, s') && m < s.redis.delivered
    ensures Fate(states', s', n, d, m, plan, end)
  {
    if AbsentSince(states, n, d) { AbsentGrows(states, states', n, d); }
  }

  lemma FatesStay(states: seq<State>, states': seq<State>, s: State, s': State, n: nat,
                  entries: seq<Message>, ms: seq<nat>, plans: seq<Plan>, ends: seq<Ending>)
    requires |ends| <= |ms| && |ends| <= |plans|
    requires forall i | 0 <= i < |ms| :: ms[i] < |entries| && ms[i] < s.redis.delivered
    requires Fates(states, s, n, entries, ms, plans, ends) && states <= states' && Grows(s, s')
    ensures Fates(states', s', n, entries, ms, plans, ends)
  {
    forall i | 0 <= i < |ends| ensures Fate(states', s', n, entries[ms[i]].delivery, ms[i], plans[i], ends[i]) {
      FateStays(states, states', s, s', n, entries[ms[i]].delivery, ms[i], plans[i], ends[i]);
    }
  }

  lemma HandledIsFate(c: Cluster, s: State, t: Id, n: nat, later: nat, actions: nat, plan: Plan, end: Ending)
    requires AtPhase(s, t) && n <= later
    requires Handled(c, s, t, later, actions, plan.decision, plan.faults, end)
    ensures Fate(c.states, c.s, n, TaskMessage(s, t).delivery, s.tasks[t].msg, plan, end)
  {
  }

  /** The process dies holding the rest of its claims. */
  method AbandonRest(c: Cluster, ghost mine: set<Actor>, ts: seq<Id>, ms: seq<nat>, from: nat)
    requires c.Valid() && from <= |ts| && Untried(c.s, ts, ms, from)
    requires forall j | 0 <= j < |ts| :: Coroutine(ts[j]) in mine
    requires forall j, k | 0 <= j < k < |ts| :: ts[j] != ts[k]
    modifies c
    ensures c.Valid() && old(c.states) <= c.states && old(c.actions) <= c.actions && Grows(old(c.s), c.s)
    ensures Untried(c.s, ts, ms, |ts|)
  {
    for i := from to |ts|
      invariant c.Valid() && old(c.states) <= c.states && old(c.actions) <= c.actions && Grows(old(c.s), c.s)
      invariant Untried(c.s, ts, ms, i)
    {
      ghost var before := c.s;
      c.Do(WorkStep(ts[i], Abort));
      AbortRely(before, c.cfg, ts[i], mine);
      UntriedNext(before, c.s, mine, ts, ms, i);
    }
  }

  lemma AbortRely(s: State, cfg: Config, t: Id, mine: set<Actor>)
    requires WorkEnabled(s, cfg, t, Abort)
    ensures Rely(s, WorkApply(s, cfg, t, Abort), mine, t) && t !in WorkApply(s, cfg, t, Abort).tasks
  {
    WorkGrows(s, cfg, t, Abort);
    forall me | me in mine && me != Coroutine(t) ensures Untouched(s, WorkApply(s, cfg, t, Abort), me) {
      UntouchedByWork(s, cfg, t, Abort, me);
    }
  }

  /** The next message of a sweep that started with run length `n` and stream `entries`. */
  method SweepOne(c: Cluster, mine: set<Actor>, ts: seq<Id>, ms: seq<nat>, plans: seq<Plan>, ends: seq<Ending>,
                  ghost n: nat, ghost entries: seq<Message>) returns (end: Ending)
    requires c.Valid() && |ends| < |ts| == |ms| <= |plans| && n <= |c.states| && entries <= c.s.redis.entries
    requires forall i | 0 <= i < |ms| :: ms[i] < |entries| && ms[i] < c.s.redis.delivered
    requires forall j | 0 <= j < |ts| :: Coroutine(ts[j]) in mine
    requires forall j, k | 0 <= j < k < |ts| :: ts[j] != ts[k]
    requires Untried(c.s, ts, ms, |ends|)
    requires Fates(c.states, c.s, n, entries, ms, plans, ends)
    modifies c
    ensures c.Valid() && old(c.states) <= c.states && old(c.actions) <= c.actions && Grows(old(c.s), c.s)
    ensures Untried(c.s, ts, ms, |ends| + 1)
    ensures Fates(c.states, c.s, n, entries, ms, plans, ends + [end])
  {
    ghost var i := |ends|;
    ghost var before, states, acts := c.s, c.states, |c.actions|;
    end := ReprocessAndAck(c, ts[|ends|], mine, plans[|ends|]);
    UntriedNext(before, c.s, mine, ts, ms, i);
    FatesStay(states, c.states, before, c.s, n, entries, ms, plans, ends);
    HandledIsFate(c, before, ts[i], n, |states|, acts, plans[i], end);
  }

  /** The messages just claimed, one after the other. */
  method Sweep(c: Cluster, ts: seq<Id>, ms: seq<nat>, plans: seq<Plan>) returns (ends: seq<Ending>)
    requires c.Valid() && |plans| >= |ms| && HandedOut(c.s, ts, ms, Reaper)
    requires forall i | 0 <= i < |ms| :: ms[i] < c.s.redis.delivered && ms[i] < |c.s.redis.entries|
    modifies c
    ensures c.Valid() && old(c.states) <= c.states && old(c.actions) <= c.actions
    ensures forall t | t in ts :: t !in c.s.tasks
    ensures |ends| <= |ms| && (|ends| < |ms| ==> ends != [] && ends[|ends| - 1] == Raised)
    ensures Fates(c.states, c.s, |old(c.states)|, old(c.s).redis.entries, ms, plans, ends)
  {
    ends := [];
    ghost var n, entries := |c.states|, c.s.redis.entries;
    var mine := set i | 0 <= i < |ts| :: Coroutine(ts[i]);
    for i := 0 to |ts|
      invariant c.Valid() && old(c.states) <= c.states && old(c.actions) <= c.actions
      invariant entries <= c.s.redis.entries && forall k | 0 <= k < |ms| :: ms[k] < c.s.redis.delivered
      invariant |ends| == i && (forall e | e in ends :: e != Raised)
      invariant Untried(c.s, ts, ms, i)
      invariant Fates(c.states, c.s, n, entries, ms, plans, ends)
    {
      var end := SweepOne(c, mine, ts, ms, plans, ends, n, entries);
      ends := ends + [end];
      if end.Raised? {
        ghost var states, before := c.states, c.s;
        AbandonRest(c, mine, ts, ms, i + 1);
        FatesStay(states, c.states, before, c.s, n, entries, ms, plans, ends);
        return;
      }
    }
  }

  lemma FatesFrom(states: seq<State>, s: State, n: nat, later: nat, entries: seq<Message>, ms: seq<nat>,
                  plans: seq<Plan>, ends: seq<Ending>)
    requires |ends| <= |ms| && |ends| <= |plans| && n <= later
    requires forall i | 0 <= i < |ms| :: ms[i] < |entries|
    requires Fates(states, s, later, entries, ms, plans, ends)
    ensures Fates(states, s, n, entries, ms, plans, ends)
  {
    forall i | 0 <= i < |ends| ensures Fate(states, s, n, entries[ms[i]].delivery, ms[i], plans[i], ends[i]) {
      assert Fate(states, s, later, entries[ms[i]].delivery, ms[i], plans[i], ends[i]);
    }
  }

  /** Every claimed message is processed and acknowledged, or dropped because its delivery is
      missing, or left in the pending list because something failed; and the sweep ends holding
      nothing. `plans` gives what happens to each. */
  method RunOnce(c: Cluster, count: nat, plans: seq<Plan>)
    returns (claimed: seq<nat>, ends: seq<Ending>, ghost holders: seq<Id>)
    requires c.Valid() && |plans| >= count
    modifies c
    ensures c.Valid() && old(c.states) <= c.states && old(c.actions) <= c.actions
    ensures FirstStale(old(c.s), c.cfg.minIdle, claimed, count)
    ensures |holders| == |claimed| && forall t | t in holders :: t !in c.s.tasks
    ensures |ends| <= |claimed| && (|ends| < |claimed| ==> ends != [] && ends[|ends| - 1] == Raised)
    ensures forall i | 0 <= i < |claimed| :: claimed[i] < |old(c.s).redis.entries|
    ensures Fates(c.states, c.s, |old(c.states)|, old(c.s).redis.entries, claimed, plans, ends)
  {
    var ts, ms := ClaimStaleDeliveries(c, count);
    assert forall k | 0 <= k < |ms| :: ms[k] in ms;
    ghost var later := |c.states|;
    ends := Sweep(c, ts, ms, plans);
    claimed, holders := ms, ts;
    FatesFrom(c.states, c.s, |old(c.states)|, later, old(c.s).redis.entries, ms, plans, ends);
  }
}
