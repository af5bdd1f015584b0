/** The dispatcher and the reaper, command by command, with everybody else in between. */
module Coroutines {
  import opened Prelude
  import opened Protocol
  import opened Frames
  import opened Invariants
  import opened Clusters

  /** What the attempt service makes of a delivery it finds: the breaker and the receiver decide, and
      when a retry is due. */
  datatype Decision = DeferUntil(at: Time) | SendNow(ok: bool, at: Time)

  /** Where an exception, or the death of the process, can end a coroutine. */
  datatype Fault = SendFault | CommitFault | ScheduleFault | AckFault

  datatype Processing = Processed | Missing | Failed

  datatype Ending = Acked | LeftUnacked | Dropped | Raised

  function CommitOf(t: Id, decision: Decision): (a: Action)
    ensures a.WorkStep? && a.task == t
    ensures if decision.DeferUntil? then a.work.CommitDeferral? else a.work.CommitAttempt? && a.work.ok == decision.ok
    ensures a.work.at == decision.at
  {
    match decision
    case DeferUntil(at) => WorkStep(t, CommitDeferral(at))
    case SendNow(ok, at) => WorkStep(t, CommitAttempt(ok, at))
  }

  /** At some moment of the run since `from` the delivery was not in the store. */
  ghost predicate AbsentSince(states: seq<State>, from: nat, d: Id) {
    exists j | from <= j < |states| :: d !in states[j].store.deliveries
  }

  ghost predicate DoneSince(actions: seq<Action>, from: nat, a: Action) {
    exists j | from <= j < |actions| :: actions[j] == a
  }

  lemma AbsentGrows(states: seq<State>, states': seq<State>, from: nat, d: Id)
    requires AbsentSince(states, from, d) && states <= states'
    ensures AbsentSince(states', from, d)
  {
    var j :| from <= j < |states| && d !in states[j].store.deliveries;
    assert states'[j] == states[j];
  }

  lemma DoneGrows(actions: seq<Action>, actions': seq<Action>, from: nat, a: Action)
    requires DoneSince(actions, from, a) && actions <= actions'
    ensures DoneSince(actions', from, a)
  {
    var j :| from <= j < |actions| && actions[j] == a;
    assert actions'[j] == actions[j];
  }

  /** Since `from`, this step committed a row of the delivery that asks for no retry. */
  ghost predicate FinalSince(states: seq<State>, actions: seq<Action>, from: nat, a: Action, d: Id)
    requires |states| == |actions| + 1
  {
    exists j | from <= j < |actions| :: actions[j] == a && LeavesNoRetry(states[j + 1], d)
  }

  predicate LeavesNoRetry(s: State, d: Id) {
    d in s.store.deliveries && !s.store.deliveries[d].state.Retrying?
  }

  /** What entitles coroutine `t` to acknowledge: its commit, and the scheduling of the retry if
      the commit left one. */
  ghost predicate Complete(states: seq<State>, actions: seq<Action>, from: nat, t: Id, decision: Decision, d: Id)
    requires |states| == |actions| + 1
  {
    || FinalSince(states, actions, from, CommitOf(t, decision), d)
    || (DoneSince(actions, from, CommitOf(t, decision)) && DoneSince(actions, from, WorkStep(t, ScheduleRetry)))
  }

  lemma FinalGrows(states: seq<State>, states': seq<State>, actions: seq<Action>, actions': seq<Action>,
                   from: nat, a: Action, d: Id)
    requires |states| == |actions| + 1 && |states'| == |actions'| + 1
    requires FinalSince(states, actions, from, a, d) && states <= states' && actions <= actions'
    ensures FinalSince(states', actions', from, a, d)
  {
    var j :| from <= j < |actions| && actions[j] == a && LeavesNoRetry(states[j + 1], d);
    assert actions'[j] == actions[j] && states'[j + 1] == states[j + 1];
  }

  lemma CompleteGrows(states: seq<State>, states': seq<State>, actions: seq<Action>, actions': seq<Action>,
                      from: nat, t: Id, decision: Decision, d: Id)
    requires |states| == |actions| + 1 && |states'| == |actions'| + 1
    requires Complete(states, actions, from, t, decision, d) && states <= states' && actions <= actions'
    ensures Complete(states', actions', from, t, decision, d)
  {
    if FinalSince(states, actions, from, CommitOf(t, decision), d) {
      FinalGrows(states, states', actions, actions', from, CommitOf(t, decision), d);
    } else {
      DoneGrows(actions, actions', from, CommitOf(t, decision));
      DoneGrows(actions, actions', from, WorkStep(t, ScheduleRetry));
    }
  }

  /** What a coroutine's caller may rely on across any stretch of its work. */
  ghost predicate Rely(s: State, s': State, mine: set<Actor>, t: Id) {
    Grows(s, s') && forall me | me in mine && me != Coroutine(t) :: Untouched(s, s', me)
  }

  /** One command of coroutine `t`. */
  method Command(c: Cluster, t: Id, w: WorkAction, mine: set<Actor>)
    requires c.Valid() && WorkEnabled(c.s, c.cfg, t, w)
    modifies c
    ensures c.Valid() && WorkEnabled(old(c.s), c.cfg, t, w) && c.s == WorkApply(old(c.s), c.cfg, t, w)
    ensures c.states == old(c.states) + [c.s] && c.actions == old(c.actions) + [WorkStep(t, w)]
    ensures Rely(old(c.s), c.s, mine, t)
  {
    ghost var before := c.s;
    c.Do(WorkStep(t, w));
    WorkGrows(before, c.cfg, t, w);
    forall me | me in mine && me != Coroutine(t) ensures Untouched(before, c.s, me) {
      UntouchedByWork(before, c.cfg, t, w, me);
    }
  }

  /** Everybody else's turn. */
  method Wait(c: Cluster, t: Id, mine: set<Actor>)
    requires c.Valid() && AtPhase(c.s, t) && Coroutine(t) in mine
    modifies c
    ensures c.Valid() && old(c.states) <= c.states && old(c.actions) <= c.actions
    ensures Rely(old(c.s), c.s, mine, t)
    ensures AtPhase(c.s, t) && c.s.tasks[t] == old(c.s).tasks[t] && TaskMessage(c.s, t) == TaskMessage(old(c.s), t)
  {
    c.Others(mine);
    assert Untouched(old(c.s), c.s, Coroutine(t));
  }

  /** The coroutine still holds its message. */
  ghost predicate Holds(s: State, s': State, t: Id)
    requires AtPhase(s, t)
  {
    && AtPhase(s', t) && TaskMessage(s', t) == TaskMessage(s, t)
    && s'.tasks[t].msg == s.tasks[t].msg && s'.tasks[t].role == s.tasks[t].role
  }

  /** How a lookup that found nothing ends. */
  ghost predicate Lost(s: State, s': State, t: Id)
    requires AtPhase(s, t)
  {
    if s.tasks[t].role.Dispatcher? then t !in s'.tasks else Holds(s, s', t) && s'.tasks[t].phase.Gone?
  }

  /** What an attempt, or a part of one, leaves behind when coroutine `t` started it in `s`. */
  ghost predicate Outcome(c: Cluster, s: State, t: Id, states: nat, actions: nat, decision: Decision,
                          faults: set<Fault>, r: Processing)
    requires AtPhase(s, t)
    reads c
  {
    match r
    case Processed =>
      && Holds(s, c.s, t) && |c.states| == |c.actions| + 1
      && if c.s.tasks[t].phase == MustSchedule(decision.at)
         then DoneSince(c.actions, actions, CommitOf(t, decision))
         else && c.s.tasks[t].phase.ReadyToAck? && c.s.tasks[t].msg in c.s.ledger.done
              && Complete(c.states, c.actions, actions, t, decision, TaskMessage(s, t).delivery)
    case Missing =>
      Lost(s, c.s, t) && AbsentSince(c.states, states, TaskMessage(s, t).delivery)
    case Failed =>
      && Holds(s, c.s, t) && !Acking(c.s.tasks[t].phase)
      && (faults == {} ==> AbsentSince(c.states, states, TaskMessage(s, t).delivery))
  }

  /** An attempt that leaves nothing to schedule committed a row that asks for no retry. */
  ghost predicate Finished(c: Cluster, s: State, t: Id, actions: nat, decision: Decision, r: Processing)
    requires AtPhase(s, t)
    reads c
  {
    r.Processed? && t in c.s.tasks && c.s.tasks[t].phase.ReadyToAck? ==>
      |c.states| == |c.actions| + 1
      && FinalSince(c.states, c.actions, actions, CommitOf(t, decision), TaskMessage(s, t).delivery)
  }

  lemma NotFoundLoses(s: State, cfg: Config, t: Id)
    requires WorkEnabled(s, cfg, t, WorkAction.NotFound)
    ensures Lost(s, WorkApply(s, cfg, t, WorkAction.NotFound), t)
  {
  }

  method RaiseNotFound(c: Cluster, t: Id, mine: set<Actor>)
    requires c.Valid() && WorkEnabled(c.s, c.cfg, t, WorkAction.NotFound)
    modifies c
    ensures c.Valid() && c.states == old(c.states) + [c.s] && old(c.actions) <= c.actions
    ensures Rely(old(c.s), c.s, mine, t) && Lost(old(c.s), c.s, t)
    ensures c.s.store.deliveries == old(c.s).store.deliveries
  {
    NotFoundLoses(c.s, c.cfg, t);
    WorkRows(c.s, c.cfg, t, WorkAction.NotFound);
    Command(c, t, WorkAction.NotFound, mine);
  }

  lemma PhaseAfter(s: State, cfg: Config, t: Id, w: WorkAction)
    requires WorkEnabled(s, cfg, t, w) && (w.BeginAttempt? || w.Request?)
    ensures var s' := WorkApply(s, cfg, t, w);
            Holds(s, s', t) && (if w.Request? then s'.tasks[t].phase.Requested? else s'.tasks[t].phase.Attempting?)
  {
  }

  /** Reading the row, and sending the request. */
  method Advance(c: Cluster, t: Id, w: WorkAction, mine: set<Actor>)
    requires c.Valid() && WorkEnabled(c.s, c.cfg, t, w) && (w.BeginAttempt? || w.Request?)
    modifies c
    ensures c.Valid() && old(c.states) <= c.states && |old(c.states)| < |c.states| && old(c.actions) <= c.actions
    ensures Rely(old(c.s), c.s, mine, t) && Holds(old(c.s), c.s, t)
    ensures if w.Request? then c.s.tasks[t].phase.Requested? else c.s.tasks[t].phase.Attempting?
  {
    PhaseAfter(c.s, c.cfg, t, w);
    Command(c, t, w, mine);
  }

  /** A query for the delivery and the rows it hangs on. */
  method LookUp(c: Cluster, t: Id, mine: set<Actor>) returns (found: bool)
    requires c.Valid() && AtPhase(c.s, t) && Coroutine(t) in mine
    requires c.s.tasks[t].phase.Read? || c.s.tasks[t].phase.Attempting?
    modifies c
    ensures c.Valid() && old(c.states) <= c.states && old(c.actions) <= c.actions
    ensures Rely(old(c.s), c.s, mine, t)
    ensures if found then Holds(old(c.s), c.s, t) && Known(c.s, t) && c.s.tasks[t] == old(c.s).tasks[t]
            else Lost(old(c.s), c.s, t) && AbsentSince(c.states, |old(c.states)|, TaskMessage(old(c.s), t).delivery)
  {
    Wait(c, t, mine);
    if Known(c.s, t) { return true; }
    RaiseNotFound(c, t, mine);
    assert TaskMessage(old(c.s), t).delivery !in c.states[|c.states| - 1].store.deliveries;
    return false;
  }

  /** The delivery row is read first, and then the event and the endpoint. */
  method Load(c: Cluster, t: Id, mine: set<Actor>) returns (found: bool)
    requires c.Valid() && AtPhase(c.s, t) && c.s.tasks[t].phase.Read? && Coroutine(t) in mine
    modifies c
    ensures c.Valid() && old(c.states) <= c.states && old(c.actions) <= c.actions
    ensures found ==> |old(c.states)| < |c.states|
    ensures Rely(old(c.s), c.s, mine, t)
    ensures if found then Holds(old(c.s), c.s, t) && c.s.tasks[t].phase.Attempting?
            else Lost(old(c.s), c.s, t) && AbsentSince(c.states, |old(c.states)|, TaskMessage(old(c.s), t).delivery)
  {
    found := LookUp(c, t, mine);
    if !found { return; }
    Advance(c, t, BeginAttempt, mine);
    found := LookUp(c, t, mine);
  }

  lemma CommitPhase(s: State, cfg: Config, t: Id, decision: Decision)
    requires WorkEnabled(s, cfg, t, CommitOf(t, decision).work)
    ensures var s' := WorkApply(s, cfg, t, CommitOf(t, decision).work);
            && Holds(s, s', t)
            && if s'.tasks[t].phase == MustSchedule(decision.at) then true
               else && s'.tasks[t].phase.ReadyToAck? && s'.tasks[t].msg in s'.ledger.done
                    && LeavesNoRetry(s', TaskMessage(s, t).delivery)
  {
  }

  /** The end of the transaction: it commits what was decided, or nothing. */
  method Commit(c: Cluster, t: Id, mine: set<Actor>, decision: Decision, faults: set<Fault>) returns (r: Processing)
    requires c.Valid() && AtPhase(c.s, t) && Coroutine(t) in mine
    requires if decision.SendNow? then c.s.tasks[t].phase.Requested? else c.s.tasks[t].phase.Attempting?
    modifies c
    ensures c.Valid() && old(c.states) <= c.states && old(c.actions) <= c.actions
    ensures Rely(old(c.s), c.s, mine, t)
    ensures !r.Missing? && Outcome(c, old(c.s), t, |old(c.states)| - 1, |old(c.actions)|, decision, faults, r)
    ensures Finished(c, old(c.s), t, |old(c.actions)|, decision, r)
  {
    Wait(c, t, mine);
    if SendFault in faults || CommitFault in faults {
      return Failed;
    }
    if !Known(c.s, t) {
      assert c.states[|c.states| - 1] == c.s;
      return Failed;
    }
    ghost var before := c.s;
    Command(c, t, CommitOf(t, decision).work, mine);
    CommitPhase(before, c.cfg, t, decision);
    assert c.actions[|c.actions| - 1] == CommitOf(t, decision) && c.states[|c.actions|] == c.s;
    return Processed;
  }

  /** The attempt service, seen from the stores: its transaction commits an attempt or a deferral,
      or commits nothing. */
  method Attempt(c: Cluster, t: Id, mine: set<Actor>, decision: Decision, faults: set<Fault>) returns (r: Processing)
    requires c.Valid() && AtPhase(c.s, t) && c.s.tasks[t].phase.Read? && Coroutine(t) in mine
    modifies c
    ensures c.Valid() && old(c.states) <= c.states && old(c.actions) <= c.actions
    ensures Rely(old(c.s), c.s, mine, t)
    ensures Outcome(c, old(c.s), t, |old(c.states)|, |old(c.actions)|, decision, faults, r)
    ensures Finished(c, old(c.s), t, |old(c.actions)|, decision, r)
  {
    var found := Load(c, t, mine);
    if !found { return Missing; }
    if decision.SendNow? {
      Advance(c, t, Request, mine);
    }
    r := Commit(c, t, mine, decision, faults);
  }

  /** One attempt on the delivery a message names, and the scheduling of its retry if it needs
      one. The message is ready to be acknowledged only when both are done. */
  method ProcessDeliveryMessage(c: Cluster, t: Id, mine: set<Actor>, decision: Decision, faults: set<Fault>)
    returns (r: Processing)
    requires c.Valid() && AtPhase(c.s, t) && c.s.tasks[t].phase.Read? && Coroutine(t) in mine
    modifies c
    ensures c.Valid() && old(c.states) <= c.states && old(c.actions) <= c.actions
    ensures Rely(old(c.s), c.s, mine, t)
    ensures Outcome(c, old(c.s), t, |old(c.states)|, |old(c.actions)|, decision, faults, r)
    ensures r.Processed? ==> c.s.tasks[t].phase.ReadyToAck? && |c.states| == |c.actions| + 1
    ensures r.Processed? ==>
              || Scheduled(c.s, TaskMessage(old(c.s), t), decision.at)
              || FinalSince(c.states, c.actions, |old(c.actions)|, CommitOf(t, decision), TaskMessage(old(c.s), t).delivery)
  {
    r := Attempt(c, t, mine, decision, faults);
    if !r.Processed? { return; }
    r := Schedule(c, t, mine, decision, faults, old(c.s), |old(c.states)|, |old(c.actions)|);
  }

  /** The retry set has this member, with this score. */
  predicate Scheduled(s: State, k: Message, at: Time) {
    k in s.redis.retry && s.redis.retry[k] == at
  }

  lemma ScheduleShows(s: State, cfg: Config, t: Id)
    requires WorkEnabled(s, cfg, t, ScheduleRetry)
    ensures var s' := WorkApply(s, cfg, t, ScheduleRetry);
            && Holds(s, s', t) && s'.tasks[t].phase.ReadyToAck? && s'.tasks[t].msg in s'.ledger.done
            && Scheduled(s', TaskMessage(s, t), s.tasks[t].phase.at)
  {
  }

  /** ZADD, if the commit left a retry. */
  method Schedule(c: Cluster, t: Id, mine: set<Actor>, decision: Decision, faults: set<Fault>,
                  ghost s0: State, ghost n: nat, ghost a: nat) returns (r: Processing)
    requires c.Valid() && AtPhase(s0, t) && Coroutine(t) in mine
    requires Outcome(c, s0, t, n, a, decision, faults, Processed)
    requires c.s.tasks[t].phase.ReadyToAck? ==>
               |c.states| == |c.actions| + 1
               && FinalSince(c.states, c.actions, a, CommitOf(t, decision), TaskMessage(s0, t).delivery)
    modifies c
    ensures c.Valid() && old(c.states) <= c.states && old(c.actions) <= c.actions
    ensures Rely(old(c.s), c.s, mine, t)
    ensures Outcome(c, s0, t, n, a, decision, faults, r) && !r.Missing? && (r.Failed? ==> faults != {})
    ensures r.Processed? ==> c.s.tasks[t].phase.ReadyToAck? && |c.states| == |c.actions| + 1
    ensures r.Processed? ==>
              || Scheduled(c.s, TaskMessage(s0, t), decision.at)
              || FinalSince(c.states, c.actions, a, CommitOf(t, decision), TaskMessage(s0, t).delivery)
  {
    ghost var states, actions := c.states, c.actions;
    Wait(c, t, mine);
    if c.s.tasks[t].phase.ReadyToAck? {
      FinalGrows(states, c.states, actions, c.actions, a, CommitOf(t, decision), TaskMessage(s0, t).delivery);
      return Processed;
    }
    if ScheduleFault in faults { return Failed; }
    ghost var before := c.s;
    Command(c, t, ScheduleRetry, mine);
    ScheduleShows(before, c.cfg, t);
    DoneGrows(actions, c.actions, a, CommitOf(t, decision));
    assert c.actions[|c.actions| - 1] == WorkStep(t, ScheduleRetry);
    return Processed;
  }

  // ---------------------------------------------------------------- dispatcher

  /** The coroutines `ts` have just been handed the messages `ms`, in order. */
  ghost predicate HandedOut(s: State, ts: seq<Id>, ms: seq<nat>, role: Role) {
    && |ts| == |ms|
    && (forall i, j | 0 <= i < j < |ts| :: ts[i] != ts[j])
    && forall i | 0 <= i < |ts| :: AtPhase(s, ts[i]) && s.tasks[ts[i]] == Task(ms[i], role, Read)
  }

  /** Up to `count` never-delivered messages, one coroutine each, in stream order. */
  method ReadDeliveries(c: Cluster, count: nat) returns (ts: seq<Id>, ms: seq<nat>)
    requires c.Valid()
    modifies c
    ensures c.Valid() && old(c.states) <= c.states && old(c.actions) <= c.actions
    ensures HandedOut(c.s, ts, ms, Dispatcher)
    ensures |ms| == Min(count, |old(c.s).redis.entries| - old(c.s).redis.delivered)
    ensures forall i | 0 <= i < |ms| :: ms[i] == old(c.s).redis.delivered + i
    ensures forall i | 0 <= i < |ms| :: ms[i] in c.s.redis.pel && c.s.redis.pel[ms[i]] == old(c.s).clock
  {
    RunIsWf(c.cfg, c.states, c.actions, |c.actions|);
    ts, ms := [], [];
    while |ts| < count && c.s.redis.delivered < |c.s.redis.entries|
      invariant c.Valid() && old(c.states) <= c.states && old(c.actions) <= c.actions
      invariant c.s.redis.entries == old(c.s).redis.entries
      invariant c.s.redis.delivered == old(c.s).redis.delivered + |ts| <= |c.s.redis.entries|
      invariant |ts| <= count && HandedOut(c.s, ts, ms, Dispatcher) && c.s.clock == old(c.s).clock
      invariant forall i | 0 <= i < |ts| :: ts[i] in c.s.ledger.ids
      invariant forall i | 0 <= i < |ms| :: ms[i] == old(c.s).redis.delivered + i
      invariant forall i | 0 <= i < |ms| :: ms[i] in c.s.redis.pel && c.s.redis.pel[ms[i]] == old(c.s).clock
      decreases count - |ts|
    {
      var t := c.FreshId();
      ms := ms + [c.s.redis.delivered];
      c.Do(WorkStep(t, ReadNext));
      ts := ts + [t];
    }
  }

  /** The fate of a message in the hands of one coroutine. It is acknowledged only after its
      attempt, or its deferral, is committed and its retry scheduled. */
  ghost predicate Handled(c: Cluster, s: State, t: Id, states: nat, actions: nat, decision: Decision,
                          faults: set<Fault>, end: Ending)
    requires AtPhase(s, t)
    reads c
  {
    var d, m := TaskMessage(s, t).delivery, s.tasks[t].msg;
    match end
    case Acked =>
      && t !in c.s.tasks && m !in c.s.redis.pel && m in c.s.ledger.done
      && |c.states| == |c.actions| + 1 && Complete(c.states, c.actions, actions, t, decision, d)
    case Dropped => t !in c.s.tasks && m !in c.s.redis.pel && s.tasks[t].role.Reaper? && AbsentSince(c.states, states, d)
    case LeftUnacked => t !in c.s.tasks && (faults == {} ==> AbsentSince(c.states, states, d))
    case Raised => t !in c.s.tasks && s.tasks[t].role.Reaper? && AckFault in faults
  }

  method GiveUp(c: Cluster, t: Id, mine: set<Actor>)
    requires c.Valid() && AtPhase(c.s, t)
    modifies c
    ensures c.Valid() && old(c.states) <= c.states && old(c.actions) <= c.actions
    ensures Rely(old(c.s), c.s, mine, t) && t !in c.s.tasks
  {
    Command(c, t, Abort, mine);
  }

  method AckDelivery(c: Cluster, t: Id, mine: set<Actor>)
    requires c.Valid() && AtPhase(c.s, t) && Acking(c.s.tasks[t].phase)
    modifies c
    ensures c.Valid() && old(c.states) <= c.states && old(c.actions) <= c.actions
    ensures Rely(old(c.s), c.s, mine, t) && t !in c.s.tasks
    ensures c.s.redis.pel == old(c.s).redis.pel - {old(c.s).tasks[t].msg}
  {
    Command(c, t, Ack, mine);
  }

  /** One message of the dispatcher. The other coroutines of the same process are among the
      others. A delivery that is not found is left for the reaper, never acknowledged. */
  method HandleAndAck(c: Cluster, t: Id, decision: Decision, faults: set<Fault>) returns (end: Ending)
    requires c.Valid() && AtPhase(c.s, t) && c.s.tasks[t].phase.Read? && c.s.tasks[t].role.Dispatcher?
    modifies c
    ensures c.Valid() && old(c.states) <= c.states && old(c.actions) <= c.actions
    ensures Handled(c, old(c.s), t, |old(c.states)|, |old(c.actions)|, decision, faults, end)
    ensures end.Acked? || end.LeftUnacked?
  {
    var mine := {Coroutine(t)};
    var r := ProcessDeliveryMessage(c, t, mine, decision, faults);
    if r.Missing? { return LeftUnacked; }
    end := Finish(c, t, mine, decision, faults, r, old(c.s), |old(c.states)|, |old(c.actions)|);
  }

  /** After processing: acknowledge, or leave the message to the next sweep. */
  method Finish(c: Cluster, t: Id, mine: set<Actor>, ghost decision: Decision, faults: set<Fault>, r: Processing,
                ghost s0: State, ghost n: nat, ghost a: nat) returns (end: Ending)
    requires c.Valid() && AtPhase(s0, t) && Coroutine(t) in mine
    requires !r.Missing? && Outcome(c, s0, t, n, a, decision, faults, r) && (r.Processed? ==> c.s.tasks[t].phase.ReadyToAck?)
    modifies c
    ensures c.Valid() && old(c.states) <= c.states && old(c.actions) <= c.actions
    ensures Rely(old(c.s), c.s, mine, t)
    ensures Handled(c, s0, t, n, a, decision, faults, end) && (end.Acked? || end.LeftUnacked?)
  {
    ghost var states, actions := c.states, c.actions;
    if r.Failed? {
      GiveUp(c, t, mine);
      if faults == {} { AbsentGrows(states, c.states, n, TaskMessage(s0, t).delivery); }
      return LeftUnacked;
    }
    Wait(c, t, mine);
    if AckFault in faults {
      GiveUp(c, t, mine);
      return LeftUnacked;
    }
    AckDelivery(c, t, mine);
    CompleteGrows(states, c.states, actions, c.actions, a, t, decision, TaskMessage(s0, t).delivery);
    return Acked;
  }
}
