/** Idempotent ingest under races: any number of concurrent calls, each a few statements of its
    own transaction, against one unique index on (tenant, idempotency key). */
module Ingest {
  import opened Prelude

  // ---------------------------------------------------------------- state

  datatype Key = Key(tenant: Id, idempotencyKey: Id)

  /** What a caller sends and what a replayed key is compared on. */
  datatype Body = Body(eventType: Id, payload: Id)

  datatype Event = Event(key: Key, body: Body, correlationId: Option<Id>)

  datatype Result =
    | Accepted(id: Id, event: Event)
    | DifferingBody
    | NoRowFound

  /** Where a call stands. `Inserted` and `Staged` hold an event row nobody else can see. */
  datatype Phase =
    | Started
    | NotThere
    | Inserted(id: Id)
    | Staged(id: Id)
    | Conflicted
    | Finished(result: Result)
    | Aborted
  {
    predicate Holds() { Inserted? || Staged? }
  }

  datatype Call = Call(event: Event, phase: Phase)

  /** Committed event rows, committed outbox rows (by the event they name), and the calls. */
  datatype State = State(events: map<Id, Event>, outbox: seq<Id>, calls: map<Id, Call>, used: set<Id>)

  const INITIAL: State := State(map[], [], map[], {})

  datatype Action =
    | Arrive(call: Id, event: Event)
    | Look(call: Id, found: Option<Id>)
    | Insert(call: Id, id: Id)
    | Violate(call: Id)
    | CreateOutbox(call: Id)
    | Commit(call: Id)
    | LookAgain(call: Id, found: Option<Id>)
    | Crash(call: Id)

  // ---------------------------------------------------------------- the steps of a call

  predicate Has(s: State, key: Key) {
    exists e | e in s.events :: s.events[e].key == key
  }

  /** Another open transaction has inserted a row with this key: an insert waits for it. */
  predicate Blocked(s: State, c: Id, key: Key) {
    exists b | b in s.calls :: b != c && s.calls[b].phase.Holds() && s.calls[b].event.key == key
  }

  predicate At(s: State, c: Id, p: Phase) { c in s.calls && s.calls[c].phase == p }

  /** What a query on the key can return. */
  predicate Answers(s: State, key: Key, found: Option<Id>) {
    match found
    case Some(e) => e in s.events && s.events[e].key == key
    case None => !Has(s, key)
  }

  predicate Enabled(s: State, a: Action) {
    match a
    case Arrive(c, _) => c !in s.used
    case Look(c, found) => At(s, c, Started) && Answers(s, s.calls[c].event.key, found)
    case Insert(c, e) =>
      At(s, c, NotThere) && e !in s.used && !Has(s, s.calls[c].event.key) && !Blocked(s, c, s.calls[c].event.key)
    case Violate(c) => At(s, c, NotThere) && Has(s, s.calls[c].event.key)
    case CreateOutbox(c) => c in s.calls && s.calls[c].phase.Inserted?
    case Commit(c) => c in s.calls && s.calls[c].phase.Staged?
    case LookAgain(c, found) => At(s, c, Conflicted) && Answers(s, s.calls[c].event.key, found)
    case Crash(c) => c in s.calls && !s.calls[c].phase.Finished?
  }

  /** Same type and payload: the original event, untouched. Anything else is a conflict. */
  function Resolve(s: State, e: Id, sent: Event): Result
    requires e in s.events
  {
    if s.events[e].body == sent.body then Accepted(e, s.events[e]) else DifferingBody
  }

  function To(s: State, c: Id, p: Phase): State
    requires c in s.calls
  {
    s.(calls := s.calls[c := s.calls[c].(phase := p)])
  }

  function Apply(s: State, a: Action): State
    requires Enabled(s, a)
  {
    match a
    case Arrive(c, event) => s.(calls := s.calls[c := Call(event, Started)], used := s.used + {c})
    case Look(c, found) =>
      To(s, c, if found.Some? then Finished(Resolve(s, found.value, s.calls[c].event)) else NotThere)
    case Insert(c, e) => To(s, c, Inserted(e)).(used := s.used + {e})
    case Violate(c) => To(s, c, Conflicted)
    case CreateOutbox(c) => To(s, c, Staged(s.calls[c].phase.id))
    case Commit(c) =>
      var e, event := s.calls[c].phase.id, s.calls[c].event;
      To(s, c, Finished(Accepted(e, event))).(events := s.events[e := event], outbox := s.outbox + [e])
    case LookAgain(c, found) =>
      To(s, c, Finished(if found.Some? then Resolve(s, found.value, s.calls[c].event) else NoRowFound))
    case Crash(c) => To(s, c, Aborted)
  }

  ghost predicate IsRun(states: seq<State>, actions: seq<Action>) {
    && |states| == |actions| + 1
    && states[0] == INITIAL
    && forall i | 0 <= i < |actions| :: StepAt(states, actions, i)
  }

  ghost predicate StepAt(states: seq<State>, actions: seq<Action>, i: nat)
    requires |states| == |actions| + 1 && i < |actions|
  {
    Enabled(states[i], actions[i]) && states[i + 1] == Apply(states[i], actions[i])
  }

  // ---------------------------------------------------------------- the invariant

  ghost predicate OnePerKey(s: State) {
    forall d, e | d in s.events && e in s.events && s.events[d].key == s.events[e].key :: d == e
  }

  ghost predicate OneOutboxRowEach(s: State) {
    forall e: Id :: multiset(s.outbox)[e] == if e in s.events then 1 else 0
  }

  /** What each phase knows about the committed rows. */
  ghost predicate CallMatches(s: State, c: Id)
    requires c in s.calls
  {
    var key := s.calls[c].event.key;
    match s.calls[c].phase
    case Started => true
    case NotThere => true
    case Inserted(e) => e in s.used && e !in s.events && !Has(s, key)
    case Staged(e) => e in s.used && e !in s.events && !Has(s, key)
    case Conflicted => Has(s, key)
    case Aborted => true
    case Finished(r) => ResultMatches(s, s.calls[c].event, r)
  }

  ghost predicate ResultMatches(s: State, sent: Event, r: Result) {
    match r
    case Accepted(e, event) =>
      e in s.events && s.events[e] == event && event.key == sent.key && event.body == sent.body
    case DifferingBody => exists e | e in s.events :: s.events[e].key == sent.key && s.events[e].body != sent.body
    case NoRowFound => false
  }

  /** At most one open transaction holds a row for a key, and no two hold the same row. */
  ghost predicate HoldersApart(s: State) {
    forall b, c | b in s.calls && c in s.calls && b != c && s.calls[b].phase.Holds() && s.calls[c].phase.Holds() ::
      s.calls[b].event.key != s.calls[c].event.key && s.calls[b].phase.id != s.calls[c].phase.id
  }

  ghost predicate Inv(s: State) {
    && (forall c | c in s.calls :: c in s.used && CallMatches(s, c))
    && (forall e | e in s.events :: e in s.used)
    && OnePerKey(s) && OneOutboxRowEach(s) && HoldersApart(s)
  }

  /** A step that leaves the committed rows alone keeps what every other call knows. */
  lemma OthersKeep(s: State, s': State, c: Id)
    requires Inv(s) && s'.events == s.events && s.used <= s'.used
    requires s'.calls - {c} == s.calls - {c}
    ensures forall b | b in s'.calls && b != c :: b in s'.used && CallMatches(s', b)
  {
    forall b | b in s'.calls && b != c ensures b in s'.used && CallMatches(s', b) {
      assert b in s'.calls - {c};
      assert b in s.calls && s.calls[b] == s'.calls[b] by { assert (s.calls - {c})[b] == (s'.calls - {c})[b]; }
      assert CallMatches(s, b);
      assert forall key :: Has(s', key) == Has(s, key);
    }
  }

  lemma LocalFrame(s: State, a: Action)
    requires Enabled(s, a) && !a.Commit?
    ensures var s' := Apply(s, a);
            && s'.events == s.events && s'.outbox == s.outbox && s.used <= s'.used
            && s'.calls - {a.call} == s.calls - {a.call}
            && a.call in s'.calls
  {
  }

  lemma OwnCall(s: State, a: Action)
    requires Inv(s) && Enabled(s, a) && !a.Commit?
    ensures a.call in Apply(s, a).calls && a.call in Apply(s, a).used && CallMatches(Apply(s, a), a.call)
  {
    var s' := Apply(s, a);
    if a.call in s.calls { assert CallMatches(s, a.call); }
    assert forall key :: Has(s', key) == Has(s, key);
  }

  /** An insert waits for the other holders of its key, and draws a fresh row id. */
  lemma HoldersStep(s: State, a: Action)
    requires Inv(s) && Enabled(s, a)
    ensures HoldersApart(Apply(s, a))
  {
    var s' := Apply(s, a);
    forall b | b in s.calls && s.calls[b].phase.Holds() ensures s.calls[b].phase.id in s.used {
      assert CallMatches(s, b);
    }
  }

  lemma LocalStep(s: State, a: Action)
    requires Inv(s) && Enabled(s, a) && !a.Commit?
    ensures Inv(Apply(s, a))
  {
    LocalFrame(s, a);
    OthersKeep(s, Apply(s, a), a.call);
    OwnCall(s, a);
    HoldersStep(s, a);
  }

  /** A commit is seen by everybody, but the only key it adds is one nobody else holds. */
  lemma CommitStep(s: State, c: Id)
    requires Inv(s) && Enabled(s, Commit(c))
    ensures Inv(Apply(s, Commit(c)))
  {
    var s' := Apply(s, Commit(c));
    var e, event := s.calls[c].phase.id, s.calls[c].event;
    assert CallMatches(s, c);
    forall b | b in s'.calls ensures CallMatches(s', b) {
      if b != c { CommitSeen(s, c, b); }
    }
    assert multiset(s'.outbox) == multiset(s.outbox) + multiset{e};
  }

  lemma CommitSeen(s: State, c: Id, b: Id)
    requires Inv(s) && Enabled(s, Commit(c)) && b in s.calls && b != c
    ensures CallMatches(Apply(s, Commit(c)), b)
  {
    var s' := Apply(s, Commit(c));
    var e, event := s.calls[c].phase.id, s.calls[c].event;
    assert CallMatches(s, b) && CallMatches(s, c);
    assert forall key :: Has(s', key) <==> Has(s, key) || key == event.key by {
      assert s'.events[e] == event;
      assert forall d | d in s.events :: d in s'.events && s'.events[d] == s.events[d];
    }
    if s.calls[b].phase.Finished? {
      match s.calls[b].phase.result
      case DifferingBody =>
        var d :| d in s.events && s.events[d].key == s.calls[b].event.key && s.events[d].body != s.calls[b].event.body;
        assert d in s'.events && s'.events[d] == s.events[d];
      case _ =>
    }
  }

  lemma InvStep(s: State, a: Action)
    requires Inv(s) && Enabled(s, a)
    ensures Inv(Apply(s, a))
  {
    if a.Commit? { CommitStep(s, a.call); } else { LocalStep(s, a); }
  }

  lemma {:induction false} RunInv(states: seq<State>, actions: seq<Action>, i: nat)
    requires IsRun(states, actions) && i < |states|
    ensures Inv(states[i])
  {
    if i > 0 {
      RunInv(states, actions, i - 1);
      assert StepAt(states, actions, i - 1);
      InvStep(states[i - 1], actions[i - 1]);
    }
  }

  // ---------------------------------------------------------------- the theorems

  /** Over every interleaving: a key has at most one committed event, with exactly one outbox row;
      every successful call on a key returned that event, whatever call created it, and had sent
      its type and payload; a rejected call really conflicts with it; and the branch "conflict but
      no row" is never taken. */
  lemma IngestIsIdempotent(states: seq<State>, actions: seq<Action>, i: nat, c: Id)
    requires IsRun(states, actions) && i < |states|
    requires c in states[i].calls && states[i].calls[c].phase.Finished?
    ensures var s, sent, r := states[i], states[i].calls[c].event, states[i].calls[c].phase.result;
            exists e | e in s.events ::
              && s.events[e].key == sent.key
              && (forall d | d in s.events && s.events[d].key == sent.key :: d == e)
              && multiset(s.outbox)[e] == 1
              && r == if s.events[e].body == sent.body then Accepted(e, s.events[e]) else DifferingBody
  {
    RunInv(states, actions, i);
    var s, sent, r := states[i], states[i].calls[c].event, states[i].calls[c].phase.result;
    assert CallMatches(s, c);
    match r
    case Accepted(e, event) => assert multiset(s.outbox)[e] == 1;
    case DifferingBody =>
      var e :| e in s.events && s.events[e].key == sent.key && s.events[e].body != sent.body;
      assert multiset(s.outbox)[e] == 1;
  }

  /** So two successful calls on one key returned one event. */
  lemma SuccessesAgree(states: seq<State>, actions: seq<Action>, i: nat, b: Id, c: Id)
    requires IsRun(states, actions) && i < |states|
    requires b in states[i].calls && states[i].calls[b].phase.Finished? && states[i].calls[b].phase.result.Accepted?
    requires c in states[i].calls && states[i].calls[c].phase.Finished? && states[i].calls[c].phase.result.Accepted?
    requires states[i].calls[b].event.key == states[i].calls[c].event.key
    ensures states[i].calls[b].phase.result == states[i].calls[c].phase.result
    ensures states[i].calls[b].event.body == states[i].calls[c].event.body
  {
    IngestIsIdempotent(states, actions, i, b);
    IngestIsIdempotent(states, actions, i, c);
  }

  /** Committed events and outbox rows are never changed or removed, and a finished call stays
      finished with the same result. */
  lemma {:induction false} CommittedStays(states: seq<State>, actions: seq<Action>, i: nat, j: nat)
    requires IsRun(states, actions) && i <= j < |states|
    ensures forall e | e in states[i].events :: e in states[j].events && states[j].events[e] == states[i].events[e]
    ensures states[i].outbox <= states[j].outbox
    ensures forall c | c in states[i].calls && states[i].calls[c].phase.Finished? ::
              c in states[j].calls && states[j].calls[c] == states[i].calls[c]
    decreases j
  {
    if i < j {
      CommittedStays(states, actions, i, j - 1);
      assert StepAt(states, actions, j - 1);
      RunInv(states, actions, j - 1);
      StepGrows(states[j - 1], actions[j - 1]);
    }
  }

  lemma StepGrows(s: State, a: Action)
    requires Inv(s) && Enabled(s, a)
    ensures var s' := Apply(s, a);
            && (forall e | e in s.events :: e in s'.events && s'.events[e] == s.events[e])
            && s.outbox <= s'.outbox
            && (forall c | c in s.calls && s.calls[c].phase.Finished? :: c in s'.calls && s'.calls[c] == s.calls[c])
  {
    if a.call in s.calls { assert CallMatches(s, a.call); }
  }

  /** A call that did not succeed in creating an event changed nothing, at none of its steps. */
  lemma OnlyCreatorsWrite(states: seq<State>, actions: seq<Action>, i: nat, j: nat)
    requires IsRun(states, actions) && j < i < |states|
    requires actions[j].call in states[i].calls
    requires !(states[i].calls[actions[j].call].phase.Finished?
               && states[i].calls[actions[j].call].phase.result.Accepted?)
    ensures states[j + 1].events == states[j].events && states[j + 1].outbox == states[j].outbox
  {
    assert StepAt(states, actions, j);
    CommittedStays(states, actions, j + 1, i);
  }

  /** Some call arrived with exactly this event: key, type, payload and correlation id. */
  ghost predicate Sent(actions: seq<Action>, n: nat, event: Event)
    requires n <= |actions|
  {
    exists j, c | 0 <= j < n :: actions[j] == Arrive(c, event)
  }

  /** Nothing is made up on the way: every call works on the event it arrived with, and every
      committed event is one that some call sent. */
  lemma {:induction false} CommittedWasSent(states: seq<State>, actions: seq<Action>, i: nat)
    requires IsRun(states, actions) && i < |states|
    ensures forall c | c in states[i].calls :: Sent(actions, i, states[i].calls[c].event)
    ensures forall e | e in states[i].events :: Sent(actions, i, states[i].events[e])
  {
    if i > 0 {
      CommittedWasSent(states, actions, i - 1);
      var s, a := states[i - 1], actions[i - 1];
      assert StepAt(states, actions, i - 1);
      forall event | Sent(actions, i - 1, event) ensures Sent(actions, i, event) {}
      if a.Arrive? { assert Sent(actions, i, a.event); }
      forall c | c in states[i].calls ensures Sent(actions, i, states[i].calls[c].event) {
        if c in s.calls && !(a.Arrive? && a.call == c) { assert states[i].calls[c].event == s.calls[c].event; }
      }
    }
  }
}
