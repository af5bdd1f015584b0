/** The ingest service itself, statement by statement, with every other call in between. */
module IngestServices {
  import opened Prelude
  import opened Ingest

  lemma ExtendRun(states: seq<State>, actions: seq<Action>, a: Action)
    requires IsRun(states, actions) && Enabled(states[|actions|], a)
    ensures IsRun(states + [Apply(states[|actions|], a)], actions + [a])
  {
    var states', actions' := states + [Apply(states[|actions|], a)], actions + [a];
    forall i | 0 <= i < |actions'| ensures StepAt(states', actions', i) {
      if i < |actions| { assert StepAt(states, actions, i); }
    }
  }

  lemma OthersLeaveMyCall(s: State, a: Action, c: Id)
    requires Enabled(s, a) && a.call != c && c in s.calls && c in s.used
    ensures c in Apply(s, a).calls && Apply(s, a).calls[c] == s.calls[c] && c in Apply(s, a).used
  {
  }

  class Database {
    var s: State
    ghost var states: seq<State>
    ghost var actions: seq<Action>

    ghost predicate Valid()
      reads this
    {
      IsRun(states, actions) && states[|actions|] == s
    }

    constructor ()
      ensures Valid() && s == INITIAL
    {
      s, states, actions := INITIAL, [INITIAL], [];
    }

    method Do(a: Action)
      requires Valid() && Enabled(s, a)
      modifies this
      ensures Valid() && s == Apply(old(s), a)
      ensures states == old(states) + [s] && actions == old(actions) + [a]
    {
      ExtendRun(states, actions, a);
      s := Apply(s, a);
      states, actions := states + [s], actions + [a];
    }

    /** Every other call does whatever it can. */
    method Others(c: Id)
      requires Valid() && c in s.calls && c in s.used
      modifies this
      ensures Valid() && old(states) <= states && old(actions) <= actions
      ensures c in s.calls && s.calls[c] == old(s).calls[c] && c in s.used
    {
      var schedule: seq<Action> := *;
      for i := 0 to |schedule|
        invariant Valid() && old(states) <= states && old(actions) <= actions
        invariant c in s.calls && s.calls[c] == old(s).calls[c] && c in s.used
      {
        if Enabled(s, schedule[i]) && schedule[i].call != c {
          OthersLeaveMyCall(s, schedule[i], c);
          Do(schedule[i]);
        }
      }
    }

    method FreshId() returns (id: Id)
      ensures id !in s.used
    {
      ghost var top := FreshExists(s.used);
      assert top !in s.used;
      id :| id !in s.used;
    }

    /** SELECT ... WHERE tenant_id = AND idempotency_key =. */
    method GetByIdempotencyKey(key: Key) returns (found: Option<Id>)
      ensures Answers(s, key, found)
    {
      if Has(s, key) {
        var e :| e in s.events && s.events[e].key == key;
        found := Some(e);
      } else {
        found := None;
      }
    }

    /** One request. The result is missing only if the request died, or is still waiting for
        another transaction that holds its key. Otherwise it is the one committed event of the
        key if the body sent is that event's, and a conflict if not. */
    method Ingest(event: Event, dies: bool) returns (c: Id, result: Option<Result>)
      requires Valid()
      modifies this
      ensures Valid() && old(states) <= states && old(actions) <= actions
      ensures c in s.calls && s.calls[c].event == event
      ensures result.None? ==> dies || (At(s, c, NotThere) && Blocked(s, c, event.key))
      ensures result.Some? ==>
                && s.calls[c].phase == Finished(result.value)
                && exists e | e in s.events ::
                     && s.events[e].key == event.key
                     && (forall d | d in s.events && s.events[d].key == event.key :: d == e)
                     && multiset(s.outbox)[e] == 1
                     && result.value == if s.events[e].body == event.body then Accepted(e, s.events[e]) else DifferingBody
    {
      c := FreshId();
      Do(Arrive(c, event));
      Others(c);
      var existing := GetByIdempotencyKey(event.key);
      Do(Look(c, existing));
      if existing.None? {
        var finished := Write(c, dies);
        if !finished {
          return c, None;
        }
      }
      result := Some(s.calls[c].phase.result);
      IngestIsIdempotent(states, actions, |actions|, c);
    }

    /** The key was free when the call looked. */
    method Write(c: Id, dies: bool) returns (finished: bool)
      requires Valid() && At(s, c, NotThere) && c in s.used
      modifies this
      ensures Valid() && old(states) <= states && old(actions) <= actions
      ensures c in s.calls && s.calls[c].event == old(s).calls[c].event
      ensures finished ==> s.calls[c].phase.Finished?
      ensures !finished ==> dies || (At(s, c, NotThere) && Blocked(s, c, s.calls[c].event.key))
    {
      var inserted := CreateEvent(c);
      if inserted == Waiting {
        return false;
      }
      Others(c);
      if inserted == Lost {
        var winner := GetByIdempotencyKey(s.calls[c].event.key);
        Do(LookAgain(c, winner));
        return true;
      }
      Do(CreateOutbox(c));
      Others(c);
      if dies {
        Do(Crash(c));
        return false;
      }
      Do(Commit(c));
      return true;
    }

    /** The insert under its savepoint: it waits for another transaction holding the key, and hits
        the unique index if that one committed. */
    method CreateEvent(c: Id) returns (r: Insertion)
      requires Valid() && At(s, c, NotThere) && c in s.used
      modifies this
      ensures Valid() && old(states) <= states && old(actions) <= actions
      ensures c in s.calls && s.calls[c].event == old(s).calls[c].event && c in s.used
      ensures match r
              case Done => s.calls[c].phase.Inserted?
              case Lost =>
                s.calls[c].phase == Conflicted && exists e | e in s.events :: s.events[e].key == s.calls[c].event.key
              case Waiting =>
                && s.calls[c].phase == NotThere
                && exists b | b in s.calls ::
                     b != c && s.calls[b].phase.Holds() && s.calls[b].event.key == s.calls[c].event.key
    {
      Others(c);
      var key := s.calls[c].event.key;
      if Has(s, key) {
        Do(Violate(c));
        return Lost;
      }
      if Blocked(s, c, key) {
        return Waiting;
      }
      var id := FreshId();
      Do(Insert(c, id));
      return Done;
    }
  }

  datatype Insertion = Done | Lost | Waiting
}
