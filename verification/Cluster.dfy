/** The three stores as the workers see them: one object every worker commands, which keeps the
    run so far. Between any two commands of a worker anybody else may act. */
module Clusters {
  import opened Prelude
  import opened Protocol
  import opened Frames

  datatype Actor =
    | World
    | Coroutine(task: Id)
    | Transaction(tx: Id)
    | Scheduler(worker: Id)
    | Replayer(replay: Id)

  function ActorOf(a: Action): Actor {
    match a
    case Environment(_) => World
    case RelayStep(x, _) => Transaction(x)
    case WorkStep(t, _) => Coroutine(t)
    case SchedulerStep(w, _) => Scheduler(w)
    case ReplayStep(w, _) => Replayer(w)
  }

  /** What a worker has in memory or in its open transaction. */
  ghost predicate Untouched(s: State, s': State, me: Actor) {
    match me
    case World => true
    case Coroutine(t) => (t in s.tasks <==> t in s'.tasks) && (t in s.tasks ==> s'.tasks[t] == s.tasks[t])
    case Transaction(x) => (x in s.txs <==> x in s'.txs) && (x in s.txs ==> s'.txs[x] == s.txs[x])
    case Scheduler(w) => HandOf(s', w) == HandOf(s, w)
    case Replayer(w) =>
      && (w in s.replaying <==> w in s'.replaying) && (w in s.replaying ==> s'.replaying[w] == s.replaying[w])
      && (w in s.reading <==> w in s'.reading) && (w in s.reading ==> s'.reading[w] == s.reading[w])
  }

  lemma UntouchedByEnv(s: State, a: EnvAction, me: Actor)
    requires EnvEnabled(s, a)
    ensures Untouched(s, EnvApply(s, a), me)
  {
    EnvFrame(s, a);
  }

  lemma UntouchedByRelay(s: State, x: Id, a: RelayAction, me: Actor)
    requires RelayEnabled(s, x, a) && me != Transaction(x)
    ensures Untouched(s, RelayApply(s, x, a), me)
  {
    RelayFrame(s, x, a);
    if me.Transaction? { OtherTx(s, x, a, me.tx); }
  }

  lemma UntouchedByWork(s: State, cfg: Config, t: Id, a: WorkAction, me: Actor)
    requires WorkEnabled(s, cfg, t, a) && me != Coroutine(t)
    ensures Untouched(s, WorkApply(s, cfg, t, a), me)
  {
    WorkFrame(s, cfg, t, a);
    if me.Coroutine? { OtherTask(s, cfg, t, a, me.task); }
  }

  lemma UntouchedByScheduler(s: State, w: Id, a: SchedulerAction, me: Actor)
    requires SchedulerEnabled(s, w, a) && me != Scheduler(w)
    ensures Untouched(s, SchedulerApply(s, w, a), me)
  {
    SchedulerFrame(s, w, a);
  }

  lemma UntouchedByReplay(s: State, w: Id, a: ReplayAction, me: Actor)
    requires ReplayEnabled(s, w, a) && me != Replayer(w)
    ensures Untouched(s, ReplayApply(s, w, a), me)
  {
    ReplayFrame(s, w, a);
  }

  /** Nobody else reaches into a worker. */
  lemma OthersLeaveMe(s: State, cfg: Config, a: Action, me: Actor)
    requires Enabled(s, cfg, a) && ActorOf(a) != me
    ensures Untouched(s, Apply(s, cfg, a), me)
  {
    match a
    case Environment(e) => UntouchedByEnv(s, e, me);
    case RelayStep(x, r) => UntouchedByRelay(s, x, r, me);
    case WorkStep(t, w) => UntouchedByWork(s, cfg, t, w, me);
    case SchedulerStep(w, b) => UntouchedByScheduler(s, w, b, me);
    case ReplayStep(w, b) => UntouchedByReplay(s, w, b, me);
  }

  class Cluster {
    const cfg: Config
    var s: State
    ghost var states: seq<State>
    ghost var actions: seq<Action>

    /** The current state is where the run so far ends, so every theorem about runs holds of it. */
    ghost predicate Valid()
      reads this
    {
      IsRun(cfg, states, actions) && states[|actions|] == s
    }

    constructor (cfg: Config)
      ensures Valid() && s == INITIAL && this.cfg == cfg
    {
      this.cfg := cfg;
      s, states, actions := INITIAL, [INITIAL], [];
    }

    /** One command, by whoever issues it. */
    method Do(a: Action)
      requires Valid() && Enabled(s, cfg, a)
      modifies this
      ensures Valid() && s == Apply(old(s), cfg, a)
      ensures states == old(states) + [s] && actions == old(actions) + [a]
    {
      ExtendRun(cfg, states, actions, a);
      s := Apply(s, cfg, a);
      states, actions := states + [s], actions + [a];
    }

    /** Everybody except `mine` does whatever they can, any number of times. */
    method Others(mine: set<Actor>)
      requires Valid()
      modifies this
      ensures Valid() && old(states) <= states && old(actions) <= actions
      ensures forall me | me in mine :: Untouched(old(s), s, me)
      ensures Grows(old(s), s)
    {
      var schedule: seq<Action> := *;
      for i := 0 to |schedule|
        invariant Valid() && old(states) <= states && old(actions) <= actions
        invariant forall me | me in mine :: Untouched(old(s), s, me)
        invariant Grows(old(s), s)
      {
        var a := schedule[i];
        if Enabled(s, cfg, a) && ActorOf(a) !in mine {
          ghost var before := s;
          Do(a);
          EverythingGrows(before, cfg, a);
          forall me | me in mine ensures Untouched(old(s), s, me) {
            OthersLeaveMe(before, cfg, a, me);
          }
        }
      }
    }

    /** uuid4: never drawn before. */
    method FreshId() returns (id: Id)
      ensures id !in s.ledger.ids
    {
      ghost var top := FreshExists(s.ledger.ids);
      assert top !in s.ledger.ids;
      id :| id !in s.ledger.ids;
    }
  }
}
