/** Every serialised history of one endpoint and its deliveries: attempts in any order
    (redelivered messages included, whatever state the row is in) and dead-letter replays. */
module EndpointHistory {
  import opened Prelude
  import opened Breakers
  import opened Deliveries
  import opened Attempts
  import opened AttemptLogs

  /** The endpoint's breaker columns, its delivery rows, each row's attempt log, and the requests
      really sent. */
  datatype World = World(
    breaker: Breaker,
    rows: seq<Delivery>,
    logs: seq<seq<AttemptRow>>,
    sends: seq<Send>)

  datatype Op =
    | Process(i: nat, now: Time, result: SendResult, delay: Time)
    | Replay(i: nat)

  predicate WellFormed(w: World) {
    |w.rows| == |w.logs|
  }

  /** A fresh endpoint with fresh deliveries. */
  ghost predicate Initial(w: World) {
    && WellFormed(w)
    && w.breaker == FRESH
    && w.sends == []
    && forall i | 0 <= i < |w.rows| ::
         && w.rows[i].state.Pending?
         && w.rows[i].attemptCount == 0
         && w.rows[i].nextRetryAt == None
         && w.logs[i] == []
  }

  /** One committed unit of work. An unknown delivery, or the replay of a delivery that is
      not dead, raises and changes nothing. */
  function Step(cfg: Settings, w: World, op: Op): (w': World)
    requires WellFormed(w)
    ensures WellFormed(w') && |w'.rows| == |w.rows|
  {
    if op.i >= |w.rows| then w
    else match op
      case Process(i, now, result, delay) =>
        (match Attempt(cfg, w.rows[i], w.breaker, now, result, delay)
         case Deferred(d) => w.(rows := w.rows[i := d])
         case Sent(d, b, row) =>
           World(b,
                 w.rows[i := d],
                 w.logs[i := w.logs[i] + [row]],
                 w.sends + [Send(now, result.Succeeded())]))
      case Replay(i) =>
        if w.rows[i].state.Dead?
        then w.(rows := w.rows[i := ResetForReplay(w.rows[i])])
        else w
  }

  function Run(cfg: Settings, w: World, ops: seq<Op>): (w': World)
    requires WellFormed(w)
    ensures WellFormed(w') && |w'.rows| == |w.rows|
  {
    if ops == [] then w
    else Step(cfg, Run(cfg, w, ops[..|ops| - 1]), ops[|ops| - 1])
  }

  // ---------------------------------------------------------------- breaker closed form

  lemma BreakerClosedFormStep(cfg: Settings, w: World, op: Op)
    requires WellFormed(w)
    requires w.breaker == BreakerOf(w.sends, cfg.failureThreshold)
    ensures var w' := Step(cfg, w, op);
            w'.breaker == BreakerOf(w'.sends, cfg.failureThreshold)
  {
    var w' := Step(cfg, w, op);
    if w'.sends != w.sends {
      assert w'.sends[..|w'.sends| - 1] == w.sends;
    }
  }

  /** Over every history, the committed breaker columns are a function of the requests sent:
      the failure count is the trailing run of failures, the breaker is open exactly when that
      reached the threshold, it was opened when the last failed attempt started, and half-open
      is never what a transaction commits. */
  lemma {:induction false} BreakerClosedForm(cfg: Settings, w: World, ops: seq<Op>)
    requires Initial(w)
    ensures var w' := Run(cfg, w, ops);
            && w'.breaker == BreakerOf(w'.sends, cfg.failureThreshold)
            && !w'.breaker.state.HalfOpen?
            && (w'.breaker.openedAt.Some? <==> w'.breaker.state.Open?)
  {
    if ops != [] {
      BreakerClosedForm(cfg, w, ops[..|ops| - 1]);
      BreakerClosedFormStep(cfg, Run(cfg, w, ops[..|ops| - 1]), ops[|ops| - 1]);
    }
  }

  // ------------------------------------------------------- the row against its attempt log

  /** The attempt numbers of a log, and which attempts succeeded. */
  function Brief(log: seq<AttemptRow>): seq<LogRow> {
    seq(|log|, i requires 0 <= i < |log| => LogRow(log[i].attemptNo, log[i].Ok()))
  }

  lemma RowRefinesLogStep(cfg: Settings, w: World, op: Op, k: nat)
    requires WellFormed(w) && k < |w.rows|
    requires RowRefinesLog(cfg.maxAttempts, w.rows[k], Brief(w.logs[k]))
    ensures var w' := Step(cfg, w, op); RowRefinesLog(cfg.maxAttempts, w'.rows[k], Brief(w'.logs[k]))
  {
    if op.i == k && op.Process? {
      var effect := Attempt(cfg, w.rows[k], w.breaker, op.now, op.result, op.delay);
      if effect.Sent? {
        var ok := op.result.Succeeded();
        SendRefines(cfg.maxAttempts, w.rows[k], Brief(w.logs[k]), ok, op.now + op.delay);
        assert Brief(w.logs[k] + [effect.row]) == Brief(w.logs[k]) + [LogRow(w.rows[k].attemptCount + 1, ok)];
      }
    }
  }

  /** In every history, redeliveries and replays included, every row refines its log. */
  lemma {:induction false} RowsRefineLogs(cfg: Settings, w: World, ops: seq<Op>, k: nat)
    requires Initial(w) && k < |w.rows|
    ensures RowRefinesLog(cfg.maxAttempts, Run(cfg, w, ops).rows[k], Brief(Run(cfg, w, ops).logs[k]))
  {
    if ops != [] {
      RowsRefineLogs(cfg, w, ops[..|ops| - 1], k);
      RowRefinesLogStep(cfg, Run(cfg, w, ops[..|ops| - 1]), ops[|ops| - 1], k);
    }
  }

  /** Nothing in an attempt asks whether the delivery is already finished. So a message delivered
      a second time reopens a finished row, and exactly then: when the breaker defers it, or when
      it sends again, fails, and the row's count leaves budget. */
  lemma RedeliveryReopensExactly(cfg: Settings, w: World, i: nat, now: Time, result: SendResult, delay: Time)
    requires WellFormed(w) && i < |w.rows| && !w.rows[i].Live()
    ensures Step(cfg, w, Process(i, now, result, delay)).rows[i].Live()
       <==> || ShouldSkipForOpenBreaker(w.breaker, now, cfg.cooldown)
            || (!result.Succeeded() && w.rows[i].attemptCount + 1 < cfg.maxAttempts)
  {
    var effect := Attempt(cfg, w.rows[i], w.breaker, now, result, delay);
    assert Step(cfg, w, Process(i, now, result, delay)).rows[i] == effect.delivery;
  }

  /** It does happen: a fresh delivery, delivered by its first request, whose message is handed out
      once more and whose second request fails. */
  lemma RedeliveryReopensDelivered(cfg: Settings) returns (w: World, ops: seq<Op>)
    requires cfg.maxAttempts >= 3
    ensures Initial(w) && |w.rows| == 1 && |ops| == 2
    ensures Run(cfg, w, ops[..1]).rows[0].state.Delivered?
    ensures Run(cfg, w, ops).rows[0].state.Retrying?
  {
    w := World(FRESH, [Create(0, 0)], [[]], []);
    var first := Process(0, 0, SendResult(Some(200), None), 0);
    var second := Process(0, 1, SendResult(Some(500), Some(HttpError)), 0);
    ops := [first, second];
    assert ops[..1] == [first] && [first][..0] == [];
    assert Run(cfg, w, [first]) == Step(cfg, w, first);
    var w1 := Step(cfg, w, first);
    assert w1.breaker == FRESH && w1.rows[0].attemptCount == 1;
    RedeliveryReopensExactly(cfg, w1, 0, 1, second.result, 0);
    assert Run(cfg, w, ops) == Step(cfg, w1, second);
  }

  /** Attempt rows are never rewritten or removed, by a replay or by anything else. */
  lemma {:induction false} LogsAreAppendOnly(cfg: Settings, w: World, ops: seq<Op>, more: seq<Op>, k: nat)
    requires WellFormed(w) && k < |w.rows|
    ensures Run(cfg, w, ops).logs[k] <= Run(cfg, w, ops + more).logs[k]
    decreases |more|
  {
    if more == [] {
      assert ops + more == ops;
    } else {
      var butLast := more[..|more| - 1];
      LogsAreAppendOnly(cfg, w, ops, butLast, k);
      var all := ops + more;
      assert all[..|all| - 1] == ops + butLast;
      assert all[|all| - 1] == more[|more| - 1];
    }
  }
}
