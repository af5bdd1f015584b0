/** What the last operation on a row makes of it, column by column, and when a retry wakes up. */
module RetryTimes {
  import opened Prelude
  import opened Breakers
  import opened Deliveries
  import opened Attempts
  import opened EndpointHistory
  import AttemptLogs
  import Backoff

  /** A 2xx answer and no error. */
  predicate Ok2xx(r: SendResult) { r.errorClass == None && r.statusCode.Some? && 200 <= r.statusCode.value <= 299 }

  predicate SamePair(before: Delivery, after: Delivery) {
    after.eventId == before.eventId && after.endpointId == before.endpointId
  }

  predicate CoolingDown(cfg: Settings, b: Breaker, now: Time) {
    b.state == Open && b.openedAt.Some? && now < b.openedAt.value + cfg.cooldown
  }

  /** The row a deferral leaves: no attempt, and a wake-up at the end of the cooldown. */
  predicate DeferralRow(cfg: Settings, b: Breaker, before: Delivery, after: Delivery) {
    && SamePair(before, after) && after.attemptCount == before.attemptCount
    && after.state == Retrying && b.openedAt.Some? && after.nextRetryAt == Some(b.openedAt.value + cfg.cooldown)
  }

  /** The row a request leaves: finished with the answer, or out of budget, or waiting for as long
      as the backoff drew. */
  predicate SendRow(cfg: Settings, op: Op, before: Delivery, after: Delivery)
    requires op.Process?
  {
    && SamePair(before, after) && after.attemptCount == before.attemptCount + 1
    && if Ok2xx(op.result) then after.state == Delivered && after.nextRetryAt == None
       else if after.attemptCount >= cfg.maxAttempts then after.state == Dead && after.nextRetryAt == None
       else after.state == Retrying && after.nextRetryAt == Some(op.now + op.delay)
  }

  /** What a request records. */
  predicate SendLogged(op: Op, before: Delivery, log: seq<AttemptRow>, log': seq<AttemptRow>)
    requires op.Process?
  {
    log' == log + [AttemptRow(before.attemptCount + 1, op.result.statusCode, op.result.errorClass, op.now)]
  }

  /** The breaker a request leaves: closed by a success, open from now on by a failed probe or by the
      failure that reaches the threshold, closed and counting by any other. */
  predicate SendBreaker(cfg: Settings, op: Op, before: Breaker, after: Breaker)
    requires op.Process?
  {
    if Ok2xx(op.result) then after.state == Closed && after.consecutiveFailures == 0 && after.openedAt == None
    else && after.consecutiveFailures == before.consecutiveFailures + 1
         && if before.state != Closed || after.consecutiveFailures >= cfg.failureThreshold
            then after.state == Open && after.openedAt == Some(op.now)
            else after.state == Closed && after.openedAt == None
  }

  predicate ResetRow(before: Delivery, after: Delivery) {
    && before.state == Dead && SamePair(before, after)
    && after.state == Pending && after.attemptCount == 0 && after.nextRetryAt == None
  }

  /** This operation, on row `k` of `w`, leaves the row, the log, the breaker and the sends of `w'`. */
  ghost predicate Tells(cfg: Settings, w: World, op: Op, w': World, k: nat)
    requires WellFormed(w) && WellFormed(w') && k < |w.rows| == |w'.rows|
  {
    && op.i == k
    && match op
       case Replay(_) =>
         && ResetRow(w.rows[k], w'.rows[k]) && w'.logs[k] == w.logs[k]
         && w'.breaker == w.breaker && w'.sends == w.sends
       case Process(_, now, result, _) =>
         if CoolingDown(cfg, w.breaker, now)
         then && DeferralRow(cfg, w.breaker, w.rows[k], w'.rows[k]) && w'.logs[k] == w.logs[k]
              && w'.breaker == w.breaker && w'.sends == w.sends
         else && SendRow(cfg, op, w.rows[k], w'.rows[k]) && SendLogged(op, w.rows[k], w.logs[k], w'.logs[k])
              && SendBreaker(cfg, op, w.breaker, w'.breaker) && w'.sends == w.sends + [Send(now, Ok2xx(result))]
  }

  /** Every attempt on a row works on it, and so does the replay of a dead one. */
  predicate Touches(w: World, op: Op, k: nat)
    requires WellFormed(w) && k < |w.rows|
  {
    op.i == k && (op.Process? || w.rows[k].state == Dead)
  }

  /** None of the operations from `n` on works on row `k`. */
  ghost predicate UntouchedFrom(cfg: Settings, w: World, ops: seq<Op>, n: nat, k: nat)
    requires WellFormed(w) && k < |w.rows|
  {
    forall m | n <= m < |ops| :: !Touches(Run(cfg, w, ops[..m]), ops[m], k)
  }

  /** Operation `n` is the last one that works on row `k`, and the row and its log are as it says. */
  ghost predicate ToldBy(cfg: Settings, w: World, ops: seq<Op>, n: nat, k: nat)
    requires WellFormed(w) && k < |w.rows| && n < |ops|
  {
    var last := Run(cfg, w, ops[..n + 1]);
    && Touches(Run(cfg, w, ops[..n]), ops[n], k) && UntouchedFrom(cfg, w, ops, n + 1, k)
    && Tells(cfg, Run(cfg, w, ops[..n]), ops[n], last, k)
    && Run(cfg, w, ops).rows[k] == last.rows[k] && Run(cfg, w, ops).logs[k] == last.logs[k]
  }

  ghost predicate Untold(cfg: Settings, w: World, ops: seq<Op>, k: nat)
    requires WellFormed(w) && k < |w.rows|
  {
    && UntouchedFrom(cfg, w, ops, 0, k)
    && Run(cfg, w, ops).rows[k] == w.rows[k] && Run(cfg, w, ops).logs[k] == w.logs[k]
  }

  lemma StepTells(cfg: Settings, w: World, op: Op, k: nat)
    requires WellFormed(w) && k < |w.rows|
    ensures var w' := Step(cfg, w, op);
            if Touches(w, op, k) then Tells(cfg, w, op, w', k)
            else w'.rows[k] == w.rows[k] && w'.logs[k] == w.logs[k]
  {
  }

  lemma UntouchedMore(cfg: Settings, w: World, ops: seq<Op>, n: nat, k: nat)
    requires WellFormed(w) && k < |w.rows| && n < |ops|
    requires UntouchedFrom(cfg, w, ops[..|ops| - 1], n, k)
    requires !Touches(Run(cfg, w, ops[..|ops| - 1]), ops[|ops| - 1], k)
    ensures UntouchedFrom(cfg, w, ops, n, k)
  {
    var before := ops[..|ops| - 1];
    forall m | n <= m < |ops| ensures !Touches(Run(cfg, w, ops[..m]), ops[m], k) {
      if m < |before| {
        assert before[..m] == ops[..m];
        assert !Touches(Run(cfg, w, before[..m]), before[m], k);
      }
    }
  }

  /** In every history, every row and its log are as they were at the start and nothing worked on
      them, or they are exactly as the last operation that did says, column by column. */
  lemma {:induction false} RowToldByLastOp(cfg: Settings, w: World, ops: seq<Op>, k: nat)
    requires WellFormed(w) && k < |w.rows|
    ensures Untold(cfg, w, ops, k) || exists n: nat | n < |ops| :: ToldBy(cfg, w, ops, n, k)
  {
    if ops != [] {
      var m := |ops| - 1;
      var before := ops[..m];
      RowToldByLastOp(cfg, w, before, k);
      StepTells(cfg, Run(cfg, w, before), ops[m], k);
      if Touches(Run(cfg, w, before), ops[m], k) {
        ToldNow(cfg, w, ops, k);
      } else if Untold(cfg, w, before, k) {
        UntouchedMore(cfg, w, ops, 0, k);
      } else {
        var n: nat :| n < |before| && ToldBy(cfg, w, before, n, k);
        ToldStill(cfg, w, ops, n, k);
      }
    }
  }

  lemma ToldNow(cfg: Settings, w: World, ops: seq<Op>, k: nat)
    requires WellFormed(w) && k < |w.rows| && ops != []
    requires Touches(Run(cfg, w, ops[..|ops| - 1]), ops[|ops| - 1], k)
    ensures ToldBy(cfg, w, ops, |ops| - 1, k)
  {
    StepTells(cfg, Run(cfg, w, ops[..|ops| - 1]), ops[|ops| - 1], k);
    assert ops[..|ops|] == ops;
  }

  lemma ToldStill(cfg: Settings, w: World, ops: seq<Op>, n: nat, k: nat)
    requires WellFormed(w) && k < |w.rows| && n < |ops| - 1 && ToldBy(cfg, w, ops[..|ops| - 1], n, k)
    requires !Touches(Run(cfg, w, ops[..|ops| - 1]), ops[|ops| - 1], k)
    ensures ToldBy(cfg, w, ops, n, k)
  {
    var before := ops[..|ops| - 1];
    assert before[..n] == ops[..n] && before[..n + 1] == ops[..n + 1] && before[n] == ops[n];
    StepTells(cfg, Run(cfg, w, before), ops[|ops| - 1], k);
    UntouchedMore(cfg, w, ops, n + 1, k);
  }

  // ------------------------------------------------------------------- wake-ups

  /** Every delay lies in the interval the backoff function draws it from, given the row the
      attempt starts from. */
  ghost predicate DrawsAreValid(cfg: Settings, w: World, ops: seq<Op>)
    requires WellFormed(w)
  {
    forall n | 0 <= n < |ops| && ops[n].Process? && ops[n].i < |w.rows| ::
      Backoff.ValidDraw(Run(cfg, w, ops[..n]).rows[ops[n].i].attemptCount, ops[n].delay)
  }

  /** The breaker put the delivery off at this operation, until the end of the cooldown. */
  ghost predicate PutOff(cfg: Settings, b: Breaker, op: Op, row: Delivery) {
    && op.Process? && CoolingDown(cfg, b, op.now)
    && row.nextRetryAt == Some(b.openedAt.value + cfg.cooldown)
  }

  /** The row's last attempt failed and its wait is a backoff: no earlier than the attempt's start,
      and no later than that by the bound of the retry it is. */
  ghost predicate BacksOff(row: Delivery, log: seq<AttemptRow>) {
    && log != [] && row.attemptCount > 0 && row.nextRetryAt.Some?
    && var last := log[|log| - 1];
       && last.attemptNo == row.attemptCount && !last.Ok()
       && last.startedAt <= row.nextRetryAt.value <= last.startedAt + Backoff.Bound(row.attemptCount - 1)
  }

  /** When a retry wakes up, over every history: at the end of the cooldown that put it off, or
      within its backoff bound of the start of its last attempt. */
  lemma RetryWakesInTime(cfg: Settings, w: World, ops: seq<Op>, k: nat)
    requires Initial(w) && k < |w.rows| && DrawsAreValid(cfg, w, ops)
    requires Run(cfg, w, ops).rows[k].state.Retrying?
    ensures exists n: nat | n < |ops| ::
              && ToldBy(cfg, w, ops, n, k)
              && var w', row := Run(cfg, w, ops), Run(cfg, w, ops).rows[k];
                 if CoolingDown(cfg, Run(cfg, w, ops[..n]).breaker, ops[n].now)
                 then PutOff(cfg, Run(cfg, w, ops[..n]).breaker, ops[n], row)
                 else BacksOff(row, w'.logs[k]) && row.nextRetryAt == Some(ops[n].now + ops[n].delay)
  {
    RowToldByLastOp(cfg, w, ops, k);
    assert !Untold(cfg, w, ops, k);
    var n: nat :| n < |ops| && ToldBy(cfg, w, ops, n, k);
    assert ops[n].i == k;
    ToldRetry(cfg, Run(cfg, w, ops[..n]), ops[n], Run(cfg, w, ops[..n + 1]), k);
  }

  lemma ToldRetry(cfg: Settings, w: World, op: Op, w': World, k: nat)
    requires WellFormed(w) && WellFormed(w') && k < |w.rows| == |w'.rows| && Tells(cfg, w, op, w', k)
    requires op.Process? ==> Backoff.ValidDraw(w.rows[k].attemptCount, op.delay)
    requires w'.rows[k].state.Retrying?
    ensures op.Process?
    ensures if CoolingDown(cfg, w.breaker, op.now) then PutOff(cfg, w.breaker, op, w'.rows[k])
            else BacksOff(w'.rows[k], w'.logs[k]) && w'.rows[k].nextRetryAt == Some(op.now + op.delay)
  {
  }

  // ------------------------------------------------------------------- backoff budget

  /** How long the attempts of the row's current chain were told to wait, read off the wake-ups and
      the log: the chain starts at attempt number one. */
  function Waited(cfg: Settings, w: World, ops: seq<Op>, k: nat): Time
    requires WellFormed(w) && k < |w.rows|
  {
    if ops == [] then 0
    else
      var before, after := Run(cfg, w, ops[..|ops| - 1]), Run(cfg, w, ops);
      WaitedStep(Waited(cfg, w, ops[..|ops| - 1], k), before.logs[k], after.logs[k], after.rows[k])
  }

  function WaitedStep(waited: Time, log: seq<AttemptRow>, log': seq<AttemptRow>, row': Delivery): Time {
    if |log'| <= |log| then waited
    else
      var last := log'[|log'| - 1];
      (if last.attemptNo == 1 then 0 else waited)
      + (if row'.nextRetryAt.Some? then row'.nextRetryAt.value - last.startedAt else 0)
  }

  /** The retries of the chain that could have had a wait so far. */
  function RetriesWaited(cfg: Settings, log: seq<AttemptRow>): nat {
    if log == [] || cfg.maxAttempts < 1 then 0 else Min(log[|log| - 1].attemptNo, cfg.maxAttempts - 1)
  }

  /** The waits a chain schedules before it dies total at most the geometric part of the bounds
      plus the cap for every retry past it. */
  lemma ChainDelayBudget(cfg: Settings, w: World, ops: seq<Op>, k: nat)
    requires Initial(w) && k < |w.rows| && cfg.maxAttempts >= 1 && DrawsAreValid(cfg, w, ops)
    ensures var n := cfg.maxAttempts - 1;
            var u := Backoff.Uncapped(n);
            Waited(cfg, w, ops, k) <= Backoff.BASE * (Backoff.Pow2(u) - 1) + Backoff.CAP * (n - u)
  {
    ChainWaits(cfg, w, ops, k);
    Backoff.BoundSumMonotone(RetriesWaited(cfg, Run(cfg, w, ops).logs[k]), cfg.maxAttempts - 1);
    Backoff.BoundSumClosedForm(cfg.maxAttempts - 1);
  }

  /** Retry by retry, the waits stay within the bounds. */
  lemma {:induction false} ChainWaits(cfg: Settings, w: World, ops: seq<Op>, k: nat)
    requires Initial(w) && k < |w.rows| && cfg.maxAttempts >= 1 && DrawsAreValid(cfg, w, ops)
    ensures Waited(cfg, w, ops, k) <= Backoff.BoundSum(RetriesWaited(cfg, Run(cfg, w, ops).logs[k]))
  {
    if ops != [] {
      var before := ops[..|ops| - 1];
      forall n | 0 <= n < |before| ensures before[..n] == ops[..n] {}
      ChainWaits(cfg, w, before, k);
      RowsRefineLogs(cfg, w, before, k);
      ChainDelayStep(cfg, Run(cfg, w, before), ops[|ops| - 1], k, Waited(cfg, w, before, k));
    }
  }

  lemma ChainDelayStep(cfg: Settings, w: World, op: Op, k: nat, waited: Time)
    requires WellFormed(w) && k < |w.rows| && cfg.maxAttempts >= 1
    requires AttemptLogs.RowRefinesLog(cfg.maxAttempts, w.rows[k], Brief(w.logs[k]))
    requires op.Process? && op.i == k ==> Backoff.ValidDraw(w.rows[k].attemptCount, op.delay)
    requires waited <= Backoff.BoundSum(RetriesWaited(cfg, w.logs[k]))
    ensures var w' := Step(cfg, w, op);
            WaitedStep(waited, w.logs[k], w'.logs[k], w'.rows[k]) <= Backoff.BoundSum(RetriesWaited(cfg, w'.logs[k]))
  {
    StepTells(cfg, w, op, k);
    var w' := Step(cfg, w, op);
    if |w'.logs[k]| > |w.logs[k]| {
      var c := w.rows[k].attemptCount;
      assert c > 0 ==> Brief(w.logs[k])[|w.logs[k]| - 1].attemptNo == c;
      Backoff.BoundSumMonotone(Min(c, cfg.maxAttempts - 1), RetriesWaited(cfg, w'.logs[k]));
    }
  }
}
