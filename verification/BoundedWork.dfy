/** A termination measure for the retry machinery of one endpoint. */
module BoundedWork {
  import opened Breakers
  import opened Deliveries
  import opened Attempts
  import opened EndpointHistory

  /** Without redelivery a delivery is processed only while it is live, and not before its
      own wake-up time. */
  predicate Due(w: World, op: Op)
    requires WellFormed(w)
  {
    && op.Process?
    && op.i < |w.rows|
    && w.rows[op.i].Live()
    && (w.rows[op.i].state.Retrying? ==>
          w.rows[op.i].nextRetryAt.Some? && w.rows[op.i].nextRetryAt.value <= op.now)
  }

  ghost predicate AllDue(cfg: Settings, w: World, ops: seq<Op>)
    requires WellFormed(w)
  {
    forall n | 0 <= n < |ops| :: Due(Run(cfg, w, ops[..n]), ops[n])
  }

  /** Sends the row may still cause. */
  function Budget(cfg: Settings, d: Delivery): nat {
    if d.Live() && d.attemptCount < cfg.maxAttempts then cfg.maxAttempts - d.attemptCount else 0
  }

  function TotalBudget(cfg: Settings, rows: seq<Delivery>): nat {
    if rows == [] then 0 else TotalBudget(cfg, rows[..|rows| - 1]) + Budget(cfg, rows[|rows| - 1])
  }

  /** Would this row be deferred if it were processed as soon as it is due? */
  predicate Deferrable(cfg: Settings, d: Delivery, b: Breaker) {
    && d.Live()
    && b.state.Open?
    && b.openedAt.Some?
    && (d.nextRetryAt.None? || d.nextRetryAt.value < b.openedAt.value + cfg.cooldown)
  }

  function DeferrableRows(cfg: Settings, rows: seq<Delivery>, b: Breaker): (n: nat)
    ensures n <= |rows|
  {
    if rows == [] then 0
    else DeferrableRows(cfg, rows[..|rows| - 1], b)
         + (if Deferrable(cfg, rows[|rows| - 1], b) then 1 else 0)
  }

  /** The lexicographic pair (remaining budget, deferrable rows), flattened. */
  function Measure(cfg: Settings, w: World): nat {
    TotalBudget(cfg, w.rows) * (|w.rows| + 1) + DeferrableRows(cfg, w.rows, w.breaker)
  }

  lemma {:induction false} TotalBudgetUpdate(cfg: Settings, rows: seq<Delivery>, i: nat, d: Delivery)
    requires i < |rows|
    ensures TotalBudget(cfg, rows[i := d]) == TotalBudget(cfg, rows) - Budget(cfg, rows[i]) + Budget(cfg, d)
  {
    var n := |rows| - 1;
    if i < n {
      assert rows[i := d][..n] == rows[..n][i := d];
      TotalBudgetUpdate(cfg, rows[..n], i, d);
    } else {
      assert rows[i := d][..n] == rows[..n];
    }
  }

  lemma {:induction false} DeferrableUpdate(cfg: Settings, rows: seq<Delivery>, b: Breaker, i: nat, d: Delivery)
    requires i < |rows|
    ensures DeferrableRows(cfg, rows[i := d], b)
            == DeferrableRows(cfg, rows, b)
               - (if Deferrable(cfg, rows[i], b) then 1 else 0)
               + (if Deferrable(cfg, d, b) then 1 else 0)
  {
    var n := |rows| - 1;
    if i < n {
      assert rows[i := d][..n] == rows[..n][i := d];
      DeferrableUpdate(cfg, rows[..n], b, i, d);
    } else {
      assert rows[i := d][..n] == rows[..n];
    }
  }

  lemma {:induction false} InitialBudget(cfg: Settings, rows: seq<Delivery>)
    requires cfg.maxAttempts >= 1
    requires forall i | 0 <= i < |rows| :: rows[i].state.Pending? && rows[i].attemptCount == 0
    ensures TotalBudget(cfg, rows) == |rows| * cfg.maxAttempts
  {
    if rows != [] { InitialBudget(cfg, rows[..|rows| - 1]); }
  }

  lemma {:induction false} NothingDeferrableWhileClosed(cfg: Settings, rows: seq<Delivery>, b: Breaker)
    requires !b.state.Open?
    ensures DeferrableRows(cfg, rows, b) == 0
  {
    if rows != [] { NothingDeferrableWhileClosed(cfg, rows[..|rows| - 1], b); }
  }

  /** Live rows always have budget left: the invariant that redelivery would break. */
  ghost predicate InBudget(cfg: Settings, w: World) {
    forall i | 0 <= i < |w.rows| ::
      && (w.rows[i].Live() ==> w.rows[i].attemptCount < cfg.maxAttempts)
      && (w.rows[i].state.Pending? ==> w.rows[i].nextRetryAt.None?)
  }

  lemma StepKeepsBudget(cfg: Settings, w: World, op: Op)
    requires WellFormed(w) && InBudget(cfg, w) && Due(w, op)
    ensures var w' := Step(cfg, w, op);
            && InBudget(cfg, w')
            && TotalBudget(cfg, w'.rows) + |w'.sends| <= TotalBudget(cfg, w.rows) + |w.sends|
            && (w'.sends == w.sends ==> TotalBudget(cfg, w'.rows) == TotalBudget(cfg, w.rows))
            && (w'.sends != w.sends ==> |w'.sends| == |w.sends| + 1)
  {
    var w' := Step(cfg, w, op);
    assert w'.rows == w.rows[op.i := w'.rows[op.i]];
    TotalBudgetUpdate(cfg, w.rows, op.i, w'.rows[op.i]);
  }

  /** A deferral happens only while the breaker is cooling down, so the row was deferrable, and
      its new wake-up time is the end of that cooldown, so it no longer is. */
  lemma DeferralUsesUpDeferrable(cfg: Settings, w: World, op: Op)
    requires WellFormed(w) && InBudget(cfg, w) && Due(w, op)
    requires Step(cfg, w, op).sends == w.sends
    ensures var w' := Step(cfg, w, op);
            DeferrableRows(cfg, w'.rows, w'.breaker) == DeferrableRows(cfg, w.rows, w.breaker) - 1
  {
    DeferrableUpdate(cfg, w.rows, w.breaker, op.i, Step(cfg, w, op).rows[op.i]);
  }

  lemma LexicographicDecrease(major: nat, minor: nat, major': nat, minor': nat, n: nat)
    requires minor' <= n
    requires major' < major || (major' == major && minor' < minor)
    ensures major' * (n + 1) + minor' < major * (n + 1) + minor
  {
    if major' < major {
      assert (major - 1) * (n + 1) == major * (n + 1) - (n + 1);
      assert major' * (n + 1) <= (major - 1) * (n + 1);
    }
  }

  lemma StepDecreasesMeasure(cfg: Settings, w: World, op: Op)
    requires WellFormed(w) && InBudget(cfg, w) && Due(w, op)
    ensures Measure(cfg, Step(cfg, w, op)) < Measure(cfg, w)
  {
    var w' := Step(cfg, w, op);
    StepKeepsBudget(cfg, w, op);
    if w'.sends == w.sends {
      DeferralUsesUpDeferrable(cfg, w, op);
    }
    LexicographicDecrease(TotalBudget(cfg, w.rows), DeferrableRows(cfg, w.rows, w.breaker),
                          TotalBudget(cfg, w'.rows), DeferrableRows(cfg, w'.rows, w'.breaker), |w.rows|);
  }

  lemma {:induction false} RunDecreasesMeasure(cfg: Settings, w: World, ops: seq<Op>)
    requires WellFormed(w) && InBudget(cfg, w) && AllDue(cfg, w, ops)
    ensures var w' := Run(cfg, w, ops);
            && InBudget(cfg, w')
            && Measure(cfg, w') + |ops| <= Measure(cfg, w)
            && TotalBudget(cfg, w'.rows) + |w'.sends| <= TotalBudget(cfg, w.rows) + |w.sends|
  {
    if ops != [] {
      var before := ops[..|ops| - 1];
      forall n | 0 <= n < |before| ensures Due(Run(cfg, w, before[..n]), before[n]) {
        assert before[..n] == ops[..n];
        assert Due(Run(cfg, w, ops[..n]), ops[n]);
      }
      RunDecreasesMeasure(cfg, w, before);
      assert Due(Run(cfg, w, ops[..|ops| - 1]), ops[|ops| - 1]);
      StepKeepsBudget(cfg, Run(cfg, w, before), ops[|ops| - 1]);
      StepDecreasesMeasure(cfg, Run(cfg, w, before), ops[|ops| - 1]);
    }
  }

  /** For n deliveries of one endpoint: at most n * maxAttempts requests, and at most
      n * maxAttempts * (n + 1) processing steps, deferrals included. */
  lemma BoundedWork(cfg: Settings, w: World, ops: seq<Op>)
    requires Initial(w) && cfg.maxAttempts >= 1 && AllDue(cfg, w, ops)
    ensures |Run(cfg, w, ops).sends| <= |w.rows| * cfg.maxAttempts
    ensures |ops| <= |w.rows| * cfg.maxAttempts * (|w.rows| + 1)
  {
    RunDecreasesMeasure(cfg, w, ops);
    InitialBudget(cfg, w.rows);
    NothingDeferrableWhileClosed(cfg, w.rows, w.breaker);
  }

  /** Between two consecutive requests to the endpoint, a delivery is deferred at most once:
      after a deferral its wake-up time is the end of the cooldown, so processing it again when
      due, with the breaker unchanged, sends. */
  lemma DeferredAtMostOnce(cfg: Settings, w: World, op: Op, between: seq<Op>, again: Op)
    requires WellFormed(w) && InBudget(cfg, w) && Due(w, op)
    requires Step(cfg, w, op).sends == w.sends
    requires var w1 := Step(cfg, w, op);
             && AllDue(cfg, w1, between)
             && Run(cfg, w1, between).sends == w1.sends
             && (forall n | 0 <= n < |between| :: between[n].i != op.i)
             && again.i == op.i
             && Due(Run(cfg, w1, between), again)
    ensures var w2 := Run(cfg, Step(cfg, w, op), between);
            |Step(cfg, w2, again).sends| == |w2.sends| + 1
  {
    DeferralsTouchNothingElse(cfg, Step(cfg, w, op), between, op.i);
  }

  lemma {:induction false} DeferralsTouchNothingElse(cfg: Settings, w: World, ops: seq<Op>, i: nat)
    requires WellFormed(w) && i < |w.rows| && AllDue(cfg, w, ops)
    requires forall n | 0 <= n < |ops| :: ops[n].i != i
    ensures |Run(cfg, w, ops).sends| >= |w.sends|
    ensures Run(cfg, w, ops).rows[i] == w.rows[i]
    ensures |Run(cfg, w, ops).sends| == |w.sends| ==> Run(cfg, w, ops).breaker == w.breaker
  {
    if ops != [] {
      var before := ops[..|ops| - 1];
      forall n | 0 <= n < |before| ensures Due(Run(cfg, w, before[..n]), before[n]) {
        assert before[..n] == ops[..n];
        assert Due(Run(cfg, w, ops[..n]), ops[n]);
      }
      DeferralsTouchNothingElse(cfg, w, before, i);
    }
  }
}
