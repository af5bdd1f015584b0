/** How hard an endpoint that never answers 2xx is hit. */
module OutageRate {
  import opened Prelude
  import opened Breakers
  import opened Attempts
  import opened EndpointHistory

  /** The requests of a history that started inside the closed window [from, to]. */
  function CountIn(h: seq<Send>, from: Time, to: Time): nat {
    if h == [] then 0
    else CountIn(h[..|h| - 1], from, to) + (if from <= h[|h| - 1].at <= to then 1 else 0)
  }

  predicate NoSuccess(ops: seq<Op>) {
    forall n | 0 <= n < |ops| && ops[n].Process? :: !ops[n].result.Succeeded()
  }

  ghost predicate AllFailed(h: seq<Send>) {
    forall n | 0 <= n < |h| :: !h[n].ok
  }

  /** Past the threshold, consecutive requests are at least one cooldown apart. */
  ghost predicate Spaced(h: seq<Send>, threshold: int, cooldown: Time) {
    forall n | 0 < n < |h| && n >= threshold :: h[n - 1].at + cooldown <= h[n].at
  }

  lemma {:induction false} TrailingAll(h: seq<Send>)
    requires AllFailed(h)
    ensures TrailingFailures(h) == |h|
  {
    if h != [] { TrailingAll(h[..|h| - 1]); }
  }

  /** The requests a history adds to those made before it. */
  function NewSends(cfg: Settings, w: World, ops: seq<Op>): (h: seq<Send>)
    requires WellFormed(w)
    ensures Run(cfg, w, ops).sends == w.sends + h
  {
    SendsAreKept(cfg, w, ops);
    Run(cfg, w, ops).sends[|w.sends|..]
  }

  lemma {:induction false} SendsAreKept(cfg: Settings, w: World, ops: seq<Op>)
    requires WellFormed(w)
    ensures w.sends <= Run(cfg, w, ops).sends
  {
    if ops != [] { SendsAreKept(cfg, w, ops[..|ops| - 1]); }
  }

  lemma NewSendsStep(cfg: Settings, w: World, ops: seq<Op>)
    requires WellFormed(w) && ops != []
    ensures var before, op := ops[..|ops| - 1], ops[|ops| - 1];
            var w1 := Run(cfg, w, before);
            var h, h1 := NewSends(cfg, w, ops), NewSends(cfg, w, before);
            if Step(cfg, w1, op).sends == w1.sends then h == h1
            else && op.Process? && h == h1 + [Send(op.now, op.result.Succeeded())]
                 && Step(cfg, w1, op).sends == w1.sends + [Send(op.now, op.result.Succeeded())]
  {
    var w1 := Run(cfg, w, ops[..|ops| - 1]);
    assert Run(cfg, w, ops).sends == Step(cfg, w1, ops[|ops| - 1]).sends;
  }

  /** From a closed breaker without failures on, whatever came before: the breaker is what the new
      requests make of it, and past the threshold they are a cooldown apart. */
  lemma {:induction false} OutageIsSpaced(cfg: Settings, w: World, ops: seq<Op>)
    requires WellFormed(w) && w.breaker == FRESH && NoSuccess(ops) && cfg.failureThreshold >= 1
    ensures var h := NewSends(cfg, w, ops);
            && AllFailed(h) && Spaced(h, cfg.failureThreshold, cfg.cooldown)
            && Run(cfg, w, ops).breaker == BreakerOf(h, cfg.failureThreshold)
  {
    if ops != [] {
      var before := ops[..|ops| - 1];
      OutageIsSpaced(cfg, w, before);
      NewSendsStep(cfg, w, ops);
      TrailingAll(NewSends(cfg, w, before));
      OutageStep(cfg, Run(cfg, w, before), ops[|ops| - 1], NewSends(cfg, w, before));
    }
  }

  /** One more operation of the outage, seen from the requests it made so far. */
  lemma OutageStep(cfg: Settings, w: World, op: Op, h: seq<Send>)
    requires WellFormed(w) && cfg.failureThreshold >= 1 && (op.Process? ==> !op.result.Succeeded())
    requires AllFailed(h) && Spaced(h, cfg.failureThreshold, cfg.cooldown) && TrailingFailures(h) == |h|
    requires w.breaker == BreakerOf(h, cfg.failureThreshold)
    ensures var w' := Step(cfg, w, op);
            if w'.sends == w.sends then w'.breaker == w.breaker
            else && op.Process?
                 && var h' := h + [Send(op.now, false)];
                    && AllFailed(h') && Spaced(h', cfg.failureThreshold, cfg.cooldown)
                    && w'.breaker == BreakerOf(h', cfg.failureThreshold)
  {
    if op.Process? {
      var h' := h + [Send(op.now, false)];
      assert h'[..|h'| - 1] == h;
    }
  }

  /** The arithmetic of the bound, by induction on a spaced history. While the newest request
      is still before the window, one of the first `threshold` requests is outside it. */
  lemma {:induction false} SpacedCount(h: seq<Send>, threshold: nat, cooldown: Time, from: Time, to: Time)
    requires threshold >= 1 && cooldown > 0 && from <= to
    requires Spaced(h, threshold, cooldown)
    ensures |h| < threshold ==> CountIn(h, from, to) <= |h|
    ensures |h| >= threshold && h[|h| - 1].at < from ==> CountIn(h, from, to) < threshold
    ensures |h| >= threshold && h[|h| - 1].at >= from ==>
              Within(CountIn(h, from, to) - threshold, cooldown, Min(h[|h| - 1].at, to) - from)
  {
    if h != [] {
      var before := h[..|h| - 1];
      SpacedCount(before, threshold, cooldown, from, to);
      var x := h[|h| - 1].at;
      if |before| < threshold && x >= from {
        WithinWeaken(0, CountIn(h, from, to) - threshold, cooldown, Min(x, to) - from);
      } else if |before| >= threshold {
        var p := before[|before| - 1].at;
        assert p + cooldown <= x;
        SpacedCountStep(CountIn(before, from, to) - threshold, cooldown, p, x, from, to);
      }
    }
  }

  /** `count` intervals of one cooldown fit into `length`. */
  predicate Within(count: int, cooldown: Time, length: Time) {
    count * cooldown <= length
  }

  lemma WithinWeaken(a: int, b: int, cooldown: Time, length: Time)
    requires a >= b && cooldown > 0 && Within(a, cooldown, length)
    ensures Within(b, cooldown, length)
  {
    assert a * cooldown >= b * cooldown;
  }

  lemma SpacedCountStep(k: int, cooldown: Time, p: Time, x: Time, from: Time, to: Time)
    requires cooldown > 0 && from <= to && p + cooldown <= x
    requires if p < from then k < 0 else Within(k, cooldown, Min(p, to) - from)
    ensures x >= from ==> Within(k + (if x <= to then 1 else 0), cooldown, Min(x, to) - from)
  {
    if x >= from {
      if p < from {
        WithinWeaken(0, k + (if x <= to then 1 else 0), cooldown, Min(x, to) - from);
      } else {
        assert (k + 1) * cooldown == k * cooldown + cooldown;
      }
    }
  }

  lemma WithinDivides(k: int, cooldown: Time, length: Time)
    requires cooldown > 0 && length >= 0 && Within(k, cooldown, length)
    ensures k <= length / cooldown
  {
    var q := length / cooldown;
    assert length < (q + 1) * cooldown;
    assert k > q ==> k * cooldown >= (q + 1) * cooldown;
  }

  /** Starting from a closed breaker with no failures, whatever the endpoint and its deliveries have
      been through before, a run without a single success sends at most
      threshold + floor(T / cooldown) requests to the endpoint in any window of length T, however
      many deliveries, retries and redeliveries there are. The clock need not even be monotone. */
  lemma OutageRateBound(cfg: Settings, w: World, ops: seq<Op>, from: Time, length: Time)
    requires WellFormed(w) && w.breaker == FRESH && NoSuccess(ops)
    requires cfg.failureThreshold >= 1 && cfg.cooldown > 0 && length >= 0
    ensures CountIn(NewSends(cfg, w, ops), from, from + length)
            <= cfg.failureThreshold + length / cfg.cooldown
  {
    var h := NewSends(cfg, w, ops);
    var k := CountIn(h, from, from + length) - cfg.failureThreshold;
    OutageIsSpaced(cfg, w, ops);
    SpacedCount(h, cfg.failureThreshold, cfg.cooldown, from, from + length);
    if |h| < cfg.failureThreshold || h[|h| - 1].at < from {
      WithinWeaken(0, k, cfg.cooldown, length);
    }
    WithinDivides(k, cfg.cooldown, length);
  }
}
