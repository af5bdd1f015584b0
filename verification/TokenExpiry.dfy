/** The rate limiter over its real store, which expires the bucket's key on its own clock while
    requests refill it on the stamps of the replicas. Neither clock is tied to the other. */
module TokenExpiry {
  import opened Prelude
  import opened TokenBucket
  import opened TokenWindows

  /** A run of the script, at the store's time `server`. */
  datatype Call = Call(request: Request, server: real)

  function Write(l: Limits, s: Option<Stored>, c: Call): Stored
    requires l.rate > 0.0
  {
    Stored(Next(l, Found(s, c.server), c.request).value, c.server + Ttl(l))
  }

  /** What the key holds after some calls, the first of which finds no key. */
  function Kept(l: Limits, cs: seq<Call>): Option<Stored>
    requires l.rate > 0.0
  {
    if cs == [] then None else Some(Write(l, Kept(l, cs[..|cs| - 1]), cs[|cs| - 1]))
  }

  /** The decision of the i-th call. */
  function Served(l: Limits, cs: seq<Call>, i: nat): Decision
    requires l.rate > 0.0 && i < |cs|
  {
    Decide(l, Found(Kept(l, cs[..i]), cs[i].server), cs[i].request)
  }

  /** The cost admitted inside the closed window [from, to] of stamps. */
  function Admits(l: Limits, cs: seq<Call>, from: real, to: real): real
    requires l.rate > 0.0
  {
    if cs == [] then 0.0
    else
      var n := |cs| - 1;
      Admits(l, cs[..n], from, to)
      + (if In(cs[n].request.now, from, to) && Served(l, cs, n).allowed then cs[n].request.cost else 0.0)
  }

  function RequestsOf(cs: seq<Call>): (rs: seq<Request>)
    ensures |rs| == |cs|
  {
    seq(|cs|, i requires 0 <= i < |cs| => cs[i].request)
  }

  /** Calls with these stamps, at these instants of the store. */
  ghost predicate Timed(cs: seq<Call>, ts: seq<real>, ss: seq<real>) {
    |cs| == |ts| == |ss|
    && forall i | 0 <= i < |cs| :: cs[i].request.now == ts[i] && cs[i].server == ss[i] && cs[i].request.cost >= 0.0
  }

  // ---------------------------------------------------------------- when eviction shows

  /** The decision of a store that never expires the bucket. */
  function Remembered(l: Limits, cs: seq<Call>, i: nat): Decision
    requires l.rate > 0.0 && i < |cs|
  {
    Decide(l, After(l, None, RequestsOf(cs)[..i]), cs[i].request)
  }

  /** Whatever the requests cost, no expiry changes a decision. */
  ghost predicate Invisible(l: Limits, ts: seq<real>, ss: seq<real>)
    requires l.rate > 0.0
  {
    forall cs, i: nat | Timed(cs, ts, ss) && i < |cs| :: Served(l, cs, i) == Remembered(l, cs, i)
  }

  /** Whenever the key expires between two calls, the stamps in between refill the whole burst. */
  ghost predicate KeepsPace(l: Limits, ts: seq<real>, ss: seq<real>)
    requires l.rate > 0.0 && |ts| == |ss|
  {
    forall i: nat | 0 < i < |ts| :: InTime(l, ts, ss, i)
  }

  predicate InTime(l: Limits, ts: seq<real>, ss: seq<real>, i: nat)
    requires l.rate > 0.0 && 0 < i < |ts| == |ss|
  {
    ss[i] > ss[i - 1] + Ttl(l) ==> StepGain(l, ts[i - 1], ts[i]) >= l.burst as real
  }

  /** The same for every rate and every burst: the stamps advance by at least the store's advance,
      rounded up, less two seconds. */
  ghost predicate PaceKept(ts: seq<real>, ss: seq<real>)
    requires |ts| == |ss|
  {
    forall i: nat | 0 < i < |ts| :: PaceAt(ts, ss, i)
  }

  predicate PaceAt(ts: seq<real>, ss: seq<real>, i: nat)
    requires 0 < i < |ts| == |ss|
  {
    Advance(ts[i - 1], ts[i]) >= (Ceiling(ss[i] - ss[i - 1]) - 2) as real
  }

  function Advance(from: real, to: real): real { if from < to then to - from else 0.0 }

  function Ceiling(x: real): int { -((-x).Floor) }

  lemma LastCall(l: Limits, cs: seq<Call>, n: nat, from: real, to: real)
    requires l.rate > 0.0 && n < |cs|
    ensures Kept(l, cs[..n + 1]) == Some(Write(l, Kept(l, cs[..n]), cs[n]))
    ensures Admits(l, cs[..n + 1], from, to)
         == Admits(l, cs[..n], from, to)
            + (if In(cs[n].request.now, from, to) && Served(l, cs, n).allowed then cs[n].request.cost else 0.0)
    ensures After(l, None, RequestsOf(cs)[..n + 1]) == Next(l, After(l, None, RequestsOf(cs)[..n]), cs[n].request)
  {
    assert cs[..n + 1][..n] == cs[..n] && cs[..n + 1][n] == cs[n];
    var rs := RequestsOf(cs);
    assert rs[..n + 1][..n] == rs[..n] && rs[..n + 1][n] == rs[n];
  }

  /** A bucket that expired after a full refill is missed by nobody. */
  lemma FullAgain(l: Limits, s: Stored, now: real, server: real)
    requires l.rate > 0.0 && InRange(l, Some(s.bucket))
    requires server > s.expiresAt ==> StepGain(l, s.bucket.updatedAt, now) >= l.burst as real
    ensures Level(l, Found(Some(s), server), now) == Level(l, Some(s.bucket), now)
  {
  }

  /** The store holds the bucket of a store that never expires it, and an expired bucket would have
      been full. */
  lemma {:induction false} KeepsTheBucket(l: Limits, cs: seq<Call>, ts: seq<real>, ss: seq<real>, n: nat)
    requires l.rate > 0.0 && Timed(cs, ts, ss) && KeepsPace(l, ts, ss) && n <= |cs|
    ensures var s, b := Kept(l, cs[..n]), After(l, None, RequestsOf(cs)[..n]);
            && s.Some? == b.Some? == (n > 0)
            && (n > 0 ==> s.value == Stored(b.value, ss[n - 1] + Ttl(l)))
            && (n < |cs| ==> Level(l, Found(s, ss[n]), ts[n]) == Level(l, b, ts[n]))
  {
    if n > 0 {
      KeepsTheBucket(l, cs, ts, ss, n - 1);
      LastCall(l, cs, n - 1, 0.0, 0.0);
      var rs := RequestsOf(cs);
      AfterInRange(l, None, rs[..n]);
      if n < |cs| {
        assert InTime(l, ts, ss, n);
        FullAgain(l, Kept(l, cs[..n]).value, ts[n], ss[n]);
      }
    }
  }

  /** Only full buckets so far. */
  predicate Full(l: Limits, b: Option<Bucket>) { b.Some? ==> b.value.tokens == l.burst as real }

  lemma FullLevel(l: Limits, b: Option<Bucket>, now: real)
    requires l.rate > 0.0 && Full(l, b)
    ensures Level(l, b, now) == l.burst as real
  {
    if b.Some? { StepGainIsNonnegative(l, b.value.updatedAt, now); }
  }

  /** Two bursts, one at call i - 1 and one at call i, and nothing else. */
  function TwoBursts(l: Limits, ts: seq<real>, ss: seq<real>, i: nat): (cs: seq<Call>)
    requires |ts| == |ss|
    ensures Timed(cs, ts, ss)
  {
    assert l.burst as real >= 0.0;
    seq(|ts|, k requires 0 <= k < |ts| =>
      Call(Request(ts[k], if k == i - 1 || k == i then l.burst as real else 0.0), ss[k]))
  }

  lemma {:induction false} FullBefore(l: Limits, ts: seq<real>, ss: seq<real>, i: nat, n: nat)
    requires l.rate > 0.0 && |ts| == |ss| && n < i < |ts|
    ensures var cs := TwoBursts(l, ts, ss, i);
            var s := Kept(l, cs[..n]);
            Full(l, if s.Some? then Some(s.value.bucket) else None) && Full(l, After(l, None, RequestsOf(cs)[..n]))
  {
    if n > 0 {
      FullBefore(l, ts, ss, i, n - 1);
      var cs := TwoBursts(l, ts, ss, i);
      LastCall(l, cs, n - 1, 0.0, 0.0);
      FullLevel(l, Found(Kept(l, cs[..n - 1]), ss[n - 1]), ts[n - 1]);
      FullLevel(l, After(l, None, RequestsOf(cs)[..n - 1]), ts[n - 1]);
    }
  }

  /** When the key expires before the burst is refilled, the second burst is admitted, and a store
      that never expires it would have denied it. */
  lemma BothBurstsAdmitted(l: Limits, ts: seq<real>, ss: seq<real>, i: nat)
    requires l.rate > 0.0 && 0 < i < |ts| == |ss| && !InTime(l, ts, ss, i)
    ensures var cs := TwoBursts(l, ts, ss, i);
            Served(l, cs, i - 1).allowed && Served(l, cs, i).allowed && !Remembered(l, cs, i).allowed
  {
    var cs := TwoBursts(l, ts, ss, i);
    FullBefore(l, ts, ss, i, i - 1);
    LastCall(l, cs, i - 1, 0.0, 0.0);
    FullLevel(l, Found(Kept(l, cs[..i - 1]), ss[i - 1]), ts[i - 1]);
    FullLevel(l, After(l, None, RequestsOf(cs)[..i - 1]), ts[i - 1]);
  }

  /** Exactly when expiry is invisible, for given limits and two clocks. */
  lemma InvisibleExactly(l: Limits, ts: seq<real>, ss: seq<real>)
    requires l.rate > 0.0 && |ts| == |ss|
    ensures Invisible(l, ts, ss) <==> KeepsPace(l, ts, ss)
  {
    if KeepsPace(l, ts, ss) {
      forall cs, i: nat | Timed(cs, ts, ss) && i < |cs| ensures Served(l, cs, i) == Remembered(l, cs, i) {
        KeepsTheBucket(l, cs, ts, ss, i);
      }
    } else {
      var i: nat :| 0 < i < |ts| && !InTime(l, ts, ss, i);
      BothBurstsAdmitted(l, ts, ss, i);
    }
  }

  // ---------------------------------------------------------------- for every limit at once

  /** The time the burst takes to refill. */
  function RefillTime(l: Limits): real
    requires l.rate > 0.0
  {
    (l.burst as real) / l.rate
  }

  lemma NegatedQuotient(a: real, b: real)
    requires b > 0.0
    ensures (-a) / b == -(a / b)
  {
  }

  lemma RoundsUp(time: real, server: real)
    requires server > (Ceiling(time) + 1) as real
    ensures time <= (Ceiling(server) - 2) as real
  {
    assert Ceiling(server) > Ceiling(time) + 1;
  }

  lemma TtlRoundsUp(l: Limits, server: real)
    requires l.rate > 0.0 && server > Ttl(l)
    ensures RefillTime(l) <= (Ceiling(server) - 2) as real
  {
    NegatedQuotient(l.burst as real, l.rate);
    RoundsUp(RefillTime(l), server);
  }

  lemma RefillsBurst(l: Limits, advance: real)
    requires l.rate > 0.0 && advance >= RefillTime(l)
    ensures advance * l.rate >= l.burst as real
  {
    var spare := advance - RefillTime(l);
    NonnegativeProduct(spare, l.rate);
    Distributes(spare, RefillTime(l), l.rate);
  }

  lemma WholeFloor(n: int)
    ensures (n as real).Floor == n
  {
  }

  lemma OverOne(x: real)
    ensures x / 1.0 == x
  {
  }

  lemma UnitLimits(burst: nat)
    ensures Ttl(Limits(1.0, burst)) == (burst + 1) as real
  {
    var negated := 0 - burst;
    OverOne(-(burst as real));
    WholeFloor(negated);
    assert -(burst as real) == negated as real;
  }

  lemma StepGainIsAdvance(l: Limits, from: real, to: real)
    ensures StepGain(l, from, to) == Advance(from, to) * l.rate
  {
  }

  lemma LatePace(l: Limits, ts: seq<real>, ss: seq<real>, i: nat)
    requires l.rate > 0.0 && 0 < i < |ts| == |ss| && PaceAt(ts, ss, i)
    ensures InTime(l, ts, ss, i)
  {
    if ss[i] > ss[i - 1] + Ttl(l) {
      TtlRoundsUp(l, ss[i] - ss[i - 1]);
      RefillsBurst(l, Advance(ts[i - 1], ts[i]));
      StepGainIsAdvance(l, ts[i - 1], ts[i]);
    }
  }

  /** Too slow stamps show for a rate of one and the burst that the key just outlives. */
  lemma SlowPace(ts: seq<real>, ss: seq<real>, i: nat) returns (l: Limits)
    requires 0 < i < |ts| == |ss| && !PaceAt(ts, ss, i)
    ensures l.rate > 0.0 && !InTime(l, ts, ss, i)
  {
    l := Limits(1.0, Ceiling(ss[i] - ss[i - 1]) - 2);
    UnitLimits(l.burst);
    StepGainIsAdvance(l, ts[i - 1], ts[i]);
  }

  /** Exactly which pairs of clocks never show an expiry, whatever the rate and the burst. */
  lemma PaceForAll(ts: seq<real>, ss: seq<real>)
    requires |ts| == |ss|
    ensures (forall l: Limits | l.rate > 0.0 :: KeepsPace(l, ts, ss)) <==> PaceKept(ts, ss)
  {
    if PaceKept(ts, ss) {
      forall l: Limits, i: nat | l.rate > 0.0 && 0 < i < |ts| ensures InTime(l, ts, ss, i) {
        LatePace(l, ts, ss, i);
      }
    } else {
      var i: nat :| 0 < i < |ts| && !PaceAt(ts, ss, i);
      var l := SlowPace(ts, ss, i);
      assert !KeepsPace(l, ts, ss);
    }
  }

  /** What the script's extra second buys: stamps that fall back by at most a second between two
      calls, measured against the store's clock, never show an expiry. */
  lemma ASecondOfSlack(ts: seq<real>, ss: seq<real>)
    requires |ts| == |ss| && forall i | 0 < i < |ts| :: ts[i] - ts[i - 1] >= ss[i] - ss[i - 1] - 1.0
    ensures PaceKept(ts, ss)
  {
  }

  // ---------------------------------------------------------------- the most a window can admit

  /** Requests that take whatever they find inside the window, and nothing outside it. */
  function Greedy(l: Limits, ts: seq<real>, ss: seq<real>, from: real, to: real, n: nat): (cs: seq<Call>)
    requires l.rate > 0.0 && |ts| == |ss| && n <= |ts|
    ensures |cs| == n
  {
    if n == 0 then []
    else
      var before := Greedy(l, ts, ss, from, to, n - 1);
      var level := Level(l, Found(Kept(l, before), ss[n - 1]), ts[n - 1]);
      before + [Call(Request(ts[n - 1], if In(ts[n - 1], from, to) then level else 0.0), ss[n - 1])]
  }

  /** Two stores written at the same instants, and what was admitted before: the second admitted no
      less, and counting what it has left, no less either. */
  ghost predicate Behind(a: Option<Stored>, admitted: real, b: Option<Stored>, most: real) {
    && admitted <= most
    && a.Some? == b.Some?
    && (a.Some? ==>
          && a.value.expiresAt == b.value.expiresAt
          && a.value.bucket.updatedAt == b.value.bucket.updatedAt
          && admitted + a.value.bucket.tokens <= most + b.value.bucket.tokens)
  }

  /** A call finds no more in the second store than the difference of what was admitted allows. */
  lemma LevelsBehind(l: Limits, a: Option<Stored>, admitted: real, b: Option<Stored>, most: real, c: Call)
    requires l.rate > 0.0 && Behind(a, admitted, b, most)
    ensures admitted + Level(l, Found(a, c.server), c.request.now) <= most + Level(l, Found(b, c.server), c.request.now)
  {
  }

  /** One more call: whatever `c` asks for, `g` takes everything inside the window. */
  lemma StaysBehind(l: Limits, a: Option<Stored>, admitted: real, b: Option<Stored>, most: real,
                    c: Call, g: Call, counts: bool)
    requires l.rate > 0.0 && Behind(a, admitted, b, most) && c.request.cost >= 0.0
    requires g.server == c.server && g.request.now == c.request.now
    requires var level := Level(l, Found(b, c.server), c.request.now);
             level >= 0.0 && g.request.cost == if counts then level else 0.0
    ensures Behind(Some(Write(l, a, c)),
                   admitted + (if counts && Decide(l, Found(a, c.server), c.request).allowed then c.request.cost else 0.0),
                   Some(Write(l, b, g)), most + g.request.cost)
  {
    LevelsBehind(l, a, admitted, b, most, c);
  }

  lemma {:induction false} GreedyCalls(l: Limits, ts: seq<real>, ss: seq<real>, from: real, to: real, n: nat)
    requires l.rate > 0.0 && |ts| == |ss| && n <= |ts|
    ensures Timed(Greedy(l, ts, ss, from, to, n), ts[..n], ss[..n])
    ensures var s := Kept(l, Greedy(l, ts, ss, from, to, n));
            s.Some? ==> InRange(l, Some(s.value.bucket))
  {
    if n > 0 {
      GreedyCalls(l, ts, ss, from, to, n - 1);
      var gs := Greedy(l, ts, ss, from, to, n);
      assert gs[..n - 1] == Greedy(l, ts, ss, from, to, n - 1);
      LevelInRange(l, Found(Kept(l, gs[..n - 1]), ss[n - 1]), ts[n - 1]);
    }
  }

  /** Taking everything inside the window and nothing outside it admits the most. */
  lemma {:induction false} GreedyKeepsAhead(l: Limits, cs: seq<Call>, ts: seq<real>, ss: seq<real>, from: real, to: real, n: nat)
    requires l.rate > 0.0 && Timed(cs, ts, ss) && n <= |cs|
    ensures var gs := Greedy(l, ts, ss, from, to, n);
            Behind(Kept(l, cs[..n]), Admits(l, cs[..n], from, to), Kept(l, gs), Admits(l, gs, from, to))
  {
    if n > 0 {
      var gs := Greedy(l, ts, ss, from, to, n);
      var before := Greedy(l, ts, ss, from, to, n - 1);
      GreedyKeepsAhead(l, cs, ts, ss, from, to, n - 1);
      GreedyCalls(l, ts, ss, from, to, n - 1);
      assert gs[..n - 1] == before && gs[..n] == gs;
      LastCall(l, cs, n - 1, from, to);
      LastCall(l, gs, n - 1, from, to);
      LevelInRange(l, Found(Kept(l, before), ss[n - 1]), ts[n - 1]);
      StaysBehind(l, Kept(l, cs[..n - 1]), Admits(l, cs[..n - 1], from, to), Kept(l, before),
                  Admits(l, before, from, to), cs[n - 1], gs[n - 1], In(ts[n - 1], from, to));
    }
  }

  // ---------------------------------------------------------------- the window bound

  /** The promise for given limits: in a window of length T, at most burst + rate * T. */
  ghost predicate Keeps(l: Limits, ts: seq<real>, ss: seq<real>)
    requires l.rate > 0.0
  {
    forall cs, from, to | Timed(cs, ts, ss) && from <= to ::
      Admits(l, cs, from, to) <= l.burst as real + Gain(l, from, to)
  }

  /** The most that calls on these two clocks can be granted in a window, whatever they cost. */
  function Most(l: Limits, ts: seq<real>, ss: seq<real>, from: real, to: real): real
    requires l.rate > 0.0 && |ts| == |ss|
  {
    Admits(l, Greedy(l, ts, ss, from, to, |ts|), from, to)
  }

  /** For any two clocks and any limits: no costs are granted more than `Most`, some are granted
      exactly that, so the promise is kept exactly when no window's `Most` exceeds it. */
  lemma MostIsExact(l: Limits, ts: seq<real>, ss: seq<real>)
    requires l.rate > 0.0 && |ts| == |ss|
    ensures forall from, to :: Timed(Greedy(l, ts, ss, from, to, |ts|), ts, ss)
    ensures forall cs, from, to | Timed(cs, ts, ss) :: Admits(l, cs, from, to) <= Most(l, ts, ss, from, to)
    ensures Keeps(l, ts, ss) <==>
              forall from, to | from <= to :: Most(l, ts, ss, from, to) <= l.burst as real + Gain(l, from, to)
  {
    assert ts[..|ts|] == ts && ss[..|ss|] == ss;
    forall from, to ensures Timed(Greedy(l, ts, ss, from, to, |ts|), ts, ss) {
      GreedyCalls(l, ts, ss, from, to, |ts|);
    }
    forall cs, from, to | Timed(cs, ts, ss) ensures Admits(l, cs, from, to) <= Most(l, ts, ss, from, to) {
      GreedyKeepsAhead(l, cs, ts, ss, from, to, |cs|);
      assert cs[..|cs|] == cs;
    }
  }

  /** While no expiry shows, the window admits what a store that never expires would admit. */
  lemma {:induction false} AdmitsTheSame(l: Limits, cs: seq<Call>, ts: seq<real>, ss: seq<real>, from: real, to: real, n: nat)
    requires l.rate > 0.0 && Timed(cs, ts, ss) && KeepsPace(l, ts, ss) && n <= |cs|
    ensures Admits(l, cs[..n], from, to) == AdmittedIn(l, None, RequestsOf(cs)[..n], from, to)
  {
    if n > 0 {
      AdmitsTheSame(l, cs, ts, ss, from, to, n - 1);
      KeepsTheBucket(l, cs, ts, ss, n - 1);
      LastCall(l, cs, n - 1, from, to);
      LastRequest(l, None, RequestsOf(cs), n - 1, from, to);
    }
  }

  /** Stamps that never step back, and keep pace with the store's clock, keep the promise. */
  lemma PaceKeepsBound(l: Limits, cs: seq<Call>, ts: seq<real>, ss: seq<real>, from: real, to: real)
    requires l.rate > 0.0 && Timed(cs, ts, ss) && KeepsPace(l, ts, ss) && NothingRefilledTwice(ts) && from <= to
    ensures Admits(l, cs, from, to) <= l.burst as real + Gain(l, from, to)
  {
    AdmitsTheSame(l, cs, ts, ss, from, to, |cs|);
    assert cs[..|cs|] == cs && RequestsOf(cs)[..|cs|] == RequestsOf(cs);
    WindowKeeps(l, None, RequestsOf(cs), ts, from, to);
  }

  lemma {:induction false} AdmitsGrows(l: Limits, cs: seq<Call>, ts: seq<real>, ss: seq<real>, from: real, to: real, n: nat, m: nat)
    requires l.rate > 0.0 && Timed(cs, ts, ss) && n <= m <= |cs|
    ensures 0.0 <= Admits(l, cs[..n], from, to) <= Admits(l, cs[..m], from, to)
    decreases m
  {
    if m > 0 {
      LastCall(l, cs, m - 1, from, to);
      AdmitsGrows(l, cs, ts, ss, from, to, if n < m then n else n - 1, m - 1);
    }
  }

  lemma BothBurstsCount(l: Limits, ts: seq<real>, ss: seq<real>, i: nat, from: real, to: real)
    requires l.rate > 0.0 && 0 < i < |ts| == |ss| && !InTime(l, ts, ss, i)
    requires In(ts[i - 1], from, to) && In(ts[i], from, to)
    ensures Admits(l, TwoBursts(l, ts, ss, i), from, to) >= l.burst as real + l.burst as real
  {
    var cs := TwoBursts(l, ts, ss, i);
    BothBurstsAdmitted(l, ts, ss, i);
    LastCall(l, cs, i - 1, from, to);
    LastCall(l, cs, i, from, to);
    AdmitsGrows(l, cs, ts, ss, from, to, 0, i - 1);
    AdmitsGrows(l, cs, ts, ss, from, to, i + 1, |cs|);
    assert cs[..|cs|] == cs;
  }

  /** An expiry that shows lets two bursts into the window between two calls. */
  lemma SecondBurstBreaksBound(l: Limits, ts: seq<real>, ss: seq<real>, i: nat)
    requires l.rate > 0.0 && 0 < i < |ts| == |ss| && ts[i - 1] <= ts[i] && !InTime(l, ts, ss, i)
    ensures Admits(l, TwoBursts(l, ts, ss, i), ts[i - 1], ts[i]) > l.burst as real + Gain(l, ts[i - 1], ts[i])
  {
    BothBurstsCount(l, ts, ss, i, ts[i - 1], ts[i]);
    SteppedGain(l, ts[i - 1], ts[i]);
  }

  lemma SteppedGain(l: Limits, from: real, to: real)
    requires from <= to
    ensures StepGain(l, from, to) == Gain(l, from, to)
  {
  }

  lemma ForwardOnce(ts: seq<real>)
    requires Nondecreasing(ts)
    ensures NothingRefilledTwice(ts)
  {
    forall i, j | 0 <= i <= j < |ts| ensures Refilled(ts, i, j) <= Distance(ts[i], ts[j]) {
      ForwardClock(ts, i, j);
    }
  }

  /** For stamps that never step back, the window bound holds exactly when no expiry ever shows. */
  lemma WindowBound(l: Limits, ts: seq<real>, ss: seq<real>)
    requires l.rate > 0.0 && |ts| == |ss| && Nondecreasing(ts)
    ensures Keeps(l, ts, ss) <==> KeepsPace(l, ts, ss)
  {
    ForwardOnce(ts);
    if KeepsPace(l, ts, ss) {
      forall cs, from, to | Timed(cs, ts, ss) && from <= to
        ensures Admits(l, cs, from, to) <= l.burst as real + Gain(l, from, to)
      {
        PaceKeepsBound(l, cs, ts, ss, from, to);
      }
    } else {
      var i: nat :| 0 < i < |ts| && !InTime(l, ts, ss, i);
      SecondBurstBreaksBound(l, ts, ss, i);
    }
  }

  /** So the promise is kept for every rate and burst if and only if the stamps keep pace. */
  lemma WindowBoundForAll(ts: seq<real>, ss: seq<real>)
    requires |ts| == |ss| && Nondecreasing(ts)
    ensures (forall l: Limits | l.rate > 0.0 :: Keeps(l, ts, ss)) <==> PaceKept(ts, ss)
  {
    forall l: Limits | l.rate > 0.0 ensures Keeps(l, ts, ss) <==> KeepsPace(l, ts, ss) {
      WindowBound(l, ts, ss);
    }
    PaceForAll(ts, ss);
  }

  /** And stamps that keep pace but may step back keep the promise for every rate and burst if and
      only if nothing is refilled twice. */
  lemma BoundedExactlyInPace(ts: seq<real>, ss: seq<real>)
    requires |ts| == |ss| && PaceKept(ts, ss)
    ensures (forall l: Limits | l.rate > 0.0 :: Keeps(l, ts, ss)) <==> NothingRefilledTwice(ts)
  {
    PaceForAll(ts, ss);
    if NothingRefilledTwice(ts) {
      forall l: Limits, cs, from, to | l.rate > 0.0 && Timed(cs, ts, ss) && from <= to
        ensures Admits(l, cs, from, to) <= l.burst as real + Gain(l, from, to)
      {
        PaceKeepsBound(l, cs, ts, ss, from, to);
      }
    } else {
      var i, j :| 0 <= i <= j < |ts| && Refilled(ts, i, j) > Distance(ts[i], ts[j]);
      var l, rs, from, to := ProbeBreaks(ts, i, j);
      var cs := seq(|ts|, k requires 0 <= k < |ts| => Call(rs[k], ss[k]));
      assert RequestsOf(cs) == rs && Timed(cs, ts, ss);
      AdmitsTheSame(l, cs, ts, ss, from, to, |cs|);
      assert cs[..|cs|] == cs && rs[..|cs|] == rs;
    }
  }

  /** The promise fails under the default limits. A replica whose clock is a second and a half ahead
      drains the bucket at its stamp 100; the store expires the key five seconds later, and an
      accurate replica drains it again at 103.6, where eighteen tokens were refilled. */
  lemma SkewBreaksBound() returns (cs: seq<Call>)
    ensures |cs| == 2 && cs[0].request.now == 100.0 && cs[1].request.now == 103.6
    ensures cs[0].server == 98.5 && cs[1].server == 103.6
    ensures Admits(Limits(5.0, 20), cs, 100.0, 103.6) == 40.0 > 20.0 + Gain(Limits(5.0, 20), 100.0, 103.6)
  {
    var l := Limits(5.0, 20);
    cs := [Call(Request(100.0, 20.0), 98.5), Call(Request(103.6, 20.0), 103.6)];
    assert Ttl(l) == 5.0;
    assert cs[..0] == [] && cs[..1] == [cs[0]] && cs[..1][..0] == [];
    LastCall(l, cs, 0, 100.0, 103.6);
    LastCall(l, cs, 1, 100.0, 103.6);
    assert cs[..2] == cs;
  }

  /** A call that asks for what its level is known to cover is granted. */
  lemma Granted(l: Limits, cs: seq<Call>, n: nat, from: real, to: real)
    requires l.rate > 0.0 && n < |cs| && In(cs[n].request.now, from, to)
    requires Level(l, Found(Kept(l, cs[..n]), cs[n].server), cs[n].request.now) >= cs[n].request.cost
    ensures Admits(l, cs[..n + 1], from, to) == Admits(l, cs[..n], from, to) + cs[n].request.cost
  {
    LastCall(l, cs, n, from, to);
  }

  /** What a returning clock finds: at least the refill of the step, expired or not. */
  lemma RefillFound(l: Limits, s: Stored, c: Call, refill: real)
    requires l.rate > 0.0 && InRange(l, Some(s.bucket)) && s.bucket.updatedAt < c.request.now
    requires refill <= l.burst as real && refill <= Gain(l, s.bucket.updatedAt, c.request.now)
    ensures Level(l, Found(Some(s), c.server), c.request.now) >= refill
  {
  }

  lemma {:induction false} KeptInRange(l: Limits, cs: seq<Call>, n: nat)
    requires l.rate > 0.0 && n <= |cs| && forall i | 0 <= i < n :: cs[i].request.cost >= 0.0
    ensures Kept(l, cs[..n]).Some? == (n > 0)
    ensures n > 0 ==>
              var b := Kept(l, cs[..n]).value.bucket;
              b.updatedAt == cs[n - 1].request.now && InRange(l, Some(b))
  {
    if n > 0 {
      KeptInRange(l, cs, n - 1);
      LastCall(l, cs, n - 1, 0.0, 0.0);
      LevelInRange(l, Found(Kept(l, cs[..n - 1]), cs[n - 1].server), cs[n - 1].request.now);
    }
  }

  lemma ReturnIsGranted(l: Limits, cs: seq<Call>, from: real, to: real)
    requires l.rate > 0.0 && |cs| == 3 && In(cs[0].request.now, from, to) && In(cs[2].request.now, from, to)
    requires cs[0].request.cost == l.burst as real && cs[1].request.cost == 0.0
    requires Level(l, Found(Kept(l, cs[..2]), cs[2].server), cs[2].request.now) >= cs[2].request.cost
    ensures Admits(l, cs, from, to) == l.burst as real + cs[2].request.cost
  {
    Granted(l, cs, 0, from, to);
    LastCall(l, cs, 1, from, to);
    Granted(l, cs, 2, from, to);
    assert cs[..3] == cs;
  }

  /** The smallest failing shape for stamps, for every rate, every burst, every two instants and
      whatever the store expires: stamps that step back and return have the time in between refilled
      twice. */
  lemma ReturningClockBreaksBound(l: Limits, earlier: real, now: real, ss: seq<real>) returns (cs: seq<Call>)
    requires l.rate > 0.0 && l.burst > 0 && earlier < now && |ss| == 3
    ensures Timed(cs, [now, earlier, now], ss)
    ensures Admits(l, cs, now, now) > l.burst as real
  {
    PositiveProduct(now - earlier, l.rate);
    var burst, gain := l.burst as real, Gain(l, earlier, now);
    assert burst > 0.0 && gain > 0.0;
    var refill := MinReal(burst, gain);
    cs := [Call(Request(now, burst), ss[0]), Call(Request(earlier, 0.0), ss[1]), Call(Request(now, refill), ss[2])];
    KeptInRange(l, cs, 2);
    RefillFound(l, Kept(l, cs[..2]).value, cs[2], refill);
    ReturnIsGranted(l, cs, now, now);
  }

  // ---------------------------------------------------------------- retry-after over the store

  lemma {:induction false} AfterSplits(l: Limits, b: Option<Bucket>, rs: seq<Request>, more: seq<Request>)
    requires l.rate > 0.0
    ensures After(l, b, rs + more) == After(l, After(l, b, rs), more)
  {
    if more == [] {
      assert rs + more == rs;
    } else {
      var n := |more| - 1;
      AfterSplits(l, b, rs, more[..n]);
      assert (rs + more)[..|rs + more| - 1] == rs + more[..n];
    }
  }

  /** The requests between two calls, as a run of their own from the bucket the first one leaves. */
  lemma AfterFrom(l: Limits, rs: seq<Request>, i: nat, k: nat)
    requires l.rate > 0.0 && i < k <= |rs|
    ensures After(l, None, rs[..k]) == After(l, Next(l, After(l, None, rs[..i]), rs[i]), rs[i + 1..k])
  {
    AfterSplits(l, None, rs[..i + 1], rs[i + 1..k]);
    assert rs[..i + 1] + rs[i + 1..k] == rs[..k];
    LastRequest(l, None, rs, i, 0.0, 0.0);
  }

  lemma DeniedBetween(l: Limits, rs: seq<Request>, i: nat, j: nat)
    requires l.rate > 0.0 && i < j <= |rs|
    requires forall k: nat | i < k < j :: !Decide(l, After(l, None, rs[..k]), rs[k]).allowed
    ensures AllDenied(l, Next(l, After(l, None, rs[..i]), rs[i]), rs[i + 1..j])
  {
    var probes, b := rs[i + 1..j], Next(l, After(l, None, rs[..i]), rs[i]);
    forall k: nat | k < |probes| ensures !Decide(l, After(l, b, probes[..k]), probes[k]).allowed {
      var m := i + 1 + k;
      assert !Decide(l, After(l, None, rs[..m]), rs[m]).allowed;
      assert probes[..k] == rs[i + 1..m];
      AfterFrom(l, rs, i, m);
    }
  }

  lemma RequestsBetween(rs: seq<Request>, i: nat, j: nat)
    requires Requests(rs) && i < j < |rs|
    ensures Requests(rs[i + 1..j])
    ensures var probes := rs[i + 1..j];
            forall k | 0 <= k < |probes| :: rs[i].now <= probes[k].now <= rs[j].now
  {
  }

  lemma AnnouncedInMemory(l: Limits, rs: seq<Request>, i: nat, j: nat)
    requires l.rate > 0.0 && Requests(rs) && i < j < |rs| && rs[j].cost == rs[i].cost <= l.burst as real
    requires forall k: nat | i <= k < j :: !Decide(l, After(l, None, rs[..k]), rs[k]).allowed
    ensures Decide(l, After(l, None, rs[..j]), rs[j]).allowed
       <==> rs[j].now >= rs[i].now + Decide(l, After(l, None, rs[..i]), rs[i]).retryAfter
  {
    AfterInRange(l, None, rs[..i]);
    DeniedBetween(l, rs, i, j);
    AfterFrom(l, rs, i, j);
    RequestsBetween(rs, i, j);
    RetryAfterIsExact(l, After(l, None, rs[..i]), rs[i], rs[i + 1..j], rs[j].now);
  }

  /** The retry-after of a denied call is exact as long as no expiry shows: after denied calls of
      whatever cost, a call of the same cost is allowed if and only if its stamp is at least the
      moment announced. */
  lemma AnnouncedMomentIsExact(l: Limits, cs: seq<Call>, ts: seq<real>, ss: seq<real>, i: nat, j: nat)
    requires l.rate > 0.0 && Timed(cs, ts, ss) && KeepsPace(l, ts, ss) && Nondecreasing(ts) && i < j < |cs|
    requires cs[j].request.cost == cs[i].request.cost <= l.burst as real
    requires forall k: nat | i <= k < j :: !Served(l, cs, k).allowed
    ensures Served(l, cs, j).allowed <==> ts[j] >= ts[i] + Served(l, cs, i).retryAfter
  {
    var rs := RequestsOf(cs);
    forall k: nat | i <= k <= j ensures Decide(l, After(l, None, rs[..k]), rs[k]) == Served(l, cs, k) {
      KeepsTheBucket(l, cs, ts, ss, k);
    }
    AnnouncedInMemory(l, rs, i, j);
  }
}
