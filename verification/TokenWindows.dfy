/** How much a bucket that never expires admits in a window, for stamps that may step back. A
    request stamped earlier moves the bucket's clock back, so that time can be refilled twice. */
module TokenWindows {
  import opened Prelude
  import opened TokenBucket

  predicate In(t: real, from: real, to: real) { from <= t <= to }

  function Distance(a: real, b: real): real { if a <= b then b - a else a - b }

  /** The time refilled between requests i and j: the forward steps of the clock, added up. */
  function Refilled(ts: seq<real>, i: nat, j: nat): (r: real)
    requires i <= j < |ts|
    ensures r >= 0.0
    decreases j
  {
    if j == i then 0.0
    else Refilled(ts, i, j - 1) + (if ts[j - 1] < ts[j] then ts[j] - ts[j - 1] else 0.0)
  }

  /** Requests with these timestamps. */
  ghost predicate Stamped(rs: seq<Request>, ts: seq<real>) {
    |rs| == |ts| && Costs(rs) && forall i | 0 <= i < |rs| :: rs[i].now == ts[i]
  }

  /** The bound, whatever the rate, the burst, the stored bucket, the costs and the window. */
  ghost predicate Bounded(ts: seq<real>) {
    forall l: Limits, b, rs, from, to | l.rate > 0.0 && InRange(l, b) && Stamped(rs, ts) && from <= to ::
      AdmittedIn(l, b, rs, from, to) <= l.burst as real + Gain(l, from, to)
  }

  /** Between any two requests, no more time is refilled than lies between their timestamps. */
  ghost predicate NothingRefilledTwice(ts: seq<real>) {
    forall i, j | 0 <= i <= j < |ts| :: Refilled(ts, i, j) <= Distance(ts[i], ts[j])
  }

  // ---------------------------------------------------------------- such clocks keep the bound

  lemma {:induction false} NoneAdmitted(l: Limits, b: Option<Bucket>, rs: seq<Request>, from: real, to: real)
    requires l.rate > 0.0 && forall k | 0 <= k < |rs| :: !In(rs[k].now, from, to)
    ensures AdmittedIn(l, b, rs, from, to) == 0.0
  {
    if rs != [] { NoneAdmitted(l, b, rs[..|rs| - 1], from, to); }
  }

  /** What comes after the last request of the window does not count. */
  lemma {:induction false} AdmittedBy(l: Limits, b: Option<Bucket>, rs: seq<Request>, from: real, to: real, n: nat)
    requires l.rate > 0.0 && n <= |rs| && forall k | n <= k < |rs| :: !In(rs[k].now, from, to)
    ensures AdmittedIn(l, b, rs, from, to) == AdmittedIn(l, b, rs[..n], from, to)
  {
    if n < |rs| {
      AdmittedBy(l, b, rs[..|rs| - 1], from, to, n);
      assert rs[..|rs| - 1][..n] == rs[..n];
    } else {
      assert rs[..n] == rs;
    }
  }

  /** The same forward steps, counted in tokens. */
  function RefilledTokens(l: Limits, ts: seq<real>, i: nat, j: nat): real
    requires i <= j < |ts|
    decreases j
  {
    if j == i then 0.0 else RefilledTokens(l, ts, i, j - 1) + StepGain(l, ts[j - 1], ts[j])
  }

  lemma Distributes(a: real, b: real, rate: real)
    ensures (a + b) * rate == a * rate + b * rate
  {
  }

  lemma {:induction false} TokensOfTime(l: Limits, ts: seq<real>, i: nat, j: nat)
    requires i <= j < |ts|
    ensures RefilledTokens(l, ts, i, j) == Refilled(ts, i, j) * l.rate
    decreases j
  {
    if i < j {
      TokensOfTime(l, ts, i, j - 1);
      Distributes(Refilled(ts, i, j - 1), if ts[j - 1] < ts[j] then ts[j] - ts[j - 1] else 0.0, l.rate);
    }
  }

  /** Time refilled within the length of a window is worth at most the window's own gain. */
  lemma TokensWithin(l: Limits, ts: seq<real>, i: nat, j: nat, from: real, to: real)
    requires l.rate > 0.0 && i <= j < |ts| && Refilled(ts, i, j) <= to - from
    ensures RefilledTokens(l, ts, i, j) <= Gain(l, from, to)
  {
    TokensOfTime(l, ts, i, j);
    GainCovers(l, Refilled(ts, i, j), from, to);
  }

  lemma GainCovers(l: Limits, time: real, from: real, to: real)
    requires l.rate > 0.0 && time <= to - from
    ensures time * l.rate <= Gain(l, from, to)
  {
    var spare := to - from - time;
    NonnegativeProduct(spare, l.rate);
    Distributes(spare, time, l.rate);
    assert to - from == spare + time;
  }

  /** One more request, granted or not, inside the window or not. */
  lemma SpendStep(l: Limits, k: Option<Bucket>, r: Request, counts: bool, admitted: real, limit: real)
    requires l.rate > 0.0 && r.cost >= 0.0 && admitted + Level(l, k, r.now) <= limit
    ensures admitted + (if counts && Decide(l, k, r).allowed then r.cost else 0.0) + Next(l, k, r).value.tokens <= limit
  {
  }

  lemma LastRequest(l: Limits, b: Option<Bucket>, rs: seq<Request>, n: nat, from: real, to: real)
    requires l.rate > 0.0 && n < |rs|
    ensures After(l, b, rs[..n + 1]) == Next(l, After(l, b, rs[..n]), rs[n])
    ensures AdmittedIn(l, b, rs[..n + 1], from, to)
         == AdmittedIn(l, b, rs[..n], from, to)
            + (if In(rs[n].now, from, to) && Decide(l, After(l, b, rs[..n]), rs[n]).allowed then rs[n].cost else 0.0)
  {
    assert rs[..n + 1][..n] == rs[..n] && rs[..n + 1][n] == rs[n];
  }

  /** What is admitted in a window by the first n requests, and left after them, stays within a limit. */
  ghost predicate Within(l: Limits, b: Option<Bucket>, rs: seq<Request>, from: real, to: real, n: nat, limit: real)
    requires l.rate > 0.0 && 0 < n <= |rs|
  {
    After(l, b, rs[..n]).Some? && AdmittedIn(l, b, rs[..n], from, to) + After(l, b, rs[..n]).value.tokens <= limit
  }

  lemma FirstInWindow(l: Limits, b: Option<Bucket>, rs: seq<Request>, from: real, to: real, i: nat)
    requires l.rate > 0.0 && InRange(l, b) && Costs(rs) && i < |rs|
    requires forall k | 0 <= k < i :: !In(rs[k].now, from, to)
    ensures Within(l, b, rs, from, to, i + 1, l.burst as real)
  {
    var k := After(l, b, rs[..i]);
    AfterInRange(l, b, rs[..i]);
    NoneAdmitted(l, b, rs[..i], from, to);
    LevelInRange(l, k, rs[i].now);
    LastRequest(l, b, rs, i, from, to);
    SpendStep(l, k, rs[i], In(rs[i].now, from, to), 0.0, l.burst as real);
  }

  lemma NextInWindow(l: Limits, b: Option<Bucket>, rs: seq<Request>, from: real, to: real, n: nat, limit: real)
    requires l.rate > 0.0 && InRange(l, b) && Costs(rs) && 0 < n < |rs|
    requires Within(l, b, rs, from, to, n, limit)
    ensures Within(l, b, rs, from, to, n + 1, limit + StepGain(l, rs[n - 1].now, rs[n].now))
  {
    var k := After(l, b, rs[..n]);
    AfterInRange(l, b, rs[..n]);
    LastRequest(l, b, rs, n, from, to);
    SpendStep(l, k, rs[n], In(rs[n].now, from, to), AdmittedIn(l, b, rs[..n], from, to),
              limit + StepGain(l, rs[n - 1].now, rs[n].now));
  }

  /** From the first request of the window on, what is admitted and what is left never exceed the
      burst plus what was refilled since. */
  lemma {:induction false} AdmittedSince(l: Limits, b: Option<Bucket>, rs: seq<Request>, ts: seq<real>,
                                         from: real, to: real, i: nat, n: nat)
    requires l.rate > 0.0 && InRange(l, b) && Stamped(rs, ts) && i < n <= |rs|
    requires forall k | 0 <= k < i :: !In(ts[k], from, to)
    ensures Within(l, b, rs, from, to, n, l.burst as real + RefilledTokens(l, ts, i, n - 1))
    decreases n
  {
    if n == i + 1 {
      FirstInWindow(l, b, rs, from, to, i);
    } else {
      AdmittedSince(l, b, rs, ts, from, to, i, n - 1);
      NextInWindow(l, b, rs, from, to, n - 1, l.burst as real + RefilledTokens(l, ts, i, n - 2));
    }
  }

  /** The first and the last request of a window. */
  lemma {:induction false} WindowEnds(ts: seq<real>, from: real, to: real, m: nat) returns (i: nat, j: nat)
    requires m < |ts| && In(ts[m], from, to)
    ensures i <= j < |ts| && In(ts[i], from, to) && In(ts[j], from, to)
    ensures forall k | 0 <= k < i || j < k < |ts| :: !In(ts[k], from, to)
  {
    i, j := m, m;
    for k := 0 to m
      invariant i == m && forall h | 0 <= h < k :: !In(ts[h], from, to)
    {
      if In(ts[k], from, to) {
        i := k;
        break;
      }
    }
    for k := m to |ts|
      invariant m <= j < |ts| && j <= k && In(ts[j], from, to)
      invariant forall h | j < h < k :: !In(ts[h], from, to)
    {
      if In(ts[k], from, to) { j := k; }
    }
  }

  /** The requests from the first to the last in the window. */
  lemma WindowSpends(l: Limits, b: Option<Bucket>, rs: seq<Request>, ts: seq<real>, from: real, to: real, i: nat, j: nat)
    requires l.rate > 0.0 && InRange(l, b) && Stamped(rs, ts) && i <= j < |ts|
    requires forall k | 0 <= k < i || j < k < |ts| :: !In(ts[k], from, to)
    ensures AdmittedIn(l, b, rs, from, to) <= l.burst as real + RefilledTokens(l, ts, i, j)
  {
    AdmittedBy(l, b, rs, from, to, j + 1);
    AdmittedSince(l, b, rs, ts, from, to, i, j + 1);
    AfterInRange(l, b, rs[..j + 1]);
  }

  lemma WindowKeeps(l: Limits, b: Option<Bucket>, rs: seq<Request>, ts: seq<real>, from: real, to: real)
    requires NothingRefilledTwice(ts)
    requires l.rate > 0.0 && InRange(l, b) && Stamped(rs, ts) && from <= to
    ensures AdmittedIn(l, b, rs, from, to) <= l.burst as real + Gain(l, from, to)
  {
    if m :| 0 <= m < |ts| && In(ts[m], from, to) {
      var i, j := WindowEnds(ts, from, to, m);
      WindowSpends(l, b, rs, ts, from, to, i, j);
      TokensWithin(l, ts, i, j, from, to);
    } else {
      NoneAdmitted(l, b, rs, from, to);
      GainGrows(l, from, to, to);
    }
  }

  // ---------------------------------------------------------------- and no others do

  /** A burst at request i, everything refilled until request j at j, and nothing else. */
  function Probe(ts: seq<real>, i: nat, j: nat, burst: real, refill: real): (rs: seq<Request>)
    ensures |rs| == |ts|
  {
    seq(|ts|, k requires 0 <= k < |ts| => Request(ts[k], if k == i then burst else if k == j then refill else 0.0))
  }

  lemma {:induction false} RefilledGrows(ts: seq<real>, i: nat, k: nat, j: nat)
    requires i <= k <= j < |ts|
    ensures Refilled(ts, i, k) <= Refilled(ts, i, j)
    decreases j
  {
    if k < j { RefilledGrows(ts, i, k, j - 1); }
  }

  /** The bucket before and after the first n requests of the probe, and what they were granted. */
  ghost predicate ProbeAt(ts: seq<real>, i: nat, j: nat, l: Limits, n: nat, from: real, to: real)
    requires i < j < |ts| && n <= |ts| && l.rate > 0.0
  {
    var burst, refill := l.burst as real, Refilled(ts, i, j);
    var rs := Probe(ts, i, j, burst, refill)[..n];
    var k, admitted := After(l, None, rs), AdmittedIn(l, None, rs, from, to);
    if n <= i then (if n == 0 then k == None else k == Some(Bucket(burst, ts[n - 1]))) && admitted == 0.0
    else if n <= j then k == Some(Bucket(Refilled(ts, i, n - 1), ts[n - 1])) && admitted == burst
    else admitted == burst + refill
  }

  lemma {:induction false} ProbeRuns(ts: seq<real>, i: nat, j: nat, l: Limits, n: nat, from: real, to: real)
    requires i < j < |ts| && n <= |ts| && l.rate == 1.0 && Refilled(ts, i, j) < l.burst as real
    requires In(ts[i], from, to) && In(ts[j], from, to)
    ensures ProbeAt(ts, i, j, l, n, from, to)
  {
    if n > 0 {
      ProbeRuns(ts, i, j, l, n - 1, from, to);
      var all := Probe(ts, i, j, l.burst as real, Refilled(ts, i, j));
      assert all[..n][..n - 1] == all[..n - 1] && all[..n][n - 1] == all[n - 1];
      ProbeStep(ts, i, j, l, n - 1, from, to);
    }
  }

  lemma ProbeStep(ts: seq<real>, i: nat, j: nat, l: Limits, n: nat, from: real, to: real)
    requires i < j < |ts| && n < |ts| && l.rate == 1.0 && Refilled(ts, i, j) < l.burst as real
    requires In(ts[i], from, to) && In(ts[j], from, to)
    requires ProbeAt(ts, i, j, l, n, from, to)
    ensures ProbeAt(ts, i, j, l, n + 1, from, to)
  {
    var all := Probe(ts, i, j, l.burst as real, Refilled(ts, i, j));
    LastRequest(l, None, all, n, from, to);
    var k := After(l, None, all[..n]);
    if n <= i {
      FullStep(l, k, all[n]);
    } else if n <= j {
      RefilledGrows(ts, i, n, j);
      DrainedStep(l, k.value, all[n], Refilled(ts, i, n));
    }
  }

  /** A full bucket stays full until it is drained. */
  lemma FullStep(l: Limits, k: Option<Bucket>, r: Request)
    requires l.rate == 1.0 && (k.Some? ==> k.value.tokens == l.burst as real) && 0.0 <= r.cost <= l.burst as real
    ensures Decide(l, k, r) == Decision(true, 0.0, l.burst as real - r.cost)
  {
    if k.Some? && k.value.updatedAt <= r.now { GainIsTime(l, k.value.updatedAt, r.now); }
  }

  /** A bucket below its burst refills by exactly the forward step. */
  lemma DrainedStep(l: Limits, k: Bucket, r: Request, level: real)
    requires l.rate == 1.0 && 0.0 <= r.cost <= level < l.burst as real
    requires level == k.tokens + (if k.updatedAt < r.now then r.now - k.updatedAt else 0.0)
    ensures Decide(l, Some(k), r) == Decision(true, 0.0, level - r.cost)
  {
    GainIsTime(l, k.updatedAt, r.now);
  }

  lemma GainIsTime(l: Limits, from: real, to: real)
    requires l.rate == 1.0
    ensures Gain(l, from, to) == to - from
  {
  }

  lemma ProbeBreaks(ts: seq<real>, i: nat, j: nat)
    returns (l: Limits, rs: seq<Request>, from: real, to: real)
    requires i <= j < |ts| && Refilled(ts, i, j) > Distance(ts[i], ts[j])
    ensures l.rate > 0.0 && Stamped(rs, ts) && from <= to
    ensures AdmittedIn(l, None, rs, from, to) > l.burst as real + Gain(l, from, to)
  {
    var refill := Refilled(ts, i, j);
    l := Limits(1.0, refill.Floor + 1);
    rs := Probe(ts, i, j, l.burst as real, refill);
    from, to := if ts[i] <= ts[j] then ts[i] else ts[j], if ts[i] <= ts[j] then ts[j] else ts[i];
    ProbeRuns(ts, i, j, l, |ts|, from, to);
    assert rs[..|ts|] == rs;
    assert AdmittedIn(l, None, rs, from, to) == l.burst as real + refill;
  }

  /** Exactly which stamps keep the limiter's promise as long as nothing expires: the cost admitted
      in a window of length T is at most burst + rate * T, for every rate, burst, stored bucket,
      costs and window, if and only if between any two requests no more time is refilled than lies
      between their timestamps. */
  lemma BoundedExactly(ts: seq<real>)
    ensures Bounded(ts) <==> NothingRefilledTwice(ts)
  {
    if NothingRefilledTwice(ts) {
      forall l: Limits, b, rs, from, to | l.rate > 0.0 && InRange(l, b) && Stamped(rs, ts) && from <= to
        ensures AdmittedIn(l, b, rs, from, to) <= l.burst as real + Gain(l, from, to)
      {
        WindowKeeps(l, b, rs, ts, from, to);
      }
    } else {
      var i, j :| 0 <= i <= j < |ts| && Refilled(ts, i, j) > Distance(ts[i], ts[j]);
      var l, rs, from, to := ProbeBreaks(ts, i, j);
      assert InRange(l, None);
    }
  }

  ghost predicate Nondecreasing(ts: seq<real>) {
    forall i, j | 0 <= i < j < |ts| :: ts[i] <= ts[j]
  }

  /** Stamps that never step back refill nothing twice. */
  lemma {:induction false} ForwardClock(ts: seq<real>, i: nat, j: nat)
    requires Nondecreasing(ts) && i <= j < |ts|
    ensures Refilled(ts, i, j) == ts[j] - ts[i]
    decreases j
  {
    if i < j { ForwardClock(ts, i, j - 1); }
  }
}
