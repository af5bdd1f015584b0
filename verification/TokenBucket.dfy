/** The per-tenant rate limiter: one atomic script over a stored bucket that may expire. A request
    is stamped by the clock of the replica that sends it; the store expires keys on a clock of its
    own. Times are seconds and amounts are tokens, both real. */
module TokenBucket {
  import opened Prelude

  datatype Limits = Limits(rate: real, burst: nat)

  datatype Bucket = Bucket(tokens: real, updatedAt: real)

  datatype Decision = Decision(allowed: bool, retryAfter: real, remaining: real)

  datatype Request = Request(now: real, cost: real)

  function MinReal(a: real, b: real): real { if a <= b then a else b }

  /** The tokens refilled between two instants. */
  function Gain(l: Limits, from: real, to: real): real { (to - from) * l.rate }

  lemma GainAdds(l: Limits, from: real, mid: real, to: real)
    ensures Gain(l, from, mid) + Gain(l, mid, to) == Gain(l, from, to)
  {
  }

  lemma GainGrows(l: Limits, from: real, to: real, later: real)
    requires l.rate > 0.0 && from <= to <= later
    ensures 0.0 <= Gain(l, from, to) <= Gain(l, from, later)
  {
    GainAdds(l, from, to, later);
    NonnegativeProduct(to - from, l.rate);
    NonnegativeProduct(later - to, l.rate);
  }

  lemma NonnegativeProduct(a: real, b: real)
    requires a >= 0.0 && b >= 0.0
    ensures a * b >= 0.0
  {
  }

  lemma PositiveProduct(a: real, b: real)
    requires a > 0.0 && b > 0.0
    ensures a * b > 0.0
  {
  }

  /** The tokens of a forward step of the stamps; a step back refills nothing. */
  function StepGain(l: Limits, from: real, to: real): real {
    if from < to then Gain(l, from, to) else 0.0
  }

  /** The tokens a request at `now` finds: a missing bucket is full. */
  function Level(l: Limits, b: Option<Bucket>, now: real): real {
    match b
    case None => l.burst as real
    case Some(k) => MinReal(l.burst as real, k.tokens + StepGain(l, k.updatedAt, now))
  }

  /** The decision on a bucket, stored or missing. */
  function Decide(l: Limits, b: Option<Bucket>, r: Request): Decision
    requires l.rate > 0.0
  {
    var level := Level(l, b, r.now);
    if level >= r.cost then Decision(true, 0.0, level - r.cost)
    else Decision(false, (r.cost - level) / l.rate, level)
  }

  function Next(l: Limits, b: Option<Bucket>, r: Request): Option<Bucket>
    requires l.rate > 0.0
  {
    Some(Bucket(Decide(l, b, r).remaining, r.now))
  }

  /** The time to live the script sets, in seconds. */
  function Ttl(l: Limits): real
    requires l.rate > 0.0
  {
    (-(-(l.burst as real) / l.rate).Floor + 1) as real
  }

  predicate InRange(l: Limits, b: Option<Bucket>) {
    b.Some? ==> 0.0 <= b.value.tokens <= l.burst as real
  }

  // ---------------------------------------------------------------- the stored bucket

  /** What the key holds, and the store's own time at which it expires. */
  datatype Stored = Stored(bucket: Bucket, expiresAt: real)

  /** The bucket a read at the store's time `server` finds: a key is gone once that time has passed
      its expiry. */
  function Found(s: Option<Stored>, server: real): Option<Bucket> {
    if s.Some? && server <= s.value.expiresAt then Some(s.value.bucket) else None
  }

  lemma StepGainIsNonnegative(l: Limits, from: real, to: real)
    requires l.rate > 0.0
    ensures StepGain(l, from, to) >= 0.0
  {
    if from < to { GainGrows(l, from, to, to); }
  }

  lemma LevelInRange(l: Limits, b: Option<Bucket>, now: real)
    requires l.rate > 0.0 && InRange(l, b)
    ensures 0.0 <= Level(l, b, now) <= l.burst as real
  {
    if b.Some? { StepGainIsNonnegative(l, b.value.updatedAt, now); }
  }

  /** The bucket's hash in Redis. */
  class BucketStore {
    const limits: Limits
    var stored: Option<Stored>

    ghost predicate Valid()
      reads this
    {
      limits.rate > 0.0 && (stored.Some? ==> InRange(limits, Some(stored.value.bucket)))
    }

    constructor (limits: Limits)
      requires limits.rate > 0.0
      ensures Valid() && stored == None && this.limits == limits
    {
      this.limits := limits;
      stored := None;
    }

    /** The script: `now` is the caller's stamp, `server` the store's time. An expired hash reads
        as missing, whatever the stamps say. */
    method Allow(now: real, cost: real, server: real) returns (d: Decision)
      requires Valid() && cost >= 0.0
      modifies this
      ensures Valid()
      ensures d == Decide(limits, Found(old(stored), server), Request(now, cost))
      ensures stored == Some(Stored(Bucket(d.remaining, now), server + Ttl(limits)))
      ensures 0.0 <= d.remaining <= limits.burst as real
      ensures d.retryAfter >= 0.0
    {
      var burst := limits.burst as real;
      var tokens, updatedAt := burst, now;
      if stored.Some? && server <= stored.value.expiresAt {
        tokens, updatedAt := stored.value.bucket.tokens, stored.value.bucket.updatedAt;
      }
      LevelInRange(limits, Found(stored, server), now);

      var elapsed := now - updatedAt;
      if elapsed < 0.0 {
        elapsed := 0.0;
      }
      assert elapsed * limits.rate == StepGain(limits, updatedAt, now);
      tokens := MinReal(burst, tokens + elapsed * limits.rate);
      assert tokens == Level(limits, Found(stored, server), now);

      var allowed, retryAfter := false, 0.0;
      if tokens >= cost {
        tokens := tokens - cost;
        allowed := true;
      } else {
        retryAfter := (cost - tokens) / limits.rate;
      }
      stored := Some(Stored(Bucket(tokens, now), server + Ttl(limits)));
      return Decision(allowed, retryAfter, tokens);
    }
  }

  // ---------------------------------------------------------------- sequences of requests

  /** The bucket after some requests, in a store that never expires it. */
  function After(l: Limits, b: Option<Bucket>, rs: seq<Request>): Option<Bucket>
    requires l.rate > 0.0
  {
    if rs == [] then b else Next(l, After(l, b, rs[..|rs| - 1]), rs[|rs| - 1])
  }

  /** The cost admitted inside the closed window [from, to]. */
  function AdmittedIn(l: Limits, b: Option<Bucket>, rs: seq<Request>, from: real, to: real): real
    requires l.rate > 0.0
  {
    if rs == [] then 0.0
    else
      var last := rs[|rs| - 1];
      AdmittedIn(l, b, rs[..|rs| - 1], from, to)
      + (if from <= last.now <= to && Decide(l, After(l, b, rs[..|rs| - 1]), last).allowed then last.cost else 0.0)
  }

  ghost predicate Costs(rs: seq<Request>) {
    forall i | 0 <= i < |rs| :: rs[i].cost >= 0.0
  }

  /** Requests whose timestamps never step back. */
  ghost predicate Requests(rs: seq<Request>) {
    Costs(rs) && forall i, j | 0 <= i < j < |rs| :: rs[i].now <= rs[j].now
  }

  lemma {:induction false} AfterInRange(l: Limits, b: Option<Bucket>, rs: seq<Request>)
    requires l.rate > 0.0 && InRange(l, b) && Costs(rs)
    ensures InRange(l, After(l, b, rs))
    ensures rs != [] ==> After(l, b, rs).Some? && After(l, b, rs).value.updatedAt == rs[|rs| - 1].now
  {
    if rs != [] {
      AfterInRange(l, b, rs[..|rs| - 1]);
      LevelInRange(l, After(l, b, rs[..|rs| - 1]), rs[|rs| - 1].now);
    }
  }

  // ---------------------------------------------------------------- retry-after

  ghost predicate AllDenied(l: Limits, b: Option<Bucket>, rs: seq<Request>)
    requires l.rate > 0.0
  {
    forall i | 0 <= i < |rs| :: !Decide(l, After(l, b, rs[..i]), rs[i]).allowed
  }

  /** A denied request changes nothing that a later request can see. */
  lemma DenialIsInvisible(l: Limits, b: Option<Bucket>, r: Request, now: real)
    requires l.rate > 0.0 && !Decide(l, b, r).allowed && r.now <= now
    requires b.Some? ==> b.value.updatedAt <= r.now
    ensures Level(l, Next(l, b, r), now) == Level(l, b, now)
  {
    GainGrows(l, r.now, now, now);
    if b.Some? {
      GainAdds(l, b.value.updatedAt, r.now, now);
    }
  }

  lemma {:induction false} DenialsAreInvisible(l: Limits, b: Option<Bucket>, rs: seq<Request>, now: real)
    requires l.rate > 0.0 && InRange(l, b) && Requests(rs) && AllDenied(l, b, rs)
    requires b.Some? ==> (forall i | 0 <= i < |rs| :: b.value.updatedAt <= rs[i].now)
    requires forall i | 0 <= i < |rs| :: rs[i].now <= now
    ensures Level(l, After(l, b, rs), now) == Level(l, b, now)
  {
    if rs != [] {
      var before := rs[..|rs| - 1];
      forall i | 0 <= i < |before| ensures before[..i] == rs[..i] {}
      DenialsAreInvisible(l, b, before, now);
      AfterInRange(l, b, before);
      assert rs[..|rs| - 1] == before;
      DenialIsInvisible(l, After(l, b, before), rs[|rs| - 1], now);
    }
  }

  /** The retry-after of a denial is exact. However many denied probes of whatever cost come in
      between, a request for the same cost at `t` is allowed if and only if `t` is at least the
      moment the denial announced. */
  lemma RetryAfterIsExact(l: Limits, b: Option<Bucket>, r: Request, probes: seq<Request>, t: real)
    requires l.rate > 0.0 && InRange(l, b) && (b.Some? ==> b.value.updatedAt <= r.now)
    requires 0.0 <= r.cost <= l.burst as real && !Decide(l, b, r).allowed
    requires Requests(probes) && AllDenied(l, Next(l, b, r), probes)
    requires r.now <= t && forall i | 0 <= i < |probes| :: r.now <= probes[i].now <= t
    ensures Decide(l, After(l, Next(l, b, r), probes), Request(t, r.cost)).allowed
       <==> t >= r.now + Decide(l, b, r).retryAfter
  {
    var denied, level := Next(l, b, r), Level(l, b, r.now);
    LevelInRange(l, b, r.now);
    DenialsAreInvisible(l, denied, probes, t);
    LevelAfterDenial(l, level, r, t);
    RefillReaches(l, level, r, t);
  }

  lemma LevelAfterDenial(l: Limits, level: real, r: Request, t: real)
    requires l.rate > 0.0 && r.now <= t
    ensures Level(l, Some(Bucket(level, r.now)), t) == MinReal(l.burst as real, level + Gain(l, r.now, t))
  {
  }

  /** When an uncapped refill reaches the cost. */
  lemma RefillReaches(l: Limits, level: real, r: Request, t: real)
    requires l.rate > 0.0 && r.now <= t && level < r.cost <= l.burst as real
    ensures MinReal(l.burst as real, level + Gain(l, r.now, t)) >= r.cost <==> t >= r.now + (r.cost - level) / l.rate
  {
    var wait := (r.cost - level) / l.rate;
    assert wait * l.rate == r.cost - level;
    assert Gain(l, r.now, t) - (r.cost - level) == (t - r.now - wait) * l.rate;
    if t - r.now - wait >= 0.0 {
      NonnegativeProduct(t - r.now - wait, l.rate);
    } else {
      assert (t - r.now - wait) * l.rate < 0.0;
    }
  }

  /** In particular, probing for the same cost too early is denied every single time. */
  lemma {:induction false} EarlyProbesAreDenied(l: Limits, b: Option<Bucket>, r: Request, probes: seq<Request>)
    requires l.rate > 0.0 && InRange(l, b) && (b.Some? ==> b.value.updatedAt <= r.now)
    requires 0.0 <= r.cost <= l.burst as real && !Decide(l, b, r).allowed
    requires Requests(probes)
    requires forall i | 0 <= i < |probes| ::
               probes[i].cost == r.cost && r.now <= probes[i].now < r.now + Decide(l, b, r).retryAfter
    ensures AllDenied(l, Next(l, b, r), probes)
  {
    if probes != [] {
      var n := |probes| - 1;
      EarlyProbesAreDenied(l, b, r, probes[..n]);
      RetryAfterIsExact(l, b, r, probes[..n], probes[n].now);
      DeniedAppend(l, Next(l, b, r), probes[..n], probes[n]);
      assert probes[..n] + [probes[n]] == probes;
    }
  }

  lemma DeniedAppend(l: Limits, b: Option<Bucket>, rs: seq<Request>, r: Request)
    requires l.rate > 0.0 && AllDenied(l, b, rs) && !Decide(l, After(l, b, rs), r).allowed
    ensures AllDenied(l, b, rs + [r])
  {
    var all := rs + [r];
    forall i | 0 <= i < |all| ensures !Decide(l, After(l, b, all[..i]), all[i]).allowed {
      if i < |rs| {
        assert all[..i] == rs[..i];
      } else {
        assert all[..i] == rs;
      }
    }
  }
}
