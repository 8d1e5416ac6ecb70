/** The adaptive concurrency limiter: `AdaptiveConcurrencyLimiter.acquire` and `release`, over real-valued
    latencies. Code between awaits is atomic, so a run is a sequence of calls. */
module Aimd {

  import opened Wrappers
  import opened Reals

  datatype Config = Config(minLimit: nat, maxLimit: nat, target: real, alpha: real, beta: real) {
    /** What a sensible configuration satisfies; the shipped one is (25, 500, 100.0, 2.0, 0.8). */
    predicate Valid() {
      && 0 < minLimit && 2 * minLimit <= maxLimit && 0.0 < target && 0.0 <= alpha && 0.0 < beta <= 1.0
    }
  }

  datatype Limiter = Limiter(limit: real, inFlight: int, rtt: real)

  /** Where every limiter starts: twice the minimum, and half the target latency. */
  function Initial(cfg: Config): Limiter { Limiter((2 * cfg.minLimit) as real, 0, cfg.target * 0.5) }

  predicate Admits(l: Limiter) { l.inFlight < l.limit.Floor }

  function Acquired(l: Limiter): Limiter { if Admits(l) then l.(inFlight := l.inFlight + 1) else l }

  /** The delay a refused caller is told to wait, in seconds. */
  function RetryAfter(l: Limiter): real { Round2(Max(0.05, (l.rtt / 1000.0) * 1.5)) }

  /** The exponential moving average, with weight one tenth for the new reading. */
  function Smooth(rtt: real, reading: real): real { 0.9 * rtt + 0.1 * reading }

  function Adapt(cfg: Config, limit: real, rtt: real): real {
    if rtt <= cfg.target then Min(cfg.maxLimit as real, limit + cfg.alpha)
    else Max(cfg.minLimit as real, limit * cfg.beta)
  }

  function Released(cfg: Config, l: Limiter, reading: real): Limiter {
    var rtt := Smooth(l.rtt, reading);
    Limiter(Adapt(cfg, l.limit, rtt), if l.inFlight - 1 > 0 then l.inFlight - 1 else 0, rtt)
  }

  class AdaptiveConcurrencyLimiter {
    const cfg: Config
    var currentLimit: real
    var inFlight: int
    var smoothedRtt: real

    constructor (cfg: Config)
      ensures this.cfg == cfg && View() == Initial(cfg)
    {
      this.cfg := cfg;
      currentLimit, inFlight, smoothedRtt := (cfg.minLimit * 2) as real, 0, cfg.target * 0.5;
    }

    function View(): Limiter reads this { Limiter(currentLimit, inFlight, smoothedRtt) }

    method Acquire() returns (admitted: bool, retryAfter: Option<real>)
      modifies this`inFlight
      ensures admitted == old(Admits(View())) && View() == Acquired(old(View()))
      ensures retryAfter == if admitted then None else Some(RetryAfter(View()))
    {
      if inFlight < currentLimit.Floor {
        inFlight := inFlight + 1;
        return true, None;
      }
      var delay := Max(0.05, (smoothedRtt / 1000.0) * 1.5);
      return false, Some(Round2(delay));
    }

    method Release(reading: real)
      modifies this`inFlight, this`smoothedRtt, this`currentLimit
      ensures View() == Released(cfg, old(View()), reading)
    {
      inFlight := inFlight - 1;
      if inFlight < 0 { inFlight := 0; }
      smoothedRtt := (1.0 - 0.1) * smoothedRtt + 0.1 * reading;
      if smoothedRtt <= cfg.target {
        currentLimit := Min(cfg.maxLimit as real, currentLimit + cfg.alpha);
      } else {
        currentLimit := Max(cfg.minLimit as real, currentLimit * cfg.beta);
      }
    }
  }

  // ---------------------------------------------------------------- runs

  datatype Call = Acquire | Release(reading: real)

  function Step(cfg: Config, l: Limiter, c: Call): Limiter {
    match c
    case Acquire => Acquired(l)
    case Release(reading) => Released(cfg, l, reading)
  }

  function Run(cfg: Config, l: Limiter, calls: seq<Call>): Limiter {
    if calls == [] then l else Step(cfg, Run(cfg, l, calls[..|calls| - 1]), calls[|calls| - 1])
  }

  /** The latencies released, in order. */
  function Readings(calls: seq<Call>): seq<real> {
    if calls == [] then []
    else
      var c := calls[|calls| - 1];
      Readings(calls[..|calls| - 1]) + (if c.Release? then [c.reading] else [])
  }

  /** The smoothed latency and the limit as functions of the readings alone. */
  function RttAfter(rtt: real, readings: seq<real>): real {
    if readings == [] then rtt
    else Smooth(RttAfter(rtt, readings[..|readings| - 1]), readings[|readings| - 1])
  }

  function LimitAfter(cfg: Config, limit: real, rtt: real, readings: seq<real>): real {
    if readings == [] then limit
    else Adapt(cfg, LimitAfter(cfg, limit, rtt, readings[..|readings| - 1]), RttAfter(rtt, readings))
  }

  /** Acquisitions, admitted or not, have no influence on how the limit adapts. */
  lemma {:induction false} OnlyReadingsMatter(cfg: Config, l: Limiter, calls: seq<Call>)
    ensures Run(cfg, l, calls).rtt == RttAfter(l.rtt, Readings(calls))
    ensures Run(cfg, l, calls).limit == LimitAfter(cfg, l.limit, l.rtt, Readings(calls))
  {
    if calls != [] {
      var c, before := calls[|calls| - 1], calls[..|calls| - 1];
      OnlyReadingsMatter(cfg, l, before);
      var rs := Readings(before);
      if c.Release? {
        assert Readings(calls)[..|rs|] == rs;
      } else {
        assert Readings(calls) == rs;
      }
    }
  }

  /** At every moment of every run the limit stays between its bounds and the slots taken below the maximum. */
  lemma {:induction false} LimitsHold(cfg: Config, calls: seq<Call>)
    requires cfg.Valid()
    ensures var l := Run(cfg, Initial(cfg), calls);
            cfg.minLimit as real <= l.limit <= cfg.maxLimit as real && 0 <= l.inFlight <= cfg.maxLimit
  {
    if calls != [] {
      var before := calls[..|calls| - 1];
      LimitsHold(cfg, before);
      StepKeepsLimits(cfg, Run(cfg, Initial(cfg), before), calls[|calls| - 1]);
    }
  }

  ghost predicate InBounds(cfg: Config, l: Limiter) {
    cfg.minLimit as real <= l.limit <= cfg.maxLimit as real && 0 <= l.inFlight <= cfg.maxLimit
  }

  lemma ProductBelow(limit: real, beta: real, high: real)
    requires 0.0 < limit <= high && 0.0 < beta <= 1.0
    ensures limit * beta <= high
  {
    Scale(beta, 1.0, limit);
    assert beta * limit == limit * beta;
  }

  lemma AdaptInBounds(cfg: Config, limit: real, rtt: real)
    requires cfg.Valid() && cfg.minLimit as real <= limit <= cfg.maxLimit as real
    ensures cfg.minLimit as real <= Adapt(cfg, limit, rtt) <= cfg.maxLimit as real
  {
    ProductBelow(limit, cfg.beta, cfg.maxLimit as real);
  }

  lemma StepKeepsLimits(cfg: Config, l: Limiter, c: Call)
    requires cfg.Valid() && InBounds(cfg, l)
    ensures InBounds(cfg, Step(cfg, l, c))
  {
    if c.Release? {
      AdaptInBounds(cfg, l.limit, Smooth(l.rtt, c.reading));
    } else {
      assert l.limit.Floor <= cfg.maxLimit;
    }
  }

  // ---------------------------------------------------------------- overload

  ghost predicate AllAtLeast(readings: seq<real>, r: real) { forall i :: 0 <= i < |readings| ==> readings[i] >= r }

  /** How far the average still is below `r`, after `n` readings of at least `r`: Bernoulli's bound. */
  lemma {:induction false} GapShrinks(rtt: real, readings: seq<real>, r: real)
    requires 0.0 <= rtt && 0.0 < r && AllAtLeast(readings, r)
    ensures (r - RttAfter(rtt, readings)) * (9 + |readings|) as real <= 9.0 * r
  {
    if readings == [] {
      assert (r - rtt) * 9.0 <= 9.0 * r;
    } else {
      var n := |readings| - 1;
      GapShrinks(rtt, readings[..n], r);
      var gap, next := r - RttAfter(rtt, readings[..n]), r - RttAfter(rtt, readings);
      GapStep(r, gap, next, (9 + n) as real, (9 + |readings|) as real);
    }
  }

  lemma GapStep(r: real, gap: real, next: real, m: real, m1: real)
    requires r > 0.0 && m >= 9.0 && gap * m <= 9.0 * r && next <= 0.9 * gap && m1 == m + 1.0
    ensures next * m1 <= 9.0 * r
  {
    if next > 0.0 {
      var g, mm := 0.9 * gap, 0.9 * m1;
      Scale(next, g, m1);
      assert g * m1 == mm * gap;
      Scale(mm, m, gap);
      Chain(next * m1, g * m1, gap * m);
      Chain(next * m1, gap * m, 9.0 * r);
    } else {
      Scale(next, 0.0, m1);
      Chain(next * m1, 0.0 * m1, 9.0 * r);
    }
  }

  lemma Chain(a: real, b: real, c: real)
    requires a <= b <= c
    ensures a <= c
  {}

  /** After more than 9 * target / (r - target) readings of at least `r`, the average is above the target. */
  lemma {:induction false} OverloadIsNoticed(cfg: Config, rtt: real, readings: seq<real>, r: real)
    requires cfg.Valid() && 0.0 <= rtt && cfg.target < r && AllAtLeast(readings, r)
    requires |readings| as real * (r - cfg.target) > 9.0 * cfg.target
    ensures RttAfter(rtt, readings) > cfg.target
  {
    var n, s := |readings| as real, RttAfter(rtt, readings);
    GapShrinks(rtt, readings, r);
    assert (9 + |readings|) as real == 9.0 + n;
    BelowTargetTooLong(cfg.target, r, n, s);
  }

  lemma BelowTargetTooLong(target: real, r: real, n: real, s: real)
    requires 0.0 < target < r && n >= 0.0 && (r - s) * (9.0 + n) <= 9.0 * r && n * (r - target) > 9.0 * target
    ensures s > target
  {
    assert (r - target) * (9.0 + n) == 9.0 * r - 9.0 * target + n * (r - target);
    if s <= target {
      Scale(r - target, r - s, 9.0 + n);
      assert false;
    }
  }

  /** Once above the target, readings above the target keep it there. */
  lemma {:induction false} OverloadStays(cfg: Config, rtt: real, readings: seq<real>)
    requires rtt > cfg.target && forall i :: 0 <= i < |readings| ==> readings[i] > cfg.target
    ensures RttAfter(rtt, readings) > cfg.target
  {
    if readings != [] { OverloadStays(cfg, rtt, readings[..|readings| - 1]); }
  }

  /** x * b^k. */
  function Geometric(x: real, b: real, k: nat): real { if k == 0 then x else Geometric(x, b, k - 1) * b }

  lemma FlooredProduct(low: real, x: real, b: real)
    requires 0.0 <= low && 0.0 < b <= 1.0
    ensures Max(low, Max(low, x) * b) == Max(low, x * b)
  {
    var m := Max(low, x);
    Scale(b, 1.0, low);
    assert low * b <= low;
    if x <= low {
      assert m * b == low * b;
      Scale(x, low, b);
      Chain(x * b, low * b, low);
    } else {
      assert m * b == x * b;
    }
  }

  lemma DecayStep(cfg: Config, g: real, next: real, before: real, rtt: real)
    requires cfg.Valid() && rtt > cfg.target && before == Max(cfg.minLimit as real, g) && next == g * cfg.beta
    ensures Adapt(cfg, before, rtt) == Max(cfg.minLimit as real, next)
  {
    FlooredProduct(cfg.minLimit as real, g, cfg.beta);
  }

  lemma GeometricOneMore(x: real, b: real, k: nat)
    ensures Geometric(x, b, k + 1) == Geometric(x, b, k) * b
  {}

  lemma {:induction false} LimitOneMore(cfg: Config, limit: real, rtt: real, before: seq<real>, readings: seq<real>)
    requires readings != [] && before == readings[..|readings| - 1]
    ensures LimitAfter(cfg, limit, rtt, readings) ==
            Adapt(cfg, LimitAfter(cfg, limit, rtt, before), RttAfter(rtt, readings))
  {}

  /** While the average stays above the target, the limit is exactly max(min, limit * beta^k). */
  lemma {:induction false} LimitDecays(cfg: Config, limit: real, rtt: real, readings: seq<real>)
    requires cfg.Valid() && rtt > cfg.target && limit >= cfg.minLimit as real
    requires forall i :: 0 <= i < |readings| ==> readings[i] > cfg.target
    ensures LimitAfter(cfg, limit, rtt, readings) == Max(cfg.minLimit as real, Geometric(limit, cfg.beta, |readings|))
  {
    var n := |readings|;
    if n > 0 {
      var before := readings[..n - 1];
      LimitDecays(cfg, limit, rtt, before);
      OverloadStays(cfg, rtt, readings);
      LimitOneMore(cfg, limit, rtt, before, readings);
      GeometricOneMore(limit, cfg.beta, n - 1);
      DecayStep(cfg, Geometric(limit, cfg.beta, n - 1), Geometric(limit, cfg.beta, n),
                LimitAfter(cfg, limit, rtt, before), RttAfter(rtt, readings));
    }
  }

  lemma NextMultiple(k: real, next: real, q: real)
    requires next == k + 1.0
    ensures next * q == k * q + q
  {}

  lemma GeometricStep(beta: real, p: real, kq: real, next: real, bound: real)
    requires 0.0 < beta <= 1.0 && 0.0 < p && kq >= 0.0 && next == kq + (1.0 - beta) && p * (beta + kq) <= bound
    ensures (p * beta) * (beta + next) <= bound && p * beta > 0.0
  {
    // beta * (1 + kq) <= beta + kq, because (1 - beta) * kq >= 0
    var c, c1 := beta + kq, beta + next;
    NonNegative(1.0 - beta, kq);
    assert beta * c1 == beta + beta * kq;
    assert beta * kq == kq - (1.0 - beta) * kq;
    assert beta * c1 <= c;
    Scale(beta * c1, c, p);
    assert (p * beta) * c1 == (beta * c1) * p;
    Chain((p * beta) * c1, (beta * c1) * p, c * p);
    Chain((p * beta) * c1, p * c, bound);
  }

  /** Bernoulli for shrinking powers: x * beta^k * (beta + k * (1 - beta)) <= x * beta. */
  lemma {:induction false} GeometricShrinks(x: real, beta: real, k: nat, kq: real)
    requires 0.0 < x && 0.0 < beta <= 1.0 && kq == k as real * (1.0 - beta)
    ensures Geometric(x, beta, k) * (beta + kq) <= x * beta && Geometric(x, beta, k) > 0.0
  {
    var q := 1.0 - beta;
    if k == 0 {
      assert 0.0 * q == 0.0;
    } else {
      var less := (k - 1) as real * q;
      GeometricShrinks(x, beta, k - 1, less);
      NonNegative((k - 1) as real, q);
      NextMultiple((k - 1) as real, k as real, q);
      GeometricStep(beta, Geometric(x, beta, k - 1), less, kq, x * beta);
    }
  }

  /** With p * (beta + d) <= limit * beta and high * beta <= low * (beta + d), p is at most low. */
  lemma AtMostLow(low: real, high: real, limit: real, beta: real, d: real, p: real)
    requires 0.0 < low <= limit <= high && 0.0 < beta && 0.0 <= d && p * (beta + d) <= limit * beta
    requires d * low >= (high - low) * beta
    ensures p <= low
  {
    var bd := beta + d;
    Scale(limit, high, beta);
    assert low * bd == low * beta + d * low;
    assert high * beta == low * beta + (high - low) * beta;
    Chain(p * bd, limit * beta, high * beta);
    Chain(p * bd, high * beta, low * bd);
    Cancel(p, low, bd);
  }

  /** A bounded number of releases brings any limit within bounds down to the minimum. */
  lemma GeometricReachesLow(low: real, high: real, limit: real, beta: real, k: nat, kq: real)
    requires 0.0 < low <= limit <= high && 0.0 < beta <= 1.0 && kq == k as real * (1.0 - beta)
    requires kq * low >= (high - low) * beta
    ensures Geometric(limit, beta, k) <= low
  {
    GeometricShrinks(limit, beta, k, kq);
    NonNegative(k as real, 1.0 - beta);
    AtMostLow(low, high, limit, beta, kq, Geometric(limit, beta, k));
  }

  lemma {:induction false} ReadingsSplit(cfg: Config, limit: real, rtt: real, a: seq<real>, b: seq<real>)
    ensures RttAfter(rtt, a + b) == RttAfter(RttAfter(rtt, a), b)
    ensures LimitAfter(cfg, limit, rtt, a + b) == LimitAfter(cfg, LimitAfter(cfg, limit, rtt, a), RttAfter(rtt, a), b)
  {
    if b == [] {
      assert a + b == a;
    } else {
      var n := |b| - 1;
      var ab := a + b;
      assert ab[..|ab| - 1] == a + b[..n] && ab[|ab| - 1] == b[n];
      ReadingsSplit(cfg, limit, rtt, a, b[..n]);
    }
  }

  lemma {:induction false} LimitInBounds(cfg: Config, limit: real, rtt: real, readings: seq<real>)
    requires cfg.Valid() && cfg.minLimit as real <= limit <= cfg.maxLimit as real
    ensures cfg.minLimit as real <= LimitAfter(cfg, limit, rtt, readings) <= cfg.maxLimit as real
  {
    if readings != [] {
      var n := |readings| - 1;
      LimitInBounds(cfg, limit, rtt, readings[..n]);
      AdaptInBounds(cfg, LimitAfter(cfg, limit, rtt, readings[..n]), RttAfter(rtt, readings));
    }
  }

  /** The second half of an overload, on readings alone. */
  lemma {:induction false} OverloadEnds(cfg: Config, limit: real, rtt: real, readings: seq<real>)
    requires cfg.Valid() && cfg.minLimit as real <= limit <= cfg.maxLimit as real && rtt > cfg.target
    requires forall i :: 0 <= i < |readings| ==> readings[i] > cfg.target
    requires Geometric(limit, cfg.beta, |readings|) <= cfg.minLimit as real
    ensures LimitAfter(cfg, limit, rtt, readings) == cfg.minLimit as real
  {
    LimitDecays(cfg, limit, rtt, readings);
  }

  /** Enough releases for the limit to fall from the maximum to the minimum. */
  predicate LongEnough(cfg: Config, k: nat) {
    var kq := k as real * (1.0 - cfg.beta);
    kq * cfg.minLimit as real >= (cfg.maxLimit as real - cfg.minLimit as real) * cfg.beta
  }

  lemma LongEnoughIs(cfg: Config, limit: real, k: nat)
    requires cfg.Valid() && cfg.minLimit as real <= limit <= cfg.maxLimit as real && LongEnough(cfg, k)
    ensures Geometric(limit, cfg.beta, k) <= cfg.minLimit as real
  {
    GeometricReachesLow(cfg.minLimit as real, cfg.maxLimit as real, limit, cfg.beta, k, k as real * (1.0 - cfg.beta));
  }

  lemma {:induction false} OverloadOnReadings(cfg: Config, limit: real, rtt: real, readings: seq<real>, r: real,
                                              n: nat, k: nat)
    requires cfg.Valid() && cfg.minLimit as real <= limit <= cfg.maxLimit as real && rtt >= 0.0 && cfg.target < r
    requires AllAtLeast(readings, r) && |readings| == n + k
    requires n as real * (r - cfg.target) > 9.0 * cfg.target && LongEnough(cfg, k)
    ensures LimitAfter(cfg, limit, rtt, readings) == cfg.minLimit as real && RttAfter(rtt, readings) > cfg.target
  {
    var a, b := readings[..n], readings[n..];
    assert readings == a + b;
    OverloadIsNoticed(cfg, rtt, a, r);
    ReadingsSplit(cfg, limit, rtt, a, b);
    LimitInBounds(cfg, limit, rtt, a);
    OverloadStays(cfg, RttAfter(rtt, a), b);
    LongEnoughIs(cfg, LimitAfter(cfg, limit, rtt, a), k);
    OverloadEnds(cfg, LimitAfter(cfg, limit, rtt, a), RttAfter(rtt, a), b);
  }

  /** Recovery bound: in any run, however acquisitions interleave, once every release has reported at least
      `r` above the target for more than 9 * target / (r - target) releases and then for at least
      (max - min) * beta / ((1 - beta) * min) more, the limit is exactly the minimum. */
  lemma {:induction false} OverloadCollapsesLimit(cfg: Config, l: Limiter, calls: seq<Call>, r: real, n: nat, k: nat)
    requires cfg.Valid() && InBounds(cfg, l) && l.rtt >= 0.0 && cfg.target < r
    requires AllAtLeast(Readings(calls), r) && |Readings(calls)| == n + k
    requires n as real * (r - cfg.target) > 9.0 * cfg.target && LongEnough(cfg, k)
    ensures Run(cfg, l, calls).limit == cfg.minLimit as real && Run(cfg, l, calls).rtt > cfg.target
  {
    OnlyReadingsMatter(cfg, l, calls);
    OverloadOnReadings(cfg, l.limit, l.rtt, Readings(calls), r, n, k);
  }

  // ---------------------------------------------------------------- recovery

  lemma {:induction false} RecoveryStays(cfg: Config, rtt: real, readings: seq<real>)
    requires rtt <= cfg.target && forall i :: 0 <= i < |readings| ==> readings[i] <= cfg.target
    ensures RttAfter(rtt, readings) <= cfg.target
  {
    if readings != [] { RecoveryStays(cfg, rtt, readings[..|readings| - 1]); }
  }

  /** x + k * a. */
  function Arithmetic(x: real, a: real, k: nat): real { if k == 0 then x else Arithmetic(x, a, k - 1) + a }

  lemma {:induction false} ArithmeticIs(x: real, a: real, k: nat)
    ensures Arithmetic(x, a, k) == x + k as real * a
  {
    if k == 0 {
      assert 0.0 * a == 0.0;
    } else {
      ArithmeticIs(x, a, k - 1);
      NextMultiple((k - 1) as real, k as real, a);
    }
  }

  /** Once the average is at or below the target, releases at or below it give exactly min(max, limit + k * alpha). */
  lemma {:induction false} LimitGrows(cfg: Config, limit: real, rtt: real, readings: seq<real>)
    requires cfg.Valid() && rtt <= cfg.target && limit <= cfg.maxLimit as real
    requires forall i :: 0 <= i < |readings| ==> readings[i] <= cfg.target
    ensures LimitAfter(cfg, limit, rtt, readings) == Min(cfg.maxLimit as real, Arithmetic(limit, cfg.alpha, |readings|))
  {
    var n := |readings|;
    if n > 0 {
      LimitGrows(cfg, limit, rtt, readings[..n - 1]);
      RecoveryStays(cfg, rtt, readings);
    }
  }

  /** min(max, limit + k * alpha). */
  function Climbed(cfg: Config, limit: real, k: nat): real { Min(cfg.maxLimit as real, limit + k as real * cfg.alpha) }

  lemma ClimbedIs(cfg: Config, limit: real, k: nat)
    ensures Climbed(cfg, limit, k) == Min(cfg.maxLimit as real, Arithmetic(limit, cfg.alpha, k))
  {
    ArithmeticIs(limit, cfg.alpha, k);
  }

  /** The same for runs: the limit climbs back in a straight line, whatever is acquired meanwhile. */
  lemma {:induction false} CalmRestoresLimit(cfg: Config, l: Limiter, calls: seq<Call>)
    requires cfg.Valid() && InBounds(cfg, l) && l.rtt <= cfg.target
    requires forall i :: 0 <= i < |Readings(calls)| ==> Readings(calls)[i] <= cfg.target
    ensures Run(cfg, l, calls).limit == Climbed(cfg, l.limit, |Readings(calls)|)
  {
    OnlyReadingsMatter(cfg, l, calls);
    LimitGrows(cfg, l.limit, l.rtt, Readings(calls));
    ClimbedIs(cfg, l.limit, |Readings(calls)|);
  }
}
