/** What the limiter's moving average is of its readings, what it notices and what it does not, and the delay that a
    refused caller is told. */
module Smoothing {

  import opened Reals
  import opened Aimd

  /** The first `i` readings, each with a tenth of 0.9 to the power of the number of readings after it. */
  function Weighted(readings: seq<real>, i: nat): real
    requires i <= |readings|
  {
    if i == 0 then 0.0 else Weighted(readings, i - 1) + Geometric(0.1, 0.9, |readings| - i) * readings[i - 1]
  }

  lemma Fades(g: real, x: real, next: real)
    requires next == g * 0.9
    ensures next * x == 0.9 * (g * x)
  {}

  lemma {:induction false} OneReadingLater(before: seq<real>, readings: seq<real>, i: nat)
    requires i <= |before| && readings != [] && before == readings[..|readings| - 1]
    ensures Weighted(readings, i) == 0.9 * Weighted(before, i)
  {
    if i > 0 {
      OneReadingLater(before, readings, i - 1);
      Fades(Geometric(0.1, 0.9, |before| - i), before[i - 1], Geometric(0.1, 0.9, |readings| - i));
    }
  }

  /** The exact law of the average: its start fades with 0.9^n, and a reading that is `k` readings old weighs
      0.1 * 0.9^k. */
  lemma {:induction false} AverageIsWeighted(rtt: real, readings: seq<real>)
    ensures RttAfter(rtt, readings) == Geometric(rtt, 0.9, |readings|) + Weighted(readings, |readings|)
  {
    var n := |readings|;
    if n > 0 {
      var before := readings[..n - 1];
      AverageIsWeighted(rtt, before);
      OneReadingLater(before, readings, n - 1);
      assert Geometric(0.1, 0.9, 0) == 0.1;
    }
  }

  /** The same for runs, whatever is acquired meanwhile. */
  lemma {:induction false} SmoothedIsWeighted(cfg: Config, l: Limiter, calls: seq<Call>)
    ensures var rs := Readings(calls);
            Run(cfg, l, calls).rtt == Geometric(l.rtt, 0.9, |rs|) + Weighted(rs, |rs|)
  {
    OnlyReadingsMatter(cfg, l, calls);
    AverageIsWeighted(l.rtt, Readings(calls));
  }

  /** The gap to `r` shrinks by a tenth with each reading of `r`; by less with smaller ones, and more with larger. */
  lemma {:induction false} GapIsGeometric(rtt: real, readings: seq<real>, r: real)
    ensures (forall i :: 0 <= i < |readings| ==> readings[i] <= r) ==>
              r - RttAfter(rtt, readings) >= Geometric(r - rtt, 0.9, |readings|)
    ensures AllAtLeast(readings, r) ==> r - RttAfter(rtt, readings) <= Geometric(r - rtt, 0.9, |readings|)
  {
    if readings != [] { GapIsGeometric(rtt, readings[..|readings| - 1], r); }
  }

  /** A stretch at latency `r` is noticed exactly when 0.9^n of the gap to `r` is less than what `r` is above the
      target: one slow release is not, and a long stretch is. */
  lemma {:induction false} NoticedIff(cfg: Config, rtt: real, readings: seq<real>, r: real)
    requires forall i :: 0 <= i < |readings| ==> readings[i] == r
    ensures RttAfter(rtt, readings) > cfg.target <==> Geometric(r - rtt, 0.9, |readings|) < r - cfg.target
  {
    GapIsGeometric(rtt, readings, r);
  }

  /** A stretch too short or too mild is not noticed: releases of at most `r` leave the average at or below the target,
      and the limit where it would be after as many fast ones, as long as 0.9^n of the gap to `r` is at least what `r`
      is above the target. */
  lemma {:induction false} MildStretchIsUnnoticed(cfg: Config, l: Limiter, calls: seq<Call>, r: real)
    requires forall i :: 0 <= i < |Readings(calls)| ==> Readings(calls)[i] <= r
    requires r >= l.rtt && Geometric(r - l.rtt, 0.9, |Readings(calls)|) >= r - cfg.target
    requires cfg.Valid() && l.limit <= cfg.maxLimit as real
    ensures Run(cfg, l, calls).rtt <= cfg.target
    ensures Run(cfg, l, calls).limit == Climbed(cfg, l.limit, |Readings(calls)|)
  {
    OnlyReadingsMatter(cfg, l, calls);
    MildReadings(cfg, l.limit, l.rtt, Readings(calls), r);
    ClimbedIs(cfg, l.limit, |Readings(calls)|);
  }

  lemma {:induction false} GeometricFades(x: real, k: nat)
    requires x >= 0.0
    ensures 0.0 <= Geometric(x, 0.9, k + 1) <= Geometric(x, 0.9, k)
  {
    if k > 0 { GeometricFades(x, k - 1); }
  }

  lemma {:induction false} MildReadings(cfg: Config, limit: real, rtt: real, readings: seq<real>, r: real)
    requires forall i :: 0 <= i < |readings| ==> readings[i] <= r
    requires r >= rtt && Geometric(r - rtt, 0.9, |readings|) >= r - cfg.target
    requires cfg.Valid() && limit <= cfg.maxLimit as real
    ensures RttAfter(rtt, readings) <= cfg.target
    ensures LimitAfter(cfg, limit, rtt, readings) == Min(cfg.maxLimit as real, Arithmetic(limit, cfg.alpha, |readings|))
  {
    GapIsGeometric(rtt, readings, r);
    var n := |readings|;
    if n > 0 {
      GeometricFades(r - rtt, n - 1);
      MildReadings(cfg, limit, rtt, readings[..n - 1], r);
      LimitOneMore(cfg, limit, rtt, readings[..n - 1], readings);
    }
  }

  /** A fresh limiter climbs from twice the minimum as long as no release is above the target. */
  lemma {:induction false} FreshLimiterClimbs(cfg: Config, calls: seq<Call>)
    requires cfg.Valid() && forall i :: 0 <= i < |Readings(calls)| ==> Readings(calls)[i] <= cfg.target
    ensures Run(cfg, Initial(cfg), calls).limit == Climbed(cfg, (2 * cfg.minLimit) as real, |Readings(calls)|)
  {
    CalmRestoresLimit(cfg, Initial(cfg), calls);
  }

  /** Its first release cuts the limit exactly when it is more than five and a half targets long. */
  lemma FreshLimiterIsCutIff(cfg: Config, reading: real)
    requires cfg.Valid() && cfg.beta < 1.0
    ensures Step(cfg, Initial(cfg), Release(reading)).limit < Initial(cfg).limit <==> reading > 5.5 * cfg.target
  {
    var limit, rtt := Initial(cfg).limit, Smooth(cfg.target * 0.5, reading);
    assert rtt == 0.45 * cfg.target + 0.1 * reading;
    assert limit <= cfg.maxLimit as real && cfg.minLimit as real < limit;
    var cut := limit * cfg.beta;
    Shrinks(limit, cfg.beta, cut);
    CutIff(cfg, limit, rtt, cut);
  }

  lemma CutIff(cfg: Config, limit: real, rtt: real, cut: real)
    requires cfg.Valid() && cfg.minLimit as real < limit <= cfg.maxLimit as real
    requires cut < limit && cut == limit * cfg.beta
    ensures Adapt(cfg, limit, rtt) < limit <==> rtt > cfg.target
  {
    Compare(cfg.minLimit as real, cfg.maxLimit as real, limit, cfg.alpha, cut);
  }

  lemma Compare(low: real, high: real, limit: real, alpha: real, cut: real)
    requires low < limit <= high && cut < limit && alpha >= 0.0
    ensures Min(high, limit + alpha) >= limit && Max(low, cut) < limit
  {}

  lemma Shrinks(x: real, beta: real, y: real)
    requires x > 0.0 && beta < 1.0 && y == x * beta
    ensures y < x
  {
    Cancel(1.0, beta, x);
    assert beta * x == x * beta;
  }

  /** A refused caller is told to wait one and a half smoothed latencies, to the nearest hundredth of a second, and at
      least 50 milliseconds. */
  lemma RetryAfterIsNear(l: Limiter)
    ensures var exact := l.rtt * 1.5 / 1000.0;
            && RetryAfter(l) >= 0.05
            && (if exact <= 0.05 then RetryAfter(l) == 0.05 else -0.005 <= RetryAfter(l) - exact <= 0.005)
  {
    RoundIsNear(Max(0.05, (l.rtt / 1000.0) * 1.5));
  }
}
