/** Per-agency admission: `TokenBucketRateLimiter.check_agency_limit`, over real-valued clocks. */
module TokenBucket {

  import opened Wrappers
  import opened Reals

  datatype Config = Config(burst: int, rate: real)

  datatype Bucket = Bucket(tokens: real, last: real)

  /** A refusal with a zero refill rate divides by zero and raises. */
  datatype Decision = Admitted | Rejected(retryAfter: real) | Raised

  datatype Call = Call(agency: string, now: real)

  /** Tokens after the lazy refill at time `now`. */
  function Refilled(cfg: Config, b: Bucket, now: real): real {
    Min(cfg.burst as real, b.tokens + Max(0.0, now - b.last) * cfg.rate)
  }

  function Wait(cfg: Config, tokens: real): real
    requires cfg.rate != 0.0
  {
    Max(0.05, (1.0 - tokens) / cfg.rate)
  }

  /** Whether a call is admitted: an agency's first call always is. */
  predicate Allowed(cfg: Config, b: Option<Bucket>, now: real) {
    b.None? || Refilled(cfg, b.value, now) >= 1.0
  }

  /** The bucket a call leaves. */
  function NextBucket(cfg: Config, b: Option<Bucket>, now: real): Bucket {
    match b
    case None => Bucket((cfg.burst - 1) as real, now)
    case Some(b) =>
      var tokens := Refilled(cfg, b, now);
      Bucket(if tokens >= 1.0 then tokens - 1.0 else tokens, now)
  }

  /** The answer to a call. */
  function Answer(cfg: Config, b: Option<Bucket>, now: real): Decision {
    if Allowed(cfg, b, now) then Admitted
    else if cfg.rate == 0.0 then Raised
    else Rejected(Round2(Wait(cfg, Refilled(cfg, b.value, now))))
  }

  class TokenBucketRateLimiter {
    const cfg: Config
    var buckets: map<string, Bucket>

    constructor (burst: int, rate: real)
      ensures cfg == Config(burst, rate) && buckets == map[]
    {
      cfg, buckets := Config(burst, rate), map[];
    }

    function BucketOf(agency: string): Option<Bucket> reads this { Lookup(buckets, agency) }

    method CheckAgencyLimit(agency: string, now: real) returns (d: Decision)
      modifies this`buckets
      ensures d == Answer(cfg, old(BucketOf(agency)), now)
      ensures buckets == old(buckets)[agency := NextBucket(cfg, old(BucketOf(agency)), now)]
      ensures agency !in old(buckets) ==> d.Admitted? && buckets[agency] == Bucket((cfg.burst - 1) as real, now)
      ensures agency in old(buckets) ==>
                var tokens := Refilled(cfg, old(buckets)[agency], now);
                && (d.Admitted? <==> tokens >= 1.0) && (d.Raised? <==> tokens < 1.0 && cfg.rate == 0.0)
                && buckets[agency] == Bucket(if d.Admitted? then tokens - 1.0 else tokens, now)
    {
      if agency !in buckets {
        buckets := buckets[agency := Bucket((cfg.burst - 1) as real, now)];
        return Admitted;
      }
      var bucket := buckets[agency];
      var elapsed := Max(0.0, now - bucket.last);
      var tokens := Min(cfg.burst as real, bucket.tokens + elapsed * cfg.rate);
      assert tokens == Refilled(cfg, bucket, now);
      if tokens >= 1.0 {
        buckets := buckets[agency := Bucket(tokens - 1.0, now)];
        return Admitted;
      }
      buckets := buckets[agency := Bucket(tokens, now)];
      if cfg.rate == 0.0 { return Raised; }
      var needed := 1.0 - tokens;
      d := Rejected(Round2(Max(0.05, needed / cfg.rate)));
    }
  }

  function Lookup(m: map<string, Bucket>, agency: string): Option<Bucket> {
    if agency in m then Some(m[agency]) else None
  }

  // ---------------------------------------------------------------- histories

  /** The buckets after an interleaved history of calls. */
  function After(cfg: Config, h: seq<Call>): map<string, Bucket> {
    if h == [] then map[]
    else
      var c := h[|h| - 1];
      var m := After(cfg, h[..|h| - 1]);
      m[c.agency := NextBucket(cfg, Lookup(m, c.agency), c.now)]
  }

  /** The decision on call `k` of a history. */
  function Decide(cfg: Config, h: seq<Call>, k: nat): Decision
    requires k < |h|
  {
    Answer(cfg, Lookup(After(cfg, h[..k]), h[k].agency), h[k].now)
  }

  predicate Admits(cfg: Config, h: seq<Call>, k: nat)
    requires k < |h|
  {
    Decide(cfg, h, k).Admitted?
  }

  /** Drops the calls that `keep` marks false. */
  function Kept(h: seq<Call>, keep: seq<bool>): (r: seq<Call>)
    requires |keep| == |h|
    ensures |r| <= |h|
  {
    if h == [] then []
    else Kept(h[..|h| - 1], keep[..|h| - 1]) + (if keep[|h| - 1] then [h[|h| - 1]] else [])
  }

  /** Each agency's clock readings never step back. */
  ghost predicate ClockRuns(h: seq<Call>, agency: string) {
    forall i, j :: 0 <= i < j < |h| && h[i].agency == h[j].agency == agency ==> h[i].now <= h[j].now
  }

  /** `b` is `a` refilled up to `b.last`, or neither exists. */
  ghost predicate SameUpToRefill(cfg: Config, a: Option<Bucket>, b: Option<Bucket>) {
    match (a, b)
    case (None, None) => true
    case (Some(a), Some(b)) => a.last <= b.last && b.tokens == Refilled(cfg, a, b.last)
    case _ => false
  }

  /** Refilling in two steps is refilling in one. */
  lemma RefillIsAdditive(cfg: Config, a: Bucket, mid: real, now: real)
    requires cfg.rate >= 0.0 && a.last <= mid <= now
    ensures Refilled(cfg, Bucket(Refilled(cfg, a, mid), mid), now) == Refilled(cfg, a, now)
  {
    assert (now - a.last) * cfg.rate == (mid - a.last) * cfg.rate + (now - mid) * cfg.rate;
    assert (now - mid) * cfg.rate >= 0.0;
  }

  lemma {:induction false} LastSeen(cfg: Config, h: seq<Call>, agency: string, now: real)
    requires forall i :: 0 <= i < |h| && h[i].agency == agency ==> h[i].now <= now
    ensures var b := Lookup(After(cfg, h), agency); b.Some? ==> b.value.last <= now
  {
    if h != [] && h[|h| - 1].agency != agency {
      LastSeen(cfg, h[..|h| - 1], agency, now);
    }
  }

  /** Every call of `agency` that is dropped was refused. */
  ghost predicate DropsOnlyRefused(cfg: Config, h: seq<Call>, keep: seq<bool>, agency: string)
    requires |keep| == |h|
  {
    forall k :: 0 <= k < |h| && !keep[k] && h[k].agency == agency ==> !Admits(cfg, h, k)
  }

  lemma {:induction false} PrefixHypotheses(cfg: Config, h: seq<Call>, keep: seq<bool>, agency: string, n: nat)
    requires |keep| == |h| && n <= |h| && ClockRuns(h, agency) && DropsOnlyRefused(cfg, h, keep, agency)
    ensures ClockRuns(h[..n], agency) && DropsOnlyRefused(cfg, h[..n], keep[..n], agency)
  {
    forall k | 0 <= k < n && !keep[k] && h[k].agency == agency ensures !Admits(cfg, h[..n], k) {
      assert h[..n][..k] == h[..k];
      assert !Admits(cfg, h, k);
    }
  }

  lemma {:induction false} AfterOneMore(cfg: Config, h: seq<Call>, c: Call, agency: string)
    ensures var b := Lookup(After(cfg, h), agency);
            Lookup(After(cfg, h + [c]), agency) == if c.agency == agency then Some(NextBucket(cfg, b, c.now)) else b
  {
    assert (h + [c])[..|h|] == h;
  }

  lemma {:induction false} KeptBucket(cfg: Config, h: seq<Call>, keep: seq<bool>, agency: string)
    requires cfg.rate >= 0.0 && |keep| == |h|
    requires ClockRuns(h, agency) && DropsOnlyRefused(cfg, h, keep, agency)
    ensures SameUpToRefill(cfg, Lookup(After(cfg, Kept(h, keep)), agency), Lookup(After(cfg, h), agency))
  {
    if h != [] {
      var n := |h| - 1;
      PrefixHypotheses(cfg, h, keep, agency, n);
      KeptBucket(cfg, h[..n], keep[..n], agency);
      var rest, c := Kept(h[..n], keep[..n]), h[n];
      var a, b := Lookup(After(cfg, rest), agency), Lookup(After(cfg, h[..n]), agency);
      AfterOneMore(cfg, h[..n], c, agency);
      AfterOneMore(cfg, rest, c, agency);
      assert h[..n] + [c] == h;
      assert Kept(h, keep) == if keep[n] then rest + [c] else rest;
      if c.agency == agency {
        LastSeen(cfg, h[..n], agency, c.now);
        assert keep[n] || !Admits(cfg, h, n);
        OneCall(cfg, a, b, c.now, keep[n]);
      }
    }
  }

  /** Buckets equal up to refill decide alike, and stay equal up to refill when a refused call is left out. */
  lemma OneCall(cfg: Config, a: Option<Bucket>, b: Option<Bucket>, now: real, kept: bool)
    requires cfg.rate >= 0.0 && SameUpToRefill(cfg, a, b) && (b.Some? ==> b.value.last <= now)
    requires kept || !Allowed(cfg, b, now)
    ensures Answer(cfg, a, now) == Answer(cfg, b, now)
    ensures SameUpToRefill(cfg, if kept then Some(NextBucket(cfg, a, now)) else a, Some(NextBucket(cfg, b, now)))
  {
    if b.Some? {
      RefillIsAdditive(cfg, a.value, b.value.last, now);
      assert Max(0.0, now - now) * cfg.rate == 0.0;
    }
    TokensBelowBurst(cfg, b, now);
  }

  lemma TokensBelowBurst(cfg: Config, b: Option<Bucket>, now: real)
    ensures NextBucket(cfg, b, now).tokens <= cfg.burst as real
  {}

  /** Refinement: dropping every call of other agencies and any set of refused calls of its own changes no
      decision of an agency. In particular an agency decides as a bucket of its own would. */
  lemma {:induction false} DecisionsSurviveDropping(cfg: Config, h: seq<Call>, keep: seq<bool>, agency: string, k: nat)
    requires cfg.rate >= 0.0 && |keep| == |h|
    requires ClockRuns(h, agency) && DropsOnlyRefused(cfg, h, keep, agency)
    requires k < |h| && keep[k] && h[k].agency == agency
    ensures var at := |Kept(h[..k], keep[..k])|;
            && at < |Kept(h, keep)| && Kept(h, keep)[at] == h[k]
            && Decide(cfg, Kept(h, keep), at) == Decide(cfg, h, k)
  {
    var before := Kept(h[..k], keep[..k]);
    KeptPrefix(h, keep, k);
    KeptPrefix(h, keep, k + 1);
    assert h[..k + 1][..k] == h[..k] && keep[..k + 1][..k] == keep[..k];
    assert Kept(h[..k + 1], keep[..k + 1]) == before + [h[k]];
    assert Kept(h, keep)[|before|] == h[k] && Kept(h, keep)[..|before|] == before;
    PrefixHypotheses(cfg, h, keep, agency, k);
    KeptBucket(cfg, h[..k], keep[..k], agency);
    LastSeen(cfg, h[..k], agency, h[k].now);
    OneCall(cfg, Lookup(After(cfg, before), agency), Lookup(After(cfg, h[..k]), agency), h[k].now, true);
  }

  lemma {:induction false} KeptPrefix(h: seq<Call>, keep: seq<bool>, n: nat)
    requires |keep| == |h| && n <= |h|
    ensures Kept(h[..n], keep[..n]) <= Kept(h, keep)
  {
    if n == |h| {
      assert h[..n] == h && keep[..n] == keep;
    } else {
      var m := |h| - 1;
      KeptPrefix(h[..m], keep[..m], n);
      assert h[..m][..n] == h[..n] && keep[..m][..n] == keep[..n];
    }
  }

  // ---------------------------------------------------------------- a bucket of its own

  /** One agency's bucket after its calls at `times`. */
  function Lone(cfg: Config, times: seq<real>): Option<Bucket> {
    if times == [] then None
    else Some(NextBucket(cfg, Lone(cfg, times[..|times| - 1]), times[|times| - 1]))
  }

  lemma {:induction false} LoneOneMore(cfg: Config, times: seq<real>, now: real)
    ensures Lone(cfg, times + [now]) == Some(NextBucket(cfg, Lone(cfg, times), now))
  {
    assert (times + [now])[..|times|] == times;
  }

  /** The decision on its call `k`. */
  function LoneDecision(cfg: Config, times: seq<real>, k: nat): Decision
    requires k < |times|
  {
    Answer(cfg, Lone(cfg, times[..k]), times[k])
  }

  predicate LoneAdmits(cfg: Config, times: seq<real>, k: nat)
    requires k < |times|
  {
    LoneDecision(cfg, times, k).Admitted?
  }

  /** The times of one agency's calls. */
  function Times(h: seq<Call>, agency: string): seq<real> {
    if h == [] then []
    else Times(h[..|h| - 1], agency) + (if h[|h| - 1].agency == agency then [h[|h| - 1].now] else [])
  }

  /** Whatever the clock does, an agency's bucket in an interleaved history is the one its own calls make. */
  lemma {:induction false} InterleavedIsLone(cfg: Config, h: seq<Call>, agency: string)
    ensures Lookup(After(cfg, h), agency) == Lone(cfg, Times(h, agency))
  {
    if h != [] {
      var n := |h| - 1;
      InterleavedIsLone(cfg, h[..n], agency);
      AfterOneMore(cfg, h[..n], h[n], agency);
      assert h[..n] + [h[n]] == h;
      var before := Times(h[..n], agency);
      assert Times(h, agency) == if h[n].agency == agency then before + [h[n].now] else before;
      LoneOneMore(cfg, before, h[n].now);
    }
  }

  /** How many of the calls `i`, ..., `k - 1` are admitted. */
  function AdmittedIn(cfg: Config, times: seq<real>, i: nat, k: nat): nat
    requires i <= k <= |times|
    decreases k
  {
    if i == k then 0
    else AdmittedIn(cfg, times, i, k - 1) + Spent(LoneAdmits(cfg, times, k - 1))
  }

  /** How far the clock moved forward between calls `i` and `k - 1`; backward steps count nothing. */
  function Forward(times: seq<real>, i: nat, k: nat): real
    requires i < k <= |times|
    decreases k
  {
    if i + 1 == k then 0.0 else Forward(times, i, k - 1) + Max(0.0, times[k - 1] - times[k - 2])
  }

  /** So many admissions stay within the burst and what a clock that moves forward so far refills. */
  predicate WithinRate(cfg: Config, admitted: nat, forward: real) {
    admitted as real <= cfg.burst as real + cfg.rate * forward
  }

  /** Admissions over a contiguous stretch of calls stay within the burst and what the clock refills. */
  predicate RateLaw(cfg: Config, times: seq<real>, i: nat, k: nat)
    requires i < k <= |times|
  {
    WithinRate(cfg, AdmittedIn(cfg, times, i, k), Forward(times, i, k))
  }

  lemma {:induction false} TokensInRange(cfg: Config, times: seq<real>)
    requires cfg.burst >= 1 && cfg.rate >= 0.0 && times != []
    ensures 0.0 <= Lone(cfg, times).value.tokens <= cfg.burst as real
    ensures Lone(cfg, times).value.last == times[|times| - 1]
  {
    if |times| > 1 {
      var before := times[..|times| - 1];
      TokensInRange(cfg, before);
      assert Max(0.0, times[|times| - 1] - Lone(cfg, before).value.last) * cfg.rate >= 0.0;
    }
  }

  function Spent(allowed: bool): nat { if allowed then 1 else 0 }

  /** What is refilled between calls `i` and `k - 1`. */
  function RefilledIn(cfg: Config, times: seq<real>, i: nat, k: nat): real
    requires i < k <= |times|
    decreases k
  {
    if i + 1 == k then 0.0 else RefilledIn(cfg, times, i, k - 1) + Max(0.0, times[k - 1] - times[k - 2]) * cfg.rate
  }

  lemma {:induction false} RefilledOneMore(cfg: Config, times: seq<real>, i: nat, k: nat, before: Bucket)
    requires i + 1 < k <= |times| && before.last == times[k - 2]
    ensures RefilledIn(cfg, times, i, k) ==
            RefilledIn(cfg, times, i, k - 1) + Max(0.0, times[k - 1] - before.last) * cfg.rate
  {}

  lemma {:induction false} RefillIsRateTimesForward(cfg: Config, times: seq<real>, i: nat, k: nat)
    requires i < k <= |times|
    ensures RefilledIn(cfg, times, i, k) == cfg.rate * Forward(times, i, k)
    decreases k
  {
    if i + 1 < k {
      RefillIsRateTimesForward(cfg, times, i, k - 1);
      Distributes(cfg.rate, Forward(times, i, k - 1), Max(0.0, times[k - 1] - times[k - 2]));
    }
  }

  lemma Distributes(r: real, a: real, b: real)
    ensures r * (a + b) == r * a + b * r
  {}

  /** What a call spends and leaves was there or has been refilled. */
  lemma CallSpends(cfg: Config, a: Bucket, now: real, spent: nat, refilled: real, refilledAfter: real)
    requires spent as real + a.tokens <= cfg.burst as real + refilled
    requires refilledAfter == refilled + Max(0.0, now - a.last) * cfg.rate
    ensures (spent + Spent(Allowed(cfg, Some(a), now))) as real + NextBucket(cfg, Some(a), now).tokens
            <= cfg.burst as real + refilledAfter
  {}

  lemma FirstCallSpends(cfg: Config, b: Option<Bucket>, now: real)
    ensures Spent(Allowed(cfg, b, now)) as real + NextBucket(cfg, b, now).tokens <= cfg.burst as real
  {}

  lemma {:induction false} SpentOneMore(cfg: Config, times: seq<real>, i: nat, k: nat, b: Option<Bucket>)
    requires i < k <= |times| && b == Lone(cfg, times[..k - 1])
    ensures AdmittedIn(cfg, times, i, k) == AdmittedIn(cfg, times, i, k - 1) + Spent(Allowed(cfg, b, times[k - 1]))
  {}

  /** What was admitted and what is left was there before or has been refilled. */
  predicate Balanced(cfg: Config, admitted: nat, tokens: real, refilled: real) {
    admitted as real + tokens <= cfg.burst as real + refilled
  }

  lemma {:induction false} FirstBalance(cfg: Config, times: seq<real>, i: nat)
    requires i < |times|
    ensures var b := NextBucket(cfg, Lone(cfg, times[..i]), times[i]);
            Balanced(cfg, AdmittedIn(cfg, times, i, i + 1), b.tokens, 0.0)
  {
    FirstCallSpends(cfg, Lone(cfg, times[..i]), times[i]);
    SpentOneMore(cfg, times, i, i + 1, Lone(cfg, times[..i]));
  }

  lemma {:induction false} NextBalance(cfg: Config, times: seq<real>, i: nat, k: nat, a: Bucket, refilled: real,
                                       more: real)
    requires i < k < |times| && Lone(cfg, times[..k]) == Some(a)
    requires Balanced(cfg, AdmittedIn(cfg, times, i, k), a.tokens, refilled)
    requires more == refilled + Max(0.0, times[k] - a.last) * cfg.rate
    ensures Balanced(cfg, AdmittedIn(cfg, times, i, k + 1), NextBucket(cfg, Some(a), times[k]).tokens, more)
  {
    CallSpends(cfg, a, times[k], AdmittedIn(cfg, times, i, k), refilled, more);
    SpentOneMore(cfg, times, i, k + 1, Some(a));
  }

  /** What is spent since call `i` was there at call `i` or has been refilled since. */
  lemma {:induction false} SpentAndLeft(cfg: Config, times: seq<real>, i: nat, k: nat, b: Bucket)
    requires cfg.burst >= 1 && cfg.rate >= 0.0 && i < k <= |times| && Lone(cfg, times[..k]) == Some(b)
    ensures Balanced(cfg, AdmittedIn(cfg, times, i, k), b.tokens, RefilledIn(cfg, times, i, k))
    decreases k
  {
    LoneAt(cfg, times, k, b);
    if i + 1 == k {
      FirstBalance(cfg, times, i);
    } else {
      var a := Lone(cfg, times[..k - 1]).value;
      SpentAndLeft(cfg, times, i, k - 1, a);
      BalanceGoesOn(cfg, times, i, k - 1, a);
    }
  }

  lemma {:induction false} LoneAt(cfg: Config, times: seq<real>, k: nat, b: Bucket)
    requires 0 < k <= |times| && Lone(cfg, times[..k]) == Some(b)
    ensures b == NextBucket(cfg, Lone(cfg, times[..k - 1]), times[k - 1])
    ensures k > 1 ==> Lone(cfg, times[..k - 1]).Some?
  {
    LoneOneMore(cfg, times[..k - 1], times[k - 1]);
    assert times[..k - 1] + [times[k - 1]] == times[..k];
  }

  lemma {:induction false} BalanceGoesOn(cfg: Config, times: seq<real>, i: nat, k: nat, a: Bucket)
    requires cfg.burst >= 1 && cfg.rate >= 0.0 && i < k < |times| && Lone(cfg, times[..k]) == Some(a)
    requires Balanced(cfg, AdmittedIn(cfg, times, i, k), a.tokens, RefilledIn(cfg, times, i, k))
    ensures Balanced(cfg, AdmittedIn(cfg, times, i, k + 1), NextBucket(cfg, Some(a), times[k]).tokens,
                     RefilledIn(cfg, times, i, k + 1))
  {
    TokensInRange(cfg, times[..k]);
    RefilledOneMore(cfg, times, i, k + 1, a);
    NextBalance(cfg, times, i, k, a, RefilledIn(cfg, times, i, k), RefilledIn(cfg, times, i, k + 1));
  }

  /** The rate law, for any clock readings, even ones that step back. */
  lemma {:induction false} RateLawHolds(cfg: Config, times: seq<real>, i: nat, k: nat)
    requires cfg.burst >= 1 && cfg.rate >= 0.0 && i < k <= |times|
    ensures RateLaw(cfg, times, i, k)
  {
    SpentAndLeft(cfg, times, i, k, Lone(cfg, times[..k]).value);
    TokensInRange(cfg, times[..k]);
    RefillIsRateTimesForward(cfg, times, i, k);
  }

  /** The first call is admitted whatever the burst is, so the law needs, and needs only, a burst of at least 1. */
  lemma RateLawIffBurst(cfg: Config)
    requires cfg.rate >= 0.0
    ensures (forall times: seq<real>, i: nat, k: nat :: i < k <= |times| ==> RateLaw(cfg, times, i, k))
       <==> cfg.burst >= 1
  {
    if cfg.burst >= 1 {
      forall times: seq<real>, i: nat, k: nat | i < k <= |times| ensures RateLaw(cfg, times, i, k) {
        RateLawHolds(cfg, times, i, k);
      }
    } else {
      var times := [0.0];
      assert times[..0] == [] && AdmittedIn(cfg, times, 0, 0) == 0;
      assert !RateLaw(cfg, times, 0, 1);
    }
  }

  // ---------------------------------------------------------------- what admission means

  /** The times of the admitted calls. */
  function AdmittedTimes(cfg: Config, times: seq<real>): seq<real> {
    if times == [] then []
    else
      var n := |times| - 1;
      AdmittedTimes(cfg, times[..n]) + (if LoneAdmits(cfg, times, n) then [times[n]] else [])
  }

  /** What is refilled from one time to another. */
  function Gain(cfg: Config, from: real, now: real): real { (now - from) * cfg.rate }

  /** A level and what is refilled, up to the burst. */
  function Filled(cfg: Config, level: real, gain: real): real { Min(cfg.burst as real, level + gain) }

  /** A level refilled from one time to another. */
  function Capped(cfg: Config, level: real, from: real, now: real): real { Filled(cfg, level, Gain(cfg, from, now)) }

  /** The reference bucket: full until the first admission, and refilled only from one admission to the next. */
  function Level(cfg: Config, admitted: seq<real>, now: real): real {
    if admitted == [] then cfg.burst as real
    else
      var n := |admitted| - 1;
      Capped(cfg, Level(cfg, admitted[..n], admitted[n]) - 1.0, admitted[n], now)
  }

  ghost predicate Ordered(times: seq<real>) { forall i, j :: 0 <= i < j < |times| ==> times[i] <= times[j] }

  lemma {:induction false} AdmittedBefore(cfg: Config, times: seq<real>, now: real)
    requires forall i :: 0 <= i < |times| ==> times[i] <= now
    ensures var admitted := AdmittedTimes(cfg, times); admitted != [] ==> admitted[|admitted| - 1] <= now
  {
    if times != [] { AdmittedBefore(cfg, times[..|times| - 1], now); }
  }

  lemma GainSplits(cfg: Config, a: real, b: real, c: real)
    ensures Gain(cfg, a, c) == Gain(cfg, a, b) + Gain(cfg, b, c)
  {
    var x, y := b - a, c - b;
    assert c - a == x + y;
    assert (x + y) * cfg.rate == x * cfg.rate + y * cfg.rate;
  }

  lemma GainIsPositive(cfg: Config, a: real, b: real)
    requires a <= b && cfg.rate >= 0.0
    ensures Gain(cfg, a, b) >= 0.0
  {
    NonNegative(b - a, cfg.rate);
  }

  lemma TwoCaps(cfg: Config, level: real, x: real, y: real)
    requires y >= 0.0
    ensures Filled(cfg, Filled(cfg, level, x), y) == Filled(cfg, level, x + y)
  {}

  /** Cutting a refill in two. */
  lemma CappedTwice(cfg: Config, level: real, a: real, b: real, c: real)
    requires a <= b <= c && cfg.rate >= 0.0
    ensures Capped(cfg, Capped(cfg, level, a, b), b, c) == Capped(cfg, level, a, c)
  {
    GainSplits(cfg, a, b, c);
    GainIsPositive(cfg, b, c);
    TwoCaps(cfg, level, Gain(cfg, a, b), Gain(cfg, b, c));
  }

  lemma FullStays(cfg: Config, at: real, now: real)
    requires cfg.rate >= 0.0 && at <= now
    ensures Capped(cfg, cfg.burst as real, at, now) == cfg.burst as real
  {
    GainIsPositive(cfg, at, now);
  }

  lemma {:induction false} LevelLater(cfg: Config, admitted: seq<real>, at: real, now: real)
    requires cfg.rate >= 0.0 && at <= now && (admitted != [] ==> admitted[|admitted| - 1] <= at)
    ensures Capped(cfg, Level(cfg, admitted, at), at, now) == Level(cfg, admitted, now)
  {
    if admitted == [] {
      FullStays(cfg, at, now);
    } else {
      var n := |admitted| - 1;
      CappedTwice(cfg, Level(cfg, admitted[..n], admitted[n]) - 1.0, admitted[n], at, now);
    }
  }

  lemma RefilledIs(cfg: Config, b: Bucket, now: real)
    requires b.last <= now
    ensures Refilled(cfg, b, now) == Capped(cfg, b.tokens, b.last, now)
  {}

  lemma {:induction false} LevelOneMore(cfg: Config, admitted: seq<real>, at: real, now: real)
    ensures Level(cfg, admitted + [at], now) == Capped(cfg, Level(cfg, admitted, at) - 1.0, at, now)
  {
    assert (admitted + [at])[..|admitted|] == admitted;
  }

  /** What an admitted call leaves, given the level it met. */
  lemma AdmittedLeaves(cfg: Config, b: Option<Bucket>, at: real, level: real)
    requires Allowed(cfg, b, at) && level == if b.None? then cfg.burst as real else Refilled(cfg, b.value, at)
    ensures NextBucket(cfg, b, at) == Bucket(level - 1.0, at)
  {}

  lemma {:induction false} LazyAdmits(cfg: Config, b: Option<Bucket>, admitted: seq<real>, at: real, now: real)
    requires at <= now && Allowed(cfg, b, at)
    requires (if b.None? then cfg.burst as real else Refilled(cfg, b.value, at)) == Level(cfg, admitted, at)
    ensures Refilled(cfg, NextBucket(cfg, b, at), now) == Level(cfg, admitted + [at], now)
  {
    var level := Level(cfg, admitted, at);
    AdmittedLeaves(cfg, b, at, level);
    RefilledIs(cfg, Bucket(level - 1.0, at), now);
    LevelOneMore(cfg, admitted, at, now);
  }

  lemma {:induction false} LazyRefuses(cfg: Config, b: Option<Bucket>, admitted: seq<real>, at: real, now: real)
    requires cfg.rate >= 0.0 && at <= now && (admitted != [] ==> admitted[|admitted| - 1] <= at) && !Allowed(cfg, b, at)
    requires Refilled(cfg, b.value, at) == Level(cfg, admitted, at)
    ensures Refilled(cfg, NextBucket(cfg, b, at), now) == Level(cfg, admitted, now)
  {
    RefilledIs(cfg, NextBucket(cfg, b, at), now);
    LevelLater(cfg, admitted, at, now);
  }

  /** Lazy refill refines the reference: the bucket's level at any later time is the reference's. */
  lemma {:induction false} LazyIsReference(cfg: Config, times: seq<real>, now: real)
    requires cfg.burst >= 1 && cfg.rate >= 0.0 && Ordered(times) && times != [] && times[|times| - 1] <= now
    ensures Refilled(cfg, Lone(cfg, times).value, now) == Level(cfg, AdmittedTimes(cfg, times), now)
  {
    var n := |times| - 1;
    var before, at := times[..n], times[n];
    var admitted := AdmittedTimes(cfg, before);
    AdmittedBefore(cfg, before, at);
    if n > 0 { LazyIsReference(cfg, before, at); }
    if LoneAdmits(cfg, times, n) {
      LazyAdmits(cfg, Lone(cfg, before), admitted, at, now);
    } else {
      LazyRefuses(cfg, Lone(cfg, before), admitted, at, now);
    }
    assert AdmittedTimes(cfg, times) == if LoneAdmits(cfg, times, n) then admitted + [at] else admitted;
  }

  /** Admissions from `j` on, and `x` more, fit into the burst and what is refilled since admission `j`. */
  predicate Fits(cfg: Config, admitted: seq<real>, j: nat, now: real, x: real)
    requires j < |admitted|
  {
    (|admitted| - j) as real + x <= cfg.burst as real + Gain(cfg, admitted[j], now)
  }

  /** Room for `x` more in every window that starts at an earlier admission, and in the burst itself. */
  ghost predicate Room(cfg: Config, admitted: seq<real>, now: real, x: real) {
    x <= cfg.burst as real && forall j :: 0 <= j < |admitted| ==> Fits(cfg, admitted, j, now, x)
  }

  lemma {:induction false} FitsEarlier(cfg: Config, admitted: seq<real>, at: real, j: nat, now: real, x: real, y: real)
    requires j < |admitted| && y == x + 1.0 - Gain(cfg, at, now)
    ensures Fits(cfg, admitted + [at], j, now, x) <==> Fits(cfg, admitted, j, at, y)
  {
    var a := admitted[j];
    GainSplits(cfg, a, at, now);
    assert (admitted + [at])[j] == a;
  }

  lemma {:induction false} LastFits(cfg: Config, admitted: seq<real>, now: real, x: real, y: real)
    requires admitted != [] && y == x + 1.0 - Gain(cfg, admitted[|admitted| - 1], now)
    ensures Fits(cfg, admitted, |admitted| - 1, now, x) <==> y <= cfg.burst as real
  {}

  lemma {:induction false} RoomSplits(cfg: Config, before: seq<real>, at: real, now: real, x: real, y: real)
    requires y == x + 1.0 - Gain(cfg, at, now)
    ensures Room(cfg, before + [at], now, x) <==> x <= cfg.burst as real && Room(cfg, before, at, y)
  {
    var admitted, n := before + [at], |before|;
    forall j | 0 <= j < n ensures Fits(cfg, admitted, j, now, x) <==> Fits(cfg, before, j, at, y) {
      FitsEarlier(cfg, before, at, j, now, x, y);
    }
    LastFits(cfg, admitted, now, x, y);
    if Room(cfg, admitted, now, x) {
      assert Fits(cfg, admitted, n, now, x);
      forall j | 0 <= j < n ensures Fits(cfg, before, j, at, y) { assert Fits(cfg, admitted, j, now, x); }
    }
  }

  lemma {:induction false} LevelSplits(cfg: Config, before: seq<real>, at: real, now: real, x: real, y: real)
    requires y == x + 1.0 - Gain(cfg, at, now)
    ensures Level(cfg, before + [at], now) >= x <==> x <= cfg.burst as real && Level(cfg, before, at) >= y
  {
    LevelOneMore(cfg, before, at, now);
    FilledSplits(cfg, Level(cfg, before, at), Gain(cfg, at, now), x);
  }

  lemma FilledSplits(cfg: Config, level: real, gain: real, x: real)
    ensures Filled(cfg, level - 1.0, gain) >= x <==> x <= cfg.burst as real && level >= x + 1.0 - gain
  {}

  /** The reference's level says exactly how much room the admissions leave. */
  lemma {:induction false} LevelIsRoom(cfg: Config, admitted: seq<real>, now: real, x: real)
    ensures Level(cfg, admitted, now) >= x <==> Room(cfg, admitted, now, x)
    decreases |admitted|
  {
    if admitted != [] {
      var before, at := admitted[..|admitted| - 1], admitted[|admitted| - 1];
      var y := x + 1.0 - Gain(cfg, at, now);
      assert before + [at] == admitted;
      LevelIsRoom(cfg, before, at, y);
      RoomSplits(cfg, before, at, now, x, y);
      LevelSplits(cfg, before, at, now, x, y);
    }
  }

  /** For a clock that never steps back, a call is admitted exactly when admitting it keeps every window since
      an earlier admission within burst plus refill: the bucket admits all it may, and refused calls do not count. */
  lemma {:induction false} AdmittedIffEveryWindowFits(cfg: Config, times: seq<real>, k: nat)
    requires cfg.burst >= 1 && cfg.rate >= 0.0 && Ordered(times) && k < |times|
    ensures LoneAdmits(cfg, times, k) <==> Room(cfg, AdmittedTimes(cfg, times[..k]), times[k], 1.0)
  {
    if k > 0 {
      LazyIsReference(cfg, times[..k], times[k]);
      LevelIsRoom(cfg, AdmittedTimes(cfg, times[..k]), times[k], 1.0);
    } else {
      assert times[..0] == [];
    }
  }

  // ---------------------------------------------------------------- Retry-After

  /** From a refused level, a call `w` seconds later is admitted. */
  predicate WaitSuffices(cfg: Config, tokens: real, w: real) {
    Refilled(cfg, Bucket(tokens, 0.0), w) >= 1.0
  }

  /** The unrounded wait refills a level to a whole token. */
  lemma WaitRefills(cfg: Config, tokens: real, w: real)
    requires cfg.rate > 0.0 && tokens < 1.0 && w >= Wait(cfg, tokens)
    ensures tokens + w * cfg.rate >= 1.0
  {
    var exact := (1.0 - tokens) / cfg.rate;
    assert exact * cfg.rate == 1.0 - tokens;
    Scale(exact, w, cfg.rate);
  }

  /** The rounded wait suffices for every refused level exactly when the rate is at least 20 a second, which is
      the shipped value: a slower bucket can be asked to come back up to half a hundredth too early. */
  lemma RoundedWaitSufficesIff(cfg: Config)
    requires cfg.burst >= 1 && cfg.rate > 0.0
    ensures (forall tokens: real :: 0.0 <= tokens < 1.0 ==> WaitSuffices(cfg, tokens, Round2(Wait(cfg, tokens))))
       <==> cfg.rate >= 20.0
  {
    if cfg.rate >= 20.0 {
      forall tokens: real | 0.0 <= tokens < 1.0 ensures WaitSuffices(cfg, tokens, Round2(Wait(cfg, tokens))) {
        FastWaitIsFloor(cfg, tokens);
        WaitRefills(cfg, tokens, Round2(Wait(cfg, tokens)));
      }
    } else {
      var x := Min(1.0 / cfg.rate, 0.054);
      var tokens := 1.0 - x * cfg.rate;
      SlowWaitIsShort(cfg, x, tokens);
    }
  }

  lemma FastWaitIsFloor(cfg: Config, tokens: real)
    requires cfg.rate >= 20.0 && 0.0 <= tokens < 1.0
    ensures Round2(Wait(cfg, tokens)) == Wait(cfg, tokens) == 0.05
  {
    var exact := (1.0 - tokens) / cfg.rate;
    assert exact * cfg.rate == 1.0 - tokens;
    Cancel(20.0, cfg.rate, 0.05);
    Cancel(exact, 0.05, cfg.rate);
    assert 0.05 * 100.0 == 5.0;
  }

  lemma SlowWaitIsShort(cfg: Config, x: real, tokens: real)
    requires 0.0 < cfg.rate < 20.0 && x == Min(1.0 / cfg.rate, 0.054) && tokens == 1.0 - x * cfg.rate
    ensures 0.0 <= tokens < 1.0 && !WaitSuffices(cfg, tokens, Round2(Wait(cfg, tokens)))
    ensures Round2(Wait(cfg, tokens)) == 0.05
  {
    var inverse := 1.0 / cfg.rate;
    assert inverse * cfg.rate == 1.0;
    Cancel(20.0, cfg.rate, 0.05);
    Cancel(inverse, 0.05, cfg.rate);
    assert 0.05 < x <= 0.054;
    Cancel(x, inverse, cfg.rate);
    Cancel(x, 0.05, cfg.rate);
    assert (1.0 - tokens) / cfg.rate == x;
    assert (x * 100.0).Floor == 5;
    assert Round2(x) == 0.05;
  }

  lemma {:induction false} NobodyAdmitted(cfg: Config, times: seq<real>, i: nat, k: nat)
    requires i <= k <= |times| && forall m :: i <= m < k ==> !LoneAdmits(cfg, times, m)
    ensures AdmittedTimes(cfg, times[..k]) == AdmittedTimes(cfg, times[..i])
  {
    if i < k {
      NobodyAdmitted(cfg, times, i, k - 1);
      assert times[..k][..k - 1] == times[..k - 1];
      assert !LoneAdmits(cfg, times, k - 1);
    }
  }

  /** A call is admitted exactly when the reference has a token. */
  lemma {:induction false} AdmitsIffLevel(cfg: Config, times: seq<real>, k: nat)
    requires cfg.burst >= 1 && cfg.rate >= 0.0 && Ordered(times) && 0 < k < |times|
    ensures LoneAdmits(cfg, times, k) <==> Level(cfg, AdmittedTimes(cfg, times[..k]), times[k]) >= 1.0
  {
    LazyIsReference(cfg, times[..k], times[k]);
  }

  lemma {:induction false} RefilledInRange(cfg: Config, times: seq<real>, now: real)
    requires cfg.burst >= 1 && cfg.rate >= 0.0 && times != []
    ensures 0.0 <= Refilled(cfg, Lone(cfg, times).value, now)
  {
    var b := Lone(cfg, times).value;
    TokensInRange(cfg, times);
    NonNegative(Max(0.0, now - b.last), cfg.rate);
  }

  /** What a refused call found in its bucket. */
  function Found(cfg: Config, times: seq<real>, i: nat): real
    requires i < |times| && !LoneAdmits(cfg, times, i)
  {
    Refilled(cfg, Lone(cfg, times[..i]).value, times[i])
  }

  lemma {:induction false} WaitedLevel(cfg: Config, admitted: seq<real>, at: real, now: real)
    requires cfg.burst >= 1 && cfg.rate > 0.0 && Level(cfg, admitted, at) < 1.0
    requires admitted != [] ==> admitted[|admitted| - 1] <= at
    requires now - at >= Wait(cfg, Level(cfg, admitted, at))
    ensures Level(cfg, admitted, now) >= 1.0
  {
    LevelLater(cfg, admitted, at, now);
    WaitRefills(cfg, Level(cfg, admitted, at), now - at);
  }

  /** A refused call was not the first, and met the reference's level. */
  lemma {:induction false} FoundIsLevel(cfg: Config, times: seq<real>, i: nat)
    requires cfg.burst >= 1 && cfg.rate >= 0.0 && Ordered(times) && i < |times| && !LoneAdmits(cfg, times, i)
    ensures i > 0 && Found(cfg, times, i) == Level(cfg, AdmittedTimes(cfg, times[..i]), times[i]) < 1.0
  {
    LazyIsReference(cfg, times[..i], times[i]);
  }

  /** At any positive rate a call made at least the unrounded wait after a refusal is admitted, whatever refused calls
      came in between and however they moved the bucket's clock. */
  lemma {:induction false} UnroundedWaitSuffices(cfg: Config, times: seq<real>, i: nat, k: nat)
    requires cfg.burst >= 1 && cfg.rate > 0.0 && Ordered(times) && i < k < |times|
    requires forall m :: i <= m < k ==> !LoneAdmits(cfg, times, m)
    requires times[k] - times[i] >= Wait(cfg, Found(cfg, times, i))
    ensures LoneAdmits(cfg, times, k)
  {
    FoundIsLevel(cfg, times, i);
    AdmittedBefore(cfg, times[..i], times[i]);
    WaitedLevel(cfg, AdmittedTimes(cfg, times[..i]), times[i], times[k]);
    NobodyAdmitted(cfg, times, i, k);
    AdmitsIffLevel(cfg, times, k);
  }

  /** If call `i` was refused with a wait, nobody was admitted since, and call `k` is made that wait later, then it is
      admitted. */
  ghost predicate Honest(cfg: Config, times: seq<real>, i: nat, k: nat) {
    && Ordered(times) && i < k < |times| && (forall m :: i <= m < k ==> !LoneAdmits(cfg, times, m))
    && (var d := LoneDecision(cfg, times, i); d.Rejected? && times[k] >= times[i] + d.retryAfter)
    ==> LoneAdmits(cfg, times, k)
  }

  /** The returned, rounded wait is the unrounded one at 20 a second or more, which the shipped rate is. */
  lemma {:induction false} RetryAfterIsHonest(cfg: Config, times: seq<real>, i: nat, k: nat)
    requires cfg.burst >= 1 && cfg.rate >= 20.0
    ensures Honest(cfg, times, i, k)
  {
    if && Ordered(times) && i < k < |times| && (forall m :: i <= m < k ==> !LoneAdmits(cfg, times, m))
       && var d := LoneDecision(cfg, times, i); d.Rejected? && times[k] >= times[i] + d.retryAfter
    {
      RefilledInRange(cfg, times[..i], times[i]);
      FastWaitIsFloor(cfg, Found(cfg, times, i));
      UnroundedWaitSuffices(cfg, times, i, k);
    }
  }

  function Zeros(n: nat): seq<real> { seq(n, _ => 0.0) }

  /** A burst at one moment empties the bucket. */
  lemma {:induction false} BurstEmpties(cfg: Config, n: nat)
    requires cfg.burst >= 1 && 0 < n <= cfg.burst
    ensures Lone(cfg, Zeros(n)) == Some(Bucket((cfg.burst - n) as real, 0.0))
  {
    assert Zeros(n)[..n - 1] == Zeros(n - 1);
    if n > 1 {
      BurstEmpties(cfg, n - 1);
      assert 0.0 * cfg.rate == 0.0;
    } else {
      assert Zeros(0) == [];
    }
  }

  /** A burst, a call that finds `tokens`, and a call 50 milliseconds later. */
  lemma SlowHistory(cfg: Config, x: real, tokens: real, at: real)
    requires cfg.burst >= 1 && 0.0 < cfg.rate && 0.0 <= tokens < 1.0 && at >= 0.0 && at * cfg.rate == tokens
    requires Round2(Wait(cfg, tokens)) == x && x >= 0.0 && !WaitSuffices(cfg, tokens, x)
    ensures !Honest(cfg, Zeros(cfg.burst) + [at, at + x], cfg.burst, cfg.burst + 1)
  {
    var n := cfg.burst;
    var times := Zeros(n) + [at, at + x];
    BurstEmpties(cfg, n);
    assert times[..n] == Zeros(n) && times[n] == at && times[n + 1] == at + x;
    assert times[..n + 1] == Zeros(n) + [at];
    LoneOneMore(cfg, Zeros(n), at);
    SlowCalls(cfg, x, tokens, at);
  }

  lemma SlowCalls(cfg: Config, x: real, tokens: real, at: real)
    requires cfg.burst >= 1 && 0.0 < cfg.rate && 0.0 <= tokens < 1.0 && at >= 0.0 && at * cfg.rate == tokens
    requires Round2(Wait(cfg, tokens)) == x && x >= 0.0 && !WaitSuffices(cfg, tokens, x)
    ensures Answer(cfg, Some(Bucket(0.0, 0.0)), at) == Rejected(x)
    ensures NextBucket(cfg, Some(Bucket(0.0, 0.0)), at) == Bucket(tokens, at)
    ensures !Allowed(cfg, Some(Bucket(tokens, at)), at + x)
  {
    assert Refilled(cfg, Bucket(0.0, 0.0), at) == tokens;
    assert Refilled(cfg, Bucket(tokens, at), at + x) == Refilled(cfg, Bucket(tokens, 0.0), x);
  }

  /** Retry-After is honest in every history exactly when the rate is at least 20 a second. */
  lemma RetryAfterIsHonestIff(cfg: Config)
    requires cfg.burst >= 1 && cfg.rate > 0.0
    ensures (forall times, i, k :: Honest(cfg, times, i, k)) <==> cfg.rate >= 20.0
  {
    if cfg.rate >= 20.0 {
      forall times, i, k ensures Honest(cfg, times, i, k) { RetryAfterIsHonest(cfg, times, i, k); }
    } else {
      var x := Min(1.0 / cfg.rate, 0.054);
      var tokens := 1.0 - x * cfg.rate;
      SlowWaitIsShort(cfg, x, tokens);
      var at := tokens / cfg.rate;
      var wait := Round2(Wait(cfg, tokens));
      assert at * cfg.rate == tokens;
      NonNegativeQuotient(tokens, cfg.rate, at);
      SlowHistory(cfg, wait, tokens, at);
    }
  }

  /** A retry is admitted exactly when it waits for the missing part of a token, if nobody else was meanwhile. */
  lemma {:induction false} RetrySucceedsIff(cfg: Config, times: seq<real>, i: nat, k: nat)
    requires cfg.burst >= 1 && cfg.rate > 0.0 && Ordered(times) && i < k < |times|
    requires forall m :: i <= m < k ==> !LoneAdmits(cfg, times, m)
    ensures LoneAdmits(cfg, times, k) <==> times[k] - times[i] >= (1.0 - Found(cfg, times, i)) / cfg.rate
  {
    var admitted := AdmittedTimes(cfg, times[..i]);
    FoundIsLevel(cfg, times, i);
    AdmittedBefore(cfg, times[..i], times[i]);
    NobodyAdmitted(cfg, times, i, k);
    AdmitsIffLevel(cfg, times, k);
    LevelReaches(cfg, admitted, times[i], times[k], Found(cfg, times, i));
  }

  lemma {:induction false} LevelReaches(cfg: Config, admitted: seq<real>, at: real, now: real, level: real)
    requires cfg.burst >= 1 && cfg.rate > 0.0 && at <= now && (admitted != [] ==> admitted[|admitted| - 1] <= at)
    requires level == Level(cfg, admitted, at)
    ensures Level(cfg, admitted, now) >= 1.0 <==> now - at >= (1.0 - level) / cfg.rate
  {
    LevelLater(cfg, admitted, at, now);
    MissingPart(cfg.rate, level, now - at);
  }

  lemma MissingPart(rate: real, level: real, w: real)
    requires rate > 0.0
    ensures level + w * rate >= 1.0 <==> w >= (1.0 - level) / rate
  {
    var exact := (1.0 - level) / rate;
    assert exact * rate == 1.0 - level;
    Cancel(exact, w, rate);
  }

  /** The returned wait is that missing part to the nearest hundredth of a second, and at least 50 milliseconds. */
  lemma {:induction false} RetryAfterIsNear(cfg: Config, times: seq<real>, i: nat)
    requires cfg.burst >= 1 && cfg.rate > 0.0 && i < |times| && !LoneAdmits(cfg, times, i)
    ensures var d, exact := LoneDecision(cfg, times, i), (1.0 - Found(cfg, times, i)) / cfg.rate;
            && d.Rejected? && d.retryAfter >= 0.05
            && (if exact <= 0.05 then d.retryAfter == 0.05 else -0.005 <= d.retryAfter - exact <= 0.005)
  {
    var exact := (1.0 - Found(cfg, times, i)) / cfg.rate;
    RoundIsNear(Max(0.05, exact));
  }

  lemma NonNegativeQuotient(a: real, b: real, q: real)
    requires a >= 0.0 && b > 0.0 && q * b == a
    ensures q >= 0.0
  {
    Cancel(0.0, q, b);
  }
}
