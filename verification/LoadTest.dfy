/** The dashboard's load test: `_run_timed_burst`, `determine_test_result` and `classify_load_test_status`. */
module LoadTest {

  import opened Wrappers
  import opened Reals

  /** How one request ends. Anything but a timeout or an HTTP error escapes and fails the whole run. */
  datatype Outcome = Response(code: int, latency: real) | Timeout | Transport | Escapes

  datatype Result = Result(requested: nat, completed: nat, accepted202: nat, rejected429: nat, rejected4xx: nat,
                           failed5xx: nat, failedTimeout: nat, failedTransport: nat,
                           p50: Option<real>, p95: Option<real>, p99: Option<real>)

  /** The counter a response code is normalised to. */
  function Normalised(code: int): int {
    if code == 200 || code == 202 then 202
    else if code == 429 then 429
    else if 400 <= code < 500 then 400
    else if code >= 500 then 500
    else 202
  }

  // ---------------------------------------------------------------- counting

  predicate CountsIn(o: Outcome, bucket: int) { o.Response? && Normalised(o.code) == bucket }

  function Count(os: seq<Outcome>, bucket: int): nat {
    if os == [] then 0 else Count(os[..|os| - 1], bucket) + (if CountsIn(os[|os| - 1], bucket) then 1 else 0)
  }

  function CountTimeouts(os: seq<Outcome>): nat {
    if os == [] then 0 else CountTimeouts(os[..|os| - 1]) + (if os[|os| - 1].Timeout? then 1 else 0)
  }

  function CountTransport(os: seq<Outcome>): nat {
    if os == [] then 0 else CountTransport(os[..|os| - 1]) + (if os[|os| - 1].Transport? then 1 else 0)
  }

  function Latencies(os: seq<Outcome>): seq<real> {
    if os == [] then []
    else Latencies(os[..|os| - 1]) + (if os[|os| - 1].Response? then [os[|os| - 1].latency] else [])
  }

  /** Every request lands in exactly one counter: the counters add up to the number of requests. */
  lemma {:induction false} CountersAddUp(os: seq<Outcome>)
    requires forall o :: o in os ==> !o.Escapes?
    ensures Count(os, 202) + Count(os, 429) + Count(os, 400) + Count(os, 500)
            + CountTimeouts(os) + CountTransport(os) == |os|
    ensures Count(os, 404) == Count(os, 503) == 0
    ensures |Latencies(os)| == Count(os, 202) + Count(os, 429) + Count(os, 400) + Count(os, 500)
  {
    if os != [] {
      assert os[|os| - 1] in os;
      CountersAddUp(os[..|os| - 1]);
    }
  }

  lemma {:induction false} NoneCounted(os: seq<Outcome>, bucket: int)
    ensures Count(os, bucket) == 0 <==> forall i :: 0 <= i < |os| ==> !CountsIn(os[i], bucket)
  {
    if os != [] { NoneCounted(os[..|os| - 1], bucket); }
  }

  lemma {:induction false} NoTimeouts(os: seq<Outcome>)
    ensures CountTimeouts(os) == 0 <==> forall i :: 0 <= i < |os| ==> !os[i].Timeout?
  {
    if os != [] { NoTimeouts(os[..|os| - 1]); }
  }

  lemma {:induction false} NoTransport(os: seq<Outcome>)
    ensures CountTransport(os) == 0 <==> forall i :: 0 <= i < |os| ==> !os[i].Transport?
  {
    if os != [] { NoTransport(os[..|os| - 1]); }
  }

  // ---------------------------------------------------------------- percentiles

  function Insert(x: real, s: seq<real>): (r: seq<real>)
    ensures |r| == |s| + 1
  {
    if s == [] || x <= s[0] then [x] + s else [s[0]] + Insert(x, s[1..])
  }

  function Sort(s: seq<real>): (r: seq<real>)
    ensures |r| == |s|
  {
    if s == [] then [] else Insert(s[0], Sort(s[1..]))
  }

  ghost predicate Sorted(s: seq<real>) { forall i, j :: 0 <= i < j < |s| ==> s[i] <= s[j] }

  function Below(s: seq<real>, x: real): (n: nat)
    ensures n <= |s|
  {
    if s == [] then 0 else (if s[0] < x then 1 else 0) + Below(s[1..], x)
  }

  lemma {:induction false} InsertSorts(x: real, s: seq<real>)
    requires Sorted(s)
    ensures Sorted(Insert(x, s)) && (Insert(x, s)[0] == x || (s != [] && Insert(x, s)[0] == s[0]))
  {
    if s != [] && x > s[0] {
      InsertSorts(x, s[1..]);
      var t := Insert(x, s[1..]);
      forall j | 0 <= j < |t| ensures s[0] <= t[j] {
        assert t[0] <= t[j];
      }
    }
  }

  lemma {:induction false} InsertKeepsBelow(x: real, s: seq<real>, bound: real)
    ensures Below(Insert(x, s), bound) == Below(s, bound) + (if x < bound then 1 else 0)
  {
    if s != [] && x > s[0] {
      InsertKeepsBelow(x, s[1..], bound);
      assert Insert(x, s)[1..] == Insert(x, s[1..]);
    } else {
      assert ([x] + s)[1..] == s;
    }
  }

  lemma {:induction false} SortSorts(s: seq<real>, bound: real)
    ensures Sorted(Sort(s)) && Below(Sort(s), bound) == Below(s, bound)
  {
    if s != [] {
      SortSorts(s[1..], bound);
      InsertSorts(s[0], Sort(s[1..]));
      InsertKeepsBelow(s[0], Sort(s[1..]), bound);
    }
  }

  /** An order statistic is below a bound exactly when more readings than its index are. */
  lemma {:induction false} OrderStatistic(s: seq<real>, k: nat, bound: real)
    requires Sorted(s) && k < |s|
    ensures s[k] < bound <==> Below(s, bound) > k
  {
    if s[0] >= bound {
      NoneBelow(s, bound);
      assert k > 0 ==> s[0] <= s[k];
    } else if k > 0 {
      OrderStatistic(s[1..], k - 1, bound);
    }
  }

  lemma {:induction false} NoneBelow(s: seq<real>, bound: real)
    requires forall i :: 0 <= i < |s| ==> s[i] >= bound
    ensures Below(s, bound) == 0
  {
    if s != [] { NoneBelow(s[1..], bound); }
  }

  /** The element at `percent` of the sorted latencies, rounded; nothing without latencies. */
  function Percentile(latencies: seq<real>, percent: nat): Option<real>
    requires percent < 100
  {
    var n := |latencies|;
    if n == 0 then None
    else
      assert n * percent <= n * 99;
      Some(Round2(Sort(latencies)[n * percent / 100]))
  }

  // ---------------------------------------------------------------- the burst

  function Summary(os: seq<Outcome>): Result {
    var ls := Latencies(os);
    Result(|os|, |os|, Count(os, 202), Count(os, 429), Count(os, 400), Count(os, 500), CountTimeouts(os),
           CountTransport(os), Percentile(ls, 50), Percentile(ls, 95), Percentile(ls, 99))
  }

  predicate Completes(os: seq<Outcome>) { forall o :: o in os ==> !o.Escapes? }

  /** Counts the requests as they end; `ok` is false when an exception escapes from one. */
  method CollectOutcomes(outcomes: seq<Outcome>)
    returns (ok: bool, statusCodes: map<int, nat>, timeouts: nat, transportFailures: nat, latencies: seq<real>)
    ensures ok == Completes(outcomes)
    ensures ok ==> statusCodes.Keys == {202, 429, 400, 404, 500, 503}
    ensures ok ==> forall k :: k in statusCodes ==> statusCodes[k] == Count(outcomes, k)
    ensures ok ==> timeouts == CountTimeouts(outcomes) && transportFailures == CountTransport(outcomes)
    ensures ok ==> latencies == Latencies(outcomes)
  {
    ok, latencies := true, [];
    statusCodes := map[202 := 0, 429 := 0, 400 := 0, 404 := 0, 500 := 0, 503 := 0];
    timeouts, transportFailures := 0, 0;
    for i := 0 to |outcomes|
      invariant ok && Completes(outcomes[..i])
      invariant statusCodes.Keys == {202, 429, 400, 404, 500, 503}
      invariant forall k :: k in statusCodes ==> statusCodes[k] == Count(outcomes[..i], k)
      invariant timeouts == CountTimeouts(outcomes[..i]) && transportFailures == CountTransport(outcomes[..i])
      invariant latencies == Latencies(outcomes[..i])
    {
      assert outcomes[..i + 1][..i] == outcomes[..i];
      assert outcomes[i] in outcomes;
      match outcomes[i]
      case Response(code, latency) =>
        var normal := Normalised(code);
        statusCodes := statusCodes[normal := statusCodes[normal] + 1];
        latencies := latencies + [latency];
      case Timeout => timeouts := timeouts + 1;
      case Transport => transportFailures := transportFailures + 1;
      case Escapes =>
        ok := false;
        return;
    }
    assert outcomes[..|outcomes|] == outcomes;
  }

  /** `_run_timed_burst`, over the outcomes of its requests in the order in which they end. A run that an
      exception escapes from has no result. */
  method RunTimedBurst(outcomes: seq<Outcome>) returns (r: Option<Result>)
    ensures r == if Completes(outcomes) then Some(Summary(outcomes)) else None
  {
    var ok, statusCodes, timeouts, transportFailures, latencies := CollectOutcomes(outcomes);
    if !ok { return None; }
    CountersAddUp(outcomes);
    var n, sorted := |latencies|, Sort(latencies);
    var p50, p95, p99 := None, None, None;
    if n > 0 {
      p50 := Some(Round2(sorted[n * 50 / 100]));
      p95 := Some(Round2(sorted[if n - 1 < n * 95 / 100 then n - 1 else n * 95 / 100]));
      p99 := Some(Round2(sorted[if n - 1 < n * 99 / 100 then n - 1 else n * 99 / 100]));
    }
    r := Some(Result(|outcomes|, |outcomes|, statusCodes[202], statusCodes[429], statusCodes[400] + statusCodes[404],
                     statusCodes[500] + statusCodes[503], timeouts, transportFailures, p50, p95, p99));
  }

  // ---------------------------------------------------------------- what the numbers mean

  /** The requests that were answered with a code from `low` up to `high`, but not with `but`. */
  ghost function AnsweredWith(os: seq<Outcome>, low: int, high: int, but: int): set<int> {
    set i | 0 <= i < |os| && os[i].Response? && low <= os[i].code < high && os[i].code != but
  }

  ghost function CountedIn(os: seq<Outcome>, bucket: int): set<int> {
    set i | 0 <= i < |os| && CountsIn(os[i], bucket)
  }

  ghost function TimedOut(os: seq<Outcome>): set<int> { set i | 0 <= i < |os| && os[i].Timeout? }

  ghost function Broken(os: seq<Outcome>): set<int> { set i | 0 <= i < |os| && os[i].Transport? }

  lemma {:induction false} CountIsSize(os: seq<Outcome>, bucket: int)
    ensures Count(os, bucket) == |CountedIn(os, bucket)|
  {
    if os == [] {
      assert CountedIn(os, bucket) == {};
    } else {
      var n := |os| - 1;
      CountIsSize(os[..n], bucket);
      assert CountedIn(os, bucket) == CountedIn(os[..n], bucket) + if CountsIn(os[n], bucket) then {n} else {};
    }
  }

  lemma {:induction false} TimeoutsAreSize(os: seq<Outcome>)
    ensures CountTimeouts(os) == |TimedOut(os)|
  {
    if os == [] {
      assert TimedOut(os) == {};
    } else {
      var n := |os| - 1;
      TimeoutsAreSize(os[..n]);
      assert TimedOut(os) == TimedOut(os[..n]) + if os[n].Timeout? then {n} else {};
    }
  }

  lemma {:induction false} TransportIsSize(os: seq<Outcome>)
    ensures CountTransport(os) == |Broken(os)|
  {
    if os == [] {
      assert Broken(os) == {};
    } else {
      var n := |os| - 1;
      TransportIsSize(os[..n]);
      assert Broken(os) == Broken(os[..n]) + if os[n].Transport? then {n} else {};
    }
  }

  /** Each counter of the summary is the number of requests that ended so: codes below 400 are accepted, 429 stands on
      its own, the rest of the 400s together, and everything from 500 on. */
  lemma {:induction false} CountersMean(os: seq<Outcome>)
    ensures var r := Summary(os);
            && r.requested == r.completed == |os|
            && r.rejected429 == |AnsweredWith(os, 429, 430, 0)|
            && r.rejected4xx == |AnsweredWith(os, 400, 500, 429)|
            && r.failedTimeout == |TimedOut(os)| && r.failedTransport == |Broken(os)|
    ensures forall i :: 0 <= i < |os| && os[i].Response? ==>
              && (i in CountedIn(os, 202) <==> os[i].code < 400)
              && (i in CountedIn(os, 500) <==> os[i].code >= 500)
    ensures Summary(os).accepted202 == |CountedIn(os, 202)| && Summary(os).failed5xx == |CountedIn(os, 500)|
  {
    CountIsSize(os, 202);
    CountIsSize(os, 429);
    CountIsSize(os, 400);
    CountIsSize(os, 500);
    TimeoutsAreSize(os);
    TransportIsSize(os);
    assert CountedIn(os, 429) == AnsweredWith(os, 429, 430, 0);
    assert CountedIn(os, 400) == AnsweredWith(os, 400, 500, 429);
  }

  /** `v` is the reading that has `k` of them below it in order: it is below a bound exactly when more than `k` are. */
  ghost predicate IsRanked(latencies: seq<real>, k: nat, v: real) {
    forall bound: real :: v < bound <==> Below(latencies, bound) > k
  }

  /** `p` is the reading that `percent` in a hundred lie before, rounded; there is none without readings. */
  ghost predicate IsPercentile(latencies: seq<real>, percent: nat, p: Option<real>) {
    if latencies == [] then p.None?
    else exists v :: IsRanked(latencies, |latencies| * percent / 100, v) && p == Some(Round2(v))
  }

  lemma {:induction false} PercentileIsRanked(latencies: seq<real>, percent: nat)
    requires percent < 100
    ensures IsPercentile(latencies, percent, Percentile(latencies, percent))
  {
    if latencies != [] {
      assert |latencies| * percent <= |latencies| * 99;
      SortRanks(latencies, |latencies| * percent / 100);
    }
  }

  lemma {:induction false} SortRanks(latencies: seq<real>, k: nat)
    requires k < |latencies|
    ensures IsRanked(latencies, k, Sort(latencies)[k])
  {
    forall bound: real ensures Sort(latencies)[k] < bound <==> Below(latencies, bound) > k {
      SortSorts(latencies, bound);
      OrderStatistic(Sort(latencies), k, bound);
    }
  }

  /** The summary's three percentiles are those of the latencies of the answered requests, in whatever order these
      ended. */
  lemma {:induction false} PercentilesMean(os: seq<Outcome>)
    ensures var r, ls := Summary(os), Latencies(os);
            IsPercentile(ls, 50, r.p50) && IsPercentile(ls, 95, r.p95) && IsPercentile(ls, 99, r.p99)
  {
    PercentileIsRanked(Latencies(os), 50);
    PercentileIsRanked(Latencies(os), 95);
    PercentileIsRanked(Latencies(os), 99);
  }

  // ---------------------------------------------------------------- the verdict

  /** `determine_test_result`: whether it says PASS. */
  predicate Passes(r: Result, target: int) {
    if r.requested == 0 || r.completed == 0 then false
    else if r.completed < r.requested then false
    else if r.requested < target then false
    else if r.failed5xx > 0 then false
    else if r.failedTimeout > 0 || r.failedTransport > 0 then false
    else if r.p95.None? || r.p95.value >= 150.0 then false
    else r.accepted202 as real / r.requested as real >= 0.75
  }

  /** Rounding can hide up to half a hundredth of a millisecond. */
  lemma RoundsBelow150(x: real)
    ensures Round2(x) < 150.0 <==> x < 149.995
  {
    var y := x * 100.0;
    var f := y.Floor;
    assert x < 149.995 <==> y < 14999.5;
    if f <= 14998 || f >= 15000 {
    } else {
      assert f == 14999 && f % 2 == 1;
    }
  }

  lemma {:induction false} P95Below150(latencies: seq<real>)
    requires latencies != []
    ensures Percentile(latencies, 95).value < 150.0 <==> Below(latencies, 149.995) > |latencies| * 95 / 100
  {
    var k := |latencies| * 95 / 100;
    SortSorts(latencies, 149.995);
    OrderStatistic(Sort(latencies), k, 149.995);
    RoundsBelow150(Sort(latencies)[k]);
  }

  predicate Answered(o: Outcome) { o.Response? && o.code < 500 }

  lemma {:induction false} AllAnswered(os: seq<Outcome>)
    requires Completes(os)
    ensures Count(os, 500) == CountTimeouts(os) == CountTransport(os) == 0
       <==> forall i :: 0 <= i < |os| ==> Answered(os[i])
  {
    NoneCounted(os, 500);
    NoTimeouts(os);
    NoTransport(os);
    forall i | 0 <= i < |os|
      ensures Answered(os[i]) <==> !CountsIn(os[i], 500) && !os[i].Timeout? && !os[i].Transport?
    {
      assert os[i] in os;
    }
  }

  /** The verdict in terms of the raw outcomes: a completed burst passes exactly when it has enough requests,
      every one is answered below 500, at least three quarters are accepted, and more than 95 in a hundred
      are answered within 149.995 milliseconds. */
  lemma {:induction false} VerdictIff(os: seq<Outcome>, target: int)
    requires Completes(os)
    ensures Passes(Summary(os), target)
       <==> && |os| > 0 && |os| >= target
            && (forall i :: 0 <= i < |os| ==> Answered(os[i]))
            && 4 * Count(os, 202) >= 3 * |os|
            && Below(Latencies(os), 149.995) > |os| * 95 / 100
  {
    CountersAddUp(os);
    AllAnswered(os);
    if |os| > 0 {
      assert Count(os, 202) as real / |os| as real >= 0.75 <==> 4 * Count(os, 202) >= 3 * |os| by {
        Quarter(Count(os, 202), |os|);
      }
      if Latencies(os) != [] {
        P95Below150(Latencies(os));
      }
    }
  }

  lemma Quarter(a: nat, n: nat)
    requires n > 0
    ensures a as real / n as real >= 0.75 <==> 4 * a >= 3 * n
  {
    var q := a as real / n as real;
    assert q * n as real == a as real;
    Cancel(0.75, q, n as real);
  }

  lemma {:induction false} BelowGrows(s: seq<real>, x: real, y: real)
    requires x <= y
    ensures Below(s, x) <= Below(s, y)
  {
    if s != [] { BelowGrows(s[1..], x, y); }
  }

  /** What a PASS promises: no failed request, three quarters accepted, over 95 in a hundred below 150 ms. */
  lemma {:induction false} PassIsSound(os: seq<Outcome>, target: int)
    requires Completes(os) && Passes(Summary(os), target)
    ensures forall i :: 0 <= i < |os| ==> Answered(os[i])
    ensures 4 * Count(os, 202) >= 3 * |os| > 0 && 100 * Below(Latencies(os), 150.0) > 95 * |os|
  {
    VerdictIff(os, target);
    BelowGrows(Latencies(os), 149.995, 150.0);
  }

  // ---------------------------------------------------------------- two classifications

  datatype Bucket = Accepted202 | Rejected429 | Rejected4xx | Failed5xx | FailedTransport

  /** `classify_load_test_status`, for a request that has a status code. */
  function Classify(code: int): Bucket {
    if code == 200 || code == 202 then Accepted202
    else if code == 429 then Rejected429
    else if 400 <= code < 500 then Rejected4xx
    else if 500 <= code < 600 then Failed5xx
    else FailedTransport
  }

  function BurstBucket(code: int): Bucket {
    match Normalised(code)
    case 202 => Accepted202
    case 429 => Rejected429
    case 400 => Rejected4xx
    case _ => Failed5xx
  }

  /** The burst's own normalisation agrees with the published classification only on the codes the API sends:
      it counts a redirect as accepted, which the classification calls a failed transport. */
  lemma ClassificationsAgreeIff(code: int)
    ensures BurstBucket(code) == Classify(code) <==> code == 200 || code == 202 || 400 <= code < 600
  {}
}
