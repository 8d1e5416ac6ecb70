/** The answers of the token bucket over histories of many agencies: when a call is answered Admitted, and how often. */
module Admission {

  import opened Wrappers
  import opened TokenBucket

  lemma {:induction false} TimesPrefix(h: seq<Call>, agency: string, k: nat)
    requires k <= |h|
    ensures Times(h[..k], agency) <= Times(h, agency)
  {
    if k == |h| {
      assert h[..k] == h;
    } else {
      var n := |h| - 1;
      TimesPrefix(h[..n], agency, k);
      assert h[..n][..k] == h[..k];
    }
  }

  lemma {:induction false} TimesStep(h: seq<Call>, agency: string, k: nat)
    requires k < |h|
    ensures Times(h[..k + 1], agency) == Times(h[..k], agency) + if h[k].agency == agency then [h[k].now] else []
  {
    assert h[..k + 1][..k] == h[..k];
  }

  /** What call `k` is to its agency's own bucket. */
  lemma {:induction false} DecidesAsLone(cfg: Config, h: seq<Call>, k: nat)
    requires k < |h|
    ensures var at := |Times(h[..k], h[k].agency)|;
            && at < |Times(h, h[k].agency)| && Times(h, h[k].agency)[at] == h[k].now
            && Times(h, h[k].agency)[..at] == Times(h[..k], h[k].agency)
            && Decide(cfg, h, k) == LoneDecision(cfg, Times(h, h[k].agency), at)
  {
    var agency := h[k].agency;
    TimesPrefix(h, agency, k);
    TimesPrefix(h, agency, k + 1);
    TimesStep(h, agency, k);
    InterleavedIsLone(cfg, h[..k], agency);
  }

  /** The times of an agency's calls that were answered Admitted. */
  function Granted(cfg: Config, h: seq<Call>, agency: string): seq<real> {
    if h == [] then []
    else
      var n := |h| - 1;
      Granted(cfg, h[..n], agency) + (if h[n].agency == agency && Decide(cfg, h, n).Admitted? then [h[n].now] else [])
  }

  lemma {:induction false} AdmittedOneMore(cfg: Config, before: seq<real>, now: real, times: seq<real>, d: Decision)
    requires times == before + [now] && d == LoneDecision(cfg, times, |before|)
    ensures AdmittedTimes(cfg, times) == AdmittedTimes(cfg, before) + if d.Admitted? then [now] else []
  {
    assert times[..|before|] == before;
  }

  lemma {:induction false} GrantedOneMore(cfg: Config, h: seq<Call>, agency: string, d: Decision)
    requires h != [] && h[|h| - 1].agency == agency && d == Decide(cfg, h, |h| - 1)
    ensures Granted(cfg, h, agency) ==
            Granted(cfg, h[..|h| - 1], agency) + if d.Admitted? then [h[|h| - 1].now] else []
  {}

  lemma {:induction false} GrantedIsAdmitted(cfg: Config, h: seq<Call>, agency: string)
    ensures Granted(cfg, h, agency) == AdmittedTimes(cfg, Times(h, agency))
  {
    if h != [] {
      var n := |h| - 1;
      GrantedIsAdmitted(cfg, h[..n], agency);
      TimesStep(h, agency, n);
      assert h[..n + 1] == h;
      if h[n].agency == agency {
        DecidesAsLone(cfg, h, n);
        AdmittedOneMore(cfg, Times(h[..n], agency), h[n].now, Times(h, agency), Decide(cfg, h, n));
        GrantedOneMore(cfg, h, agency, Decide(cfg, h, n));
      } else {
        assert Times(h, agency) == Times(h[..n], agency);
        assert Granted(cfg, h, agency) == Granted(cfg, h[..n], agency);
      }
    }
  }

  ghost predicate UpTo(times: seq<real>, now: real) { forall j :: 0 <= j < |times| ==> times[j] <= now }

  lemma {:induction false} TimesUpTo(h: seq<Call>, agency: string, now: real)
    requires forall i :: 0 <= i < |h| && h[i].agency == agency ==> h[i].now <= now
    ensures UpTo(Times(h, agency), now)
  {
    if h != [] { TimesUpTo(h[..|h| - 1], agency, now); }
  }

  lemma {:induction false} TimesAreOrdered(h: seq<Call>, agency: string)
    requires ClockRuns(h, agency)
    ensures Ordered(Times(h, agency))
  {
    if h != [] {
      var n := |h| - 1;
      TimesAreOrdered(h[..n], agency);
      if h[n].agency == agency { TimesUpTo(h[..n], agency, h[n].now); }
    }
  }

  /** In any history of many agencies, a call is answered Admitted exactly when every window since an earlier call of
      its agency that was answered so has room for it; for an agency's first call there is no such window. */
  lemma {:induction false} AnsweredIffRoom(cfg: Config, h: seq<Call>, k: nat)
    requires cfg.burst >= 1 && cfg.rate >= 0.0 && k < |h| && ClockRuns(h, h[k].agency)
    ensures Decide(cfg, h, k).Admitted? <==> Room(cfg, Granted(cfg, h[..k], h[k].agency), h[k].now, 1.0)
  {
    var agency := h[k].agency;
    DecidesAsLone(cfg, h, k);
    GrantedIsAdmitted(cfg, h[..k], agency);
    TimesAreOrdered(h, agency);
    AdmittedIffEveryWindowFits(cfg, Times(h, agency), |Times(h[..k], agency)|);
  }

  /** Whatever the configuration and the clock, an agency's first call is answered Admitted. */
  lemma {:induction false} FirstCallIsAdmitted(cfg: Config, h: seq<Call>, k: nat)
    requires k < |h| && forall j :: 0 <= j < k ==> h[j].agency != h[k].agency
    ensures Decide(cfg, h, k).Admitted?
  {
    NoTimes(h[..k], h[k].agency);
    DecidesAsLone(cfg, h, k);
  }

  lemma {:induction false} NoTimes(h: seq<Call>, agency: string)
    requires forall j :: 0 <= j < |h| ==> h[j].agency != agency
    ensures Times(h, agency) == []
  {
    if h != [] { NoTimes(h[..|h| - 1], agency); }
  }

  /** How many of the calls `i`, ..., `k - 1` are the agency's and answered Admitted. */
  function GrantedIn(cfg: Config, h: seq<Call>, agency: string, i: nat, k: nat): nat
    requires i <= k <= |h|
    decreases k
  {
    if i == k then 0
    else
      GrantedIn(cfg, h, agency, i, k - 1)
      + (if h[k - 1].agency == agency && Decide(cfg, h, k - 1).Admitted? then 1 else 0)
  }

  lemma {:induction false} FewerTimes(h: seq<Call>, agency: string, i: nat, k: nat)
    requires i <= k <= |h|
    ensures |Times(h[..i], agency)| <= |Times(h[..k], agency)| <= |Times(h, agency)|
  {
    TimesPrefix(h[..k], agency, i);
    assert h[..k][..i] == h[..i];
    TimesPrefix(h, agency, k);
  }

  function CountTrue(bs: seq<bool>, i: nat, k: nat): nat
    requires i <= k <= |bs|
    decreases k
  {
    if i == k then 0 else CountTrue(bs, i, k - 1) + if bs[k - 1] then 1 else 0
  }

  /** How many of an agency's calls come before call `j`. */
  function Before(h: seq<Call>, agency: string): (at: seq<nat>)
    ensures |at| == |h| + 1 && forall j :: 0 <= j <= |h| ==> at[j] == |Times(h[..j], agency)|
  {
    seq(|h| + 1, j requires 0 <= j <= |h| => |Times(h[..j], agency)|)
  }

  /** Mark `j` on a history is mark `at[j]` on one agency's calls, if it is of that agency. */
  ghost predicate SameMark(all: seq<bool>, own: seq<bool>, mine: seq<bool>, at: seq<nat>, j: nat)
    requires j < |all| == |mine| && |at| == |all| + 1
  {
    && at[j + 1] == at[j] + (if mine[j] then 1 else 0) && at[j + 1] <= |own|
    && all[j] == (mine[j] && own[at[j]])
  }

  /** Marks on a history, and the same marks on one agency's calls alone, count alike. */
  lemma {:induction false} CountAlike(all: seq<bool>, own: seq<bool>, mine: seq<bool>, at: seq<nat>, i: nat, k: nat)
    requires |mine| == |all| && |at| == |all| + 1 && i <= k <= |all| && at[i] <= |own|
    requires forall j :: 0 <= j < |all| ==> SameMark(all, own, mine, at, j)
    ensures at[i] <= at[k] <= |own| && CountTrue(all, i, k) == CountTrue(own, at[i], at[k])
    decreases k
  {
    if i < k {
      CountAlike(all, own, mine, at, i, k - 1);
      assert SameMark(all, own, mine, at, k - 1);
    }
  }

  /** The agency's calls that were answered Admitted, marked. */
  function Marks(cfg: Config, h: seq<Call>, agency: string): seq<bool> {
    seq(|h|, j requires 0 <= j < |h| => h[j].agency == agency && Decide(cfg, h, j).Admitted?)
  }

  function LoneMarks(cfg: Config, times: seq<real>): seq<bool> {
    seq(|times|, j requires 0 <= j < |times| => LoneAdmits(cfg, times, j))
  }

  lemma {:induction false} GrantedCounts(cfg: Config, h: seq<Call>, agency: string, i: nat, k: nat)
    requires i <= k <= |h|
    ensures GrantedIn(cfg, h, agency, i, k) == CountTrue(Marks(cfg, h, agency), i, k)
    decreases k
  {
    if i < k { GrantedCounts(cfg, h, agency, i, k - 1); }
  }

  lemma {:induction false} AdmittedCounts(cfg: Config, times: seq<real>, i: nat, k: nat)
    requires i <= k <= |times|
    ensures AdmittedIn(cfg, times, i, k) == CountTrue(LoneMarks(cfg, times), i, k)
    decreases k
  {
    if i < k { AdmittedCounts(cfg, times, i, k - 1); }
  }

  lemma {:induction false} MarksAgree(cfg: Config, h: seq<Call>, agency: string, own: seq<bool>, mine: seq<bool>,
                                      j: nat)
    requires j < |h| == |mine| && own == LoneMarks(cfg, Times(h, agency)) && mine[j] == (h[j].agency == agency)
    ensures SameMark(Marks(cfg, h, agency), own, mine, Before(h, agency), j)
  {
    TimesStep(h, agency, j);
    FewerTimes(h, agency, j, j + 1);
    if h[j].agency == agency { DecidesAsLone(cfg, h, j); }
  }

  lemma {:induction false} GrantedAsLone(cfg: Config, h: seq<Call>, agency: string, i: nat, k: nat, a: nat, b: nat)
    requires i <= k <= |h| && a == |Times(h[..i], agency)| && b == |Times(h[..k], agency)|
    requires a <= b <= |Times(h, agency)|
    ensures GrantedIn(cfg, h, agency, i, k) == AdmittedIn(cfg, Times(h, agency), a, b)
  {
    var all, own := Marks(cfg, h, agency), LoneMarks(cfg, Times(h, agency));
    var mine := seq(|h|, j requires 0 <= j < |h| => h[j].agency == agency);
    forall j | 0 <= j < |h| ensures SameMark(all, own, mine, Before(h, agency), j) {
      MarksAgree(cfg, h, agency, own, mine, j);
    }
    CountAlike(all, own, mine, Before(h, agency), i, k);
    GrantedCounts(cfg, h, agency, i, k);
    AdmittedCounts(cfg, Times(h, agency), a, b);
  }

  /** The rate law for the answers of any history and any clock: over every stretch with a call of the agency, it is
      answered Admitted at most burst times plus what the forward movement of its own clock readings refills. */
  lemma {:induction false} RateLawOfAnswers(cfg: Config, h: seq<Call>, agency: string, i: nat, k: nat, a: nat, b: nat)
    requires cfg.burst >= 1 && cfg.rate >= 0.0 && i <= k <= |h|
    requires a == |Times(h[..i], agency)| < |Times(h[..k], agency)| == b
    ensures b <= |Times(h, agency)|
    ensures WithinRate(cfg, GrantedIn(cfg, h, agency, i, k), Forward(Times(h, agency), a, b))
  {
    FewerTimes(h, agency, i, k);
    GrantedAsLone(cfg, h, agency, i, k, a, b);
    LawOfTimes(cfg, Times(h, agency), a, b, GrantedIn(cfg, h, agency, i, k));
  }

  lemma {:induction false} LawOfTimes(cfg: Config, times: seq<real>, a: nat, b: nat, granted: nat)
    requires cfg.burst >= 1 && cfg.rate >= 0.0 && a < b <= |times| && granted == AdmittedIn(cfg, times, a, b)
    ensures WithinRate(cfg, granted, Forward(times, a, b))
  {
    RateLawHolds(cfg, times, a, b);
  }
}
