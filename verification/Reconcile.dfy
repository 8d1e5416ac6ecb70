/** The dashboard's totals: `reconcile_document_lifecycle` over the counts per status that the API reports. */
module Reconcile {

  import opened Wrappers
  import opened Lifecycle

  /** The items of a dictionary of counts, in order; `None` is a null count. */
  type Counts = seq<(string, Option<int>)>

  datatype Totals = Totals(submitted: int, processing: int, completed: int, failed: int)

  function UpperChar(c: char): char { if 'a' <= c <= 'z' then c - 'a' + 'A' else c }

  /** `str.upper` on ASCII. */
  function Upper(s: string): string { seq(|s|, i requires 0 <= i < |s| => UpperChar(s[i])) }

  /** The comprehension over upper-cased keys: a later key replaces an equal earlier one. */
  function Normalized(counts: Counts): map<string, int> {
    if counts == [] then map[]
    else
      var (key, value) := counts[|counts| - 1];
      Normalized(counts[..|counts| - 1])[Upper(key) := if value.Some? then value.value else 0]
  }

  function Get(m: map<string, int>, key: string): int { if key in m then m[key] else 0 }

  /** `sum(normalized.values())`. */
  ghost function Sum(m: map<string, int>): int {
    if m == map[] then 0 else var k :| k in m; m[k] + Sum(m - {k})
  }

  ghost function Reconciled(counts: Option<Counts>): Totals {
    match counts
    case None => Totals(0, 0, 0, 0)
    case Some(items) =>
      var n := Normalized(items);
      Totals(AtLeastZero(Sum(n)),
             AtLeastZero(Get(n, "QUEUED") + Get(n, "PROCESSING") + Get(n, "RETRYING")),
             AtLeastZero(Get(n, "COMPLETED")),
             AtLeastZero(Get(n, "FAILED") + Get(n, "REJECTED")))
  }

  function AtLeastZero(x: int): int { if x < 0 then 0 else x }

  // ---------------------------------------------------------------- sums

  /** A sum does not depend on which key is taken first. */
  lemma {:induction false} SumSplit(m: map<string, int>, key: string)
    ensures Sum(m) == Get(m, key) + Sum(m - {key})
    decreases |m|
  {
    if key !in m {
      assert m - {key} == m;
    } else {
      var k :| k in m && Sum(m) == m[k] + Sum(m - {k});
      if k != key {
        SumSplit(m - {k}, key);
        SumSplit(m - {key}, k);
        assert m - {k} - {key} == m - {key} - {k};
      }
    }
  }

  lemma {:induction false} SumOfNonNegatives(m: map<string, int>)
    requires forall k :: k in m ==> m[k] >= 0
    ensures Sum(m) >= 0
    ensures Sum(m) == 0 <==> forall k :: k in m ==> m[k] == 0
    decreases |m|
  {
    if m != map[] {
      var k :| k in m && Sum(m) == m[k] + Sum(m - {k});
      SumOfNonNegatives(m - {k});
      assert forall j :: j in m <==> j == k || j in m - {k};
    }
  }

  const KNOWN := ["QUEUED", "PROCESSING", "RETRYING", "COMPLETED", "FAILED", "REJECTED"]

  function Beyond(m: map<string, int>): map<string, int> {
    m - {"QUEUED"} - {"PROCESSING"} - {"RETRYING"} - {"COMPLETED"} - {"FAILED"} - {"REJECTED"}
  }

  lemma SumOfKnown(m: map<string, int>)
    ensures Sum(m) == Get(m, "QUEUED") + Get(m, "PROCESSING") + Get(m, "RETRYING") + Get(m, "COMPLETED")
                      + Get(m, "FAILED") + Get(m, "REJECTED") + Sum(Beyond(m))
  {
    SumOfSix(m, "QUEUED", "PROCESSING", "RETRYING", "COMPLETED", "FAILED", "REJECTED");
  }

  lemma SumOfSix(m: map<string, int>, a: string, b: string, c: string, d: string, e: string, f: string)
    requires b !in {a} && c !in {a, b} && d !in {a, b, c} && e !in {a, b, c, d} && f !in {a, b, c, d, e}
    ensures Sum(m) == Get(m, a) + Get(m, b) + Get(m, c) + Get(m, d) + Get(m, e) + Get(m, f)
                      + Sum(m - {a} - {b} - {c} - {d} - {e} - {f})
  {
    SumSplit(m, a);
    SumSplit(m - {a}, b);
    SumSplit(m - {a} - {b}, c);
    SumSplit(m - {a} - {b} - {c}, d);
    SumSplit(m - {a} - {b} - {c} - {d}, e);
    SumSplit(m - {a} - {b} - {c} - {d} - {e}, f);
  }

  /** For counts that are not negative, the three totals add up to the submitted one exactly when every status the
      dashboard does not know has count zero. */
  lemma {:induction false} TotalsAddUpIff(items: Counts)
    requires forall k :: k in Normalized(items) ==> Normalized(items)[k] >= 0
    ensures var r := Reconciled(Some(items));
            r.processing + r.completed + r.failed == r.submitted <==>
            forall k :: k in Normalized(items) && k !in KNOWN ==> Normalized(items)[k] == 0
  {
    var n := Normalized(items);
    SumOfKnown(n);
    SumOfNonNegatives(n);
    SumOfNonNegatives(Beyond(n));
    assert forall k :: k in Beyond(n) <==> k in n && k !in KNOWN;
  }

  /** The same letter, perhaps in the other case. */
  predicate SameLetter(c: char, d: char) {
    c == d || ('a' <= c <= 'z' && d as int + 32 == c as int) || ('a' <= d <= 'z' && c as int + 32 == d as int)
  }

  /** The normalisation identifies exactly the keys that differ in case only. */
  lemma UpperIgnoresCase(a: string, b: string)
    ensures Upper(a) == Upper(b) <==> |a| == |b| && forall i :: 0 <= i < |a| ==> SameLetter(a[i], b[i])
  {
    if |a| == |b| {
      forall i | 0 <= i < |a| ensures Upper(a)[i] == Upper(b)[i] <==> SameLetter(a[i], b[i]) {}
    }
  }

  /** Keys that differ in case only are one status, and the last of them counts: the dashboard loses the others. */
  lemma {:induction false} LastSpellingCounts(items: Counts, i: nat)
    requires i < |items| && forall j :: i < j < |items| ==> Upper(items[j].0) != Upper(items[i].0)
    ensures Upper(items[i].0) in Normalized(items)
    ensures Normalized(items)[Upper(items[i].0)] == if items[i].1.Some? then items[i].1.value else 0
  {
    var n := |items| - 1;
    if i < n {
      LastSpellingCounts(items[..n], i);
      assert Upper(items[n].0) != Upper(items[i].0);
    }
  }

  lemma SumOfOne(key: string, n: int)
    ensures Sum(map[key := n]) == n
  {
    SumSplit(map[key := n], key);
    assert map[key := n] - {key} == map[];
  }

  /** Into which total a status goes, in whatever case it is written: queued, running and waiting for a retry are under
      way; completed is completed; failed and rejected have failed; an unknown one is submitted and nothing else. A
      negative count shows as zero, and a missing one too. */
  lemma OneStatus(key: string, value: Option<int>)
    ensures var n := if value.Some? && value.value > 0 then value.value else 0;
            var status := Upper(key);
            Reconciled(Some([(key, value)])) ==
            Totals(n, if status in {"QUEUED", "PROCESSING", "RETRYING"} then n else 0,
                   if status == "COMPLETED" then n else 0, if status in {"FAILED", "REJECTED"} then n else 0)
  {
    var items: Counts := [(key, value)];
    var n := if value.Some? then value.value else 0;
    assert items[..0] == [];
    assert Normalized(items) == map[Upper(key) := n];
    SumOfOne(Upper(key), n);
  }

  // ---------------------------------------------------------------- counts of a table

  function WithStatus(docs: map<nat, Doc>, status: string): set<nat> {
    set d | d in docs && docs[d].status == status
  }

  /** `SELECT status, COUNT(*) FROM documents GROUP BY status`, in any order. */
  ghost predicate GroupedByStatus(items: Counts, docs: map<nat, Doc>) {
    && (forall i, j :: 0 <= i < j < |items| ==> items[i].0 != items[j].0)
    && (forall i :: 0 <= i < |items| ==> items[i].1 == Some(|WithStatus(docs, items[i].0)|))
    && (forall d :: d in docs ==> exists i :: 0 <= i < |items| && items[i].0 == docs[d].status)
    && (forall i :: 0 <= i < |items| ==> WithStatus(docs, items[i].0) != {})
  }

  ghost predicate AllKnown(docs: map<nat, Doc>) { forall d :: d in docs ==> docs[d].status in STATUSES }

  lemma UpperKeepsKnown(status: string)
    requires forall i :: 0 <= i < |status| ==> 'A' <= status[i] <= 'Z'
    ensures Upper(status) == status
  {}

  lemma KnownAreUpper(status: string)
    requires status in STATUSES
    ensures Upper(status) == status
  {
    UpperKeepsKnown(status);
  }

  /** Distinct upper-case keys survive the normalisation as they are. */
  lemma {:induction false} NormalizedIsCounts(items: Counts)
    requires forall i :: 0 <= i < |items| ==> Upper(items[i].0) == items[i].0 && items[i].1.Some?
    requires forall i, j :: 0 <= i < j < |items| ==> items[i].0 != items[j].0
    ensures forall k :: k in Normalized(items) <==> exists i :: 0 <= i < |items| && items[i].0 == k
    ensures forall i :: 0 <= i < |items| ==>
              items[i].0 in Normalized(items) && Normalized(items)[items[i].0] == items[i].1.value
  {
    if items != [] {
      var n := |items| - 1;
      NormalizedIsCounts(items[..n]);
      assert forall i :: 0 <= i < n ==> items[..n][i] == items[i];
    }
  }

  /** The documents are the disjoint union of those of each status. */
  lemma DocsByStatus(docs: map<nat, Doc>)
    requires AllKnown(docs)
    ensures |docs| == |WithStatus(docs, "QUEUED")| + |WithStatus(docs, "PROCESSING")| + |WithStatus(docs, "RETRYING")|
                      + |WithStatus(docs, "COMPLETED")| + |WithStatus(docs, "FAILED")|
  {
    forall d | d in docs ensures OneOf(docs[d].status, "QUEUED", "PROCESSING", "RETRYING", "COMPLETED", "FAILED") {}
    DocsByFive(docs, "QUEUED", "PROCESSING", "RETRYING", "COMPLETED", "FAILED");
  }

  predicate OneOf(x: string, a: string, b: string, c: string, d: string, e: string) {
    x == a || x == b || x == c || x == d || x == e
  }

  lemma DocsByFive(docs: map<nat, Doc>, a: string, b: string, c: string, d: string, e: string)
    requires b !in {a} && c !in {a, b} && d !in {a, b, c} && e !in {a, b, c, d}
    requires forall x :: x in docs ==> OneOf(docs[x].status, a, b, c, d, e)
    ensures |docs| == |WithStatus(docs, a)| + |WithStatus(docs, b)| + |WithStatus(docs, c)| + |WithStatus(docs, d)|
                      + |WithStatus(docs, e)|
  {
    var d1 := Drop(docs, a);
    var d2 := Drop(d1, b);
    var d3 := Drop(d2, c);
    var d4 := Drop(d3, d);
    Peel(docs, a);
    Peel(d1, b);
    Peel(d2, c);
    Peel(d3, d);
    Peel(d4, e);
    assert forall x :: x in Drop(d4, e) <==> x in docs && !OneOf(docs[x].status, a, b, c, d, e);
    assert Drop(d4, e) == map[];
  }

  function Drop(docs: map<nat, Doc>, status: string): map<nat, Doc> {
    map d | d in docs && docs[d].status != status :: docs[d]
  }

  lemma Peel(docs: map<nat, Doc>, status: string)
    ensures |docs| == |WithStatus(docs, status)| + |Drop(docs, status)|
    ensures forall other :: other != status ==> WithStatus(Drop(docs, status), other) == WithStatus(docs, other)
  {
    assert docs.Keys == WithStatus(docs, status) + Drop(docs, status).Keys;
    assert WithStatus(docs, status) !! Drop(docs, status).Keys;
    assert |docs| == |docs.Keys| && |Drop(docs, status)| == |Drop(docs, status).Keys|;
    forall other | other != status ensures WithStatus(Drop(docs, status), other) == WithStatus(docs, other) {
      assert forall d :: d in WithStatus(docs, other) <==> d in WithStatus(Drop(docs, status), other);
    }
  }

  lemma {:induction false} CountIs(items: Counts, docs: map<nat, Doc>, status: string)
    requires GroupedByStatus(items, docs) && AllKnown(docs)
    ensures Get(Normalized(items), status) == |WithStatus(docs, status)|
    ensures status in Normalized(items) ==> status in STATUSES
  {
    GroupedAreKnown(items, docs);
    NormalizedIsCounts(items);
    if status !in Normalized(items) {
      assert forall d :: d in docs ==> docs[d].status != status;
      assert WithStatus(docs, status) == {};
    } else {
      var i :| 0 <= i < |items| && items[i].0 == status;
    }
  }

  lemma {:induction false} GroupedAreKnown(items: Counts, docs: map<nat, Doc>)
    requires GroupedByStatus(items, docs) && AllKnown(docs)
    ensures forall i :: 0 <= i < |items| ==> items[i].0 in STATUSES && Upper(items[i].0) == items[i].0
  {
    forall i | 0 <= i < |items| ensures items[i].0 in STATUSES && Upper(items[i].0) == items[i].0 {
      var d :| d in WithStatus(docs, items[i].0);
      KnownAreUpper(items[i].0);
    }
  }

  /** In every reachable state of the pipeline the dashboard's totals are those of the table: submitted counts every
      document, and processing, completed and failed split them. */
  lemma {:induction false} TotalsOfEveryRun(actions: seq<Action>, items: Counts)
    requires GroupedByStatus(items, Run(EMPTY, actions).tables.docs)
    ensures var docs := Run(EMPTY, actions).tables.docs;
            var r := Reconciled(Some(items));
            && r.submitted == |docs| == r.processing + r.completed + r.failed
            && r.completed == |WithStatus(docs, "COMPLETED")|
            && r.failed == |WithStatus(docs, "FAILED")|
  {
    var docs := Run(EMPTY, actions).tables.docs;
    RunKeepsInv(EMPTY, actions);
    assert StatusesKnown(Run(EMPTY, actions).tables);
    TotalsOfTable(items, docs);
  }

  lemma {:induction false} NothingElse(items: Counts, docs: map<nat, Doc>)
    requires GroupedByStatus(items, docs) && AllKnown(docs)
    ensures var n := Normalized(items);
            && Get(n, "REJECTED") == 0
            && Sum(n) == Get(n, "QUEUED") + Get(n, "PROCESSING") + Get(n, "RETRYING") + Get(n, "COMPLETED")
                         + Get(n, "FAILED")
  {
    var n := Normalized(items);
    CountIs(items, docs, "REJECTED");
    SumOfKnown(n);
    var beyond := Beyond(n);
    forall k | k in beyond ensures false { CountIs(items, docs, k); }
    assert beyond == map[];
  }

  lemma {:induction false} TotalsOfTable(items: Counts, docs: map<nat, Doc>)
    requires GroupedByStatus(items, docs) && AllKnown(docs)
    ensures var r := Reconciled(Some(items));
            && r.submitted == |docs| == r.processing + r.completed + r.failed
            && r.completed == |WithStatus(docs, "COMPLETED")|
            && r.failed == |WithStatus(docs, "FAILED")|
  {
    var n := Normalized(items);
    CountIs(items, docs, "QUEUED");
    CountIs(items, docs, "PROCESSING");
    CountIs(items, docs, "RETRYING");
    CountIs(items, docs, "COMPLETED");
    CountIs(items, docs, "FAILED");
    NothingElse(items, docs);
    DocsByStatus(docs);
  }

  /** A completed total never exceeds the number of stored results. */
  lemma {:induction false} CompletedAreBacked(actions: seq<Action>)
    ensures var t := Run(EMPTY, actions).tables; |WithStatus(t.docs, "COMPLETED")| <= |t.results|
  {
    var t := Run(EMPTY, actions).tables;
    EveryRunIsSafe(actions);
    ResultDocsCount(t.results);
    var have := set i | 0 <= i < |t.results| :: t.results[i].doc;
    forall d | d in WithStatus(t.docs, "COMPLETED") ensures d in have {
      assert HasResult(t, d);
      var r :| r in t.results && r.doc == d;
    }
    Subset(WithStatus(t.docs, "COMPLETED"), have);
  }

  lemma {:induction false} ResultDocsCount(results: seq<Result>)
    ensures |set i | 0 <= i < |results| :: results[i].doc| <= |results|
  {
    if results != [] {
      var n := |results| - 1;
      ResultDocsCount(results[..n]);
      assert (set i | 0 <= i < |results| :: results[i].doc)
          == (set i | 0 <= i < n :: results[..n][i].doc) + {results[n].doc};
    }
  }

  lemma {:induction false} Subset(a: set<nat>, b: set<nat>)
    requires a <= b
    ensures |a| <= |b|
  {
    if a != {} {
      var x :| x in a;
      Subset(a - {x}, b - {x});
    }
  }
}
