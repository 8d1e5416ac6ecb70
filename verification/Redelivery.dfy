/** Redelivery: what late deliveries, failed attempts and repeated ones leave of the tables of `Lifecycle`. */
module Redelivery {

  import opened Lifecycle

  // ---------------------------------------------------------------- late deliveries

  /** The same actions without those of handler `h`. */
  function Without(actions: seq<Action>, h: nat): seq<Action> {
    if actions == [] then []
    else
      var rest := Without(actions[..|actions| - 1], h);
      if Of(actions[|actions| - 1], h) then rest else rest + [actions[|actions| - 1]]
  }

  /** Equal but for handler `h`. */
  ghost predicate AgreeBut(s: State, s': State, h: nat) {
    && s.tables == s'.tables
    && forall g :: g != h ==>
                     (g in s.handlers <==> g in s'.handlers) && (g in s.handlers ==> s.handlers[g] == s'.handlers[g])
  }

  lemma StepAgrees(s: State, s': State, a: Action, h: nat)
    requires AgreeBut(s, s', h) && !Of(a, h)
    ensures AgreeBut(Step(s, a), Step(s', a), h)
  {}

  ghost predicate Late(s: State, h: nat) {
    && h in s.handlers && s.handlers[h].what.pool && HasResult(s.tables, s.handlers[h].what.doc)
    && (s.handlers[h].phase.Delivered? || Final(s.handlers[h].phase))
  }

  lemma LateOwnStep(s: State, h: nat, a: Action)
    requires Late(s, h) && Of(a, h)
    ensures var s' := Step(s, a);
            && s'.tables == s.tables && h in s'.handlers && s'.handlers[h].what == s.handlers[h].what
            && (s'.handlers[h].phase.Delivered? || Final(s'.handlers[h].phase))
            && (a == Proceed(h, Acked) && s.handlers[h].phase.Delivered? ==> s'.handlers[h].phase.Returned?)
            && (Final(s.handlers[h].phase) ==> s'.handlers[h] == s.handlers[h])
  {}

  lemma LateStep(s: State, h: nat, a: Action)
    requires Inv(s) && Late(s, h)
    ensures Late(Step(s, a), h) && Step(s, a).handlers[h].what == s.handlers[h].what
  {
    if Of(a, h) {
      LateOwnStep(s, h, a);
    } else {
      StepSpares(s, a, h);
      StepKeepsTables(s, a);
      GrowsKeepsResults(s.tables, Step(s, a).tables, s.handlers[h].what.doc);
    }
  }

  /** A delivery whose completed-check comes after a committed result is invisible: dropping all its steps from
      the run changes no table and no other handler. */
  lemma {:induction false} LateDeliveryIsInvisible(s: State, h: nat, actions: seq<Action>)
    requires Inv(s) && Late(s, h)
    ensures Late(Run(s, actions), h) && AgreeBut(Run(s, actions), Run(s, Without(actions, h)), h)
  {
    if actions != [] {
      var before, a := actions[..|actions| - 1], actions[|actions| - 1];
      LateDeliveryIsInvisible(s, h, before);
      RunKeepsInv(s, before);
      LateStep(Run(s, before), h, a);
      var kept := Without(before, h);
      if Of(a, h) {
        LateOwnStep(Run(s, before), h, a);
      } else {
        assert (kept + [a])[..|kept|] == kept;
        StepAgrees(Run(s, before), Run(s, kept), a, h);
      }
    }
  }

  /** The actions let handler `h` take a step. */
  predicate Answers(actions: seq<Action>, h: nat) {
    actions != [] && (actions[|actions| - 1] == Proceed(h, Acked) || Answers(actions[..|actions| - 1], h))
  }

  /** The handler meets no error and its worker does not crash. */
  predicate Unharmed(actions: seq<Action>, h: nat) {
    actions == []
    || (&& (Of(actions[|actions| - 1], h) ==> actions[|actions| - 1] == Proceed(h, Acked))
        && Unharmed(actions[..|actions| - 1], h))
  }

  /** ... and it succeeds: without an error or a crash of its worker it returns as soon as its check is answered. */
  lemma {:induction false} LateDeliverySucceeds(s: State, h: nat, actions: seq<Action>)
    requires Inv(s) && Late(s, h) && s.handlers[h].phase.Delivered? && Unharmed(actions, h)
    ensures h in Run(s, actions).handlers
    ensures Run(s, actions).handlers[h].phase == if Answers(actions, h) then Returned else Delivered
  {
    if actions != [] {
      var before, a := actions[..|actions| - 1], actions[|actions| - 1];
      LateDeliverySucceeds(s, h, before);
      LateDeliveryIsInvisible(s, h, before);
      if Of(a, h) {
        LateOwnStep(Run(s, before), h, a);
      } else {
        StepSpares(Run(s, before), a, h);
      }
    }
  }

  /** A failure of `d` would leave the document's row as it is. */
  predicate AlreadyFailed(t: Tables, d: Delivery) {
    && d.doc in t.docs
    && t.docs[d.doc].status == (if WillRetry(d) then "RETRYING" else "FAILED") && t.docs[d.doc].retries == d.retry + 1
  }

  /** A handler that cannot change its document's row any more, once the document has a result. */
  predicate Harmless(t: Tables, x: Handler) {
    || !x.what.pool || x.phase.Delivered? || x.phase.Noted? || Final(x.phase)
    || ((x.phase.Persisted? || x.phase.Caught?) && AlreadyFailed(t, x.what))
  }

  ghost predicate Settled(s: State, doc: nat) {
    forall h :: h in s.handlers && s.handlers[h].what.doc == doc ==> Harmless(s.tables, s.handlers[h])
  }

  /** The API's update after publishing. */
  predicate Tails(a: Action, doc: nat) { a.PublishTail? && a.doc == doc }

  lemma HarmlessStep(s: State, a: Action, doc: nat)
    requires HasResult(s.tables, doc) && doc in s.tables.docs && Settled(s, doc) && !Tails(a, doc)
    ensures doc in Step(s, a).tables.docs && Step(s, a).tables.docs[doc] == s.tables.docs[doc]
  {}

  lemma SettledStep(s: State, a: Action, doc: nat)
    requires HasResult(s.tables, doc) && doc in s.tables.docs && Settled(s, doc) && !Tails(a, doc)
    ensures Settled(Step(s, a), doc)
  {
    var s' := Step(s, a);
    HarmlessStep(s, a, doc);
    forall h | h in s'.handlers && s'.handlers[h].what.doc == doc ensures Harmless(s'.tables, s'.handlers[h]) {
      if h in s.handlers { assert Harmless(s.tables, s.handlers[h]); }
    }
  }

  /** Once a document has a result and every handler of it is harmless, only the API's update can change its row again:
      any number of redeliveries, with errors and crashes, leaves it alone. */
  lemma {:induction false} SettledStays(s: State, actions: seq<Action>, doc: nat)
    requires Inv(s) && HasResult(s.tables, doc) && Settled(s, doc)
    requires forall i :: 0 <= i < |actions| ==> !Tails(actions[i], doc)
    ensures Settled(Run(s, actions), doc) && HasResult(Run(s, actions).tables, doc)
    ensures doc in s.tables.docs && doc in Run(s, actions).tables.docs
    ensures Run(s, actions).tables.docs[doc] == s.tables.docs[doc]
  {
    RunKeepsInv(s, actions);
    GrowsKeepsResults(s.tables, Run(s, actions).tables, doc);
    if actions != [] {
      var before, a := actions[..|actions| - 1], actions[|actions| - 1];
      SettledStays(s, before, doc);
      HarmlessStep(Run(s, before), a, doc);
      SettledStep(Run(s, before), a, doc);
    }
  }

  /** Two statements of one handler. */
  lemma RunTwo(s: State, h: nat, o: Outcome, p: Outcome)
    ensures Run(s, [Proceed(h, o)]) == Step(s, Proceed(h, o))
    ensures Run(s, [Proceed(h, o), Proceed(h, p)]) == Step(Step(s, Proceed(h, o)), Proceed(h, p))
  {
    assert [Proceed(h, o)][..0] == [];
    assert [Proceed(h, o), Proceed(h, p)][..1] == [Proceed(h, o)];
  }

  /** A harmful handler can change the row with its next statement, or with the one after. */
  lemma {:induction false} HarmfulChanges(s: State, h: nat) returns (actions: seq<Action>)
    requires h in s.handlers && s.handlers[h].what.doc in s.tables.docs && !Harmless(s.tables, s.handlers[h])
    ensures forall i :: 0 <= i < |actions| ==> actions[i].Proceed?
    ensures var doc := s.handlers[h].what.doc;
            doc in Run(s, actions).tables.docs && Run(s, actions).tables.docs[doc] != s.tables.docs[doc]
  {
    var x := s.handlers[h];
    var status := s.tables.docs[x.what.doc].status;
    RunTwo(s, h, Acked, Acked);
    RunTwo(s, h, Refused, Acked);
    var direct := || x.phase.Caught?
                  || (x.phase.Announced? && status != "COMPLETED")
                  || (x.phase.Checked? && status != "PROCESSING");
    if direct {
      actions := [Proceed(h, Acked)];
    } else if x.phase.Marked? && status != "COMPLETED" {
      actions := [Proceed(h, Acked), Proceed(h, Acked)];
      SavesNext(s, h);
    } else {
      actions := [Proceed(h, Refused), Proceed(h, Acked)];
      FailsNext(s, h);
    }
  }

  lemma SavesNext(s: State, h: nat)
    requires h in s.handlers && s.handlers[h].what.pool && s.handlers[h].phase.Marked?
    requires s.handlers[h].what.doc in s.tables.docs
    ensures var doc := s.handlers[h].what.doc;
            var t := Step(Step(s, Proceed(h, Acked)), Proceed(h, Acked)).tables;
            doc in t.docs && t.docs[doc].status == "COMPLETED"
  {}

  lemma FailsNext(s: State, h: nat)
    requires h in s.handlers && s.handlers[h].what.pool && s.handlers[h].what.doc in s.tables.docs
    requires var ph := s.handlers[h].phase; ph.Checked? || ph.Marked? || ph.Announced? || ph.Persisted?
    ensures var d := s.handlers[h].what;
            var t := Step(Step(s, Proceed(h, Refused)), Proceed(h, Acked)).tables;
            d.doc in t.docs && AlreadyFailed(t, d)
  {}

  /** The row of `doc` survives the actions, if none of them is the API's update. */
  ghost predicate Survives(s: State, actions: seq<Action>, doc: nat) {
    (forall i :: 0 <= i < |actions| ==> !Tails(actions[i], doc)) ==>
      && doc in s.tables.docs && doc in Run(s, actions).tables.docs
      && Run(s, actions).tables.docs[doc] == s.tables.docs[doc]
  }

  /** A document with a result keeps its row in every continuation without the API's update exactly when all its
      handlers are harmless. */
  lemma RowStaysIff(s: State, doc: nat)
    requires Inv(s) && HasResult(s.tables, doc)
    ensures (forall actions :: Survives(s, actions, doc)) <==> Settled(s, doc)
  {
    assert doc in s.tables.docs by {
      var r :| r in s.tables.results && r.doc == doc;
    }
    if Settled(s, doc) {
      forall actions ensures Survives(s, actions, doc) {
        if forall i :: 0 <= i < |actions| ==> !Tails(actions[i], doc) { SettledStays(s, actions, doc); }
      }
    } else {
      var h :| h in s.handlers && s.handlers[h].what.doc == doc && !Harmless(s.tables, s.handlers[h]);
      var actions := HarmfulChanges(s, h);
      assert !Survives(s, actions, doc);
    }
  }

  // ---------------------------------------------------------------- one attempt, alone

  lemma {:induction false} ProceedsSnoc(s: State, h: nat, outcomes: seq<Outcome>)
    requires outcomes != []
    ensures var n := |outcomes| - 1;
            Run(s, Proceeds(h, outcomes)) == Step(Run(s, Proceeds(h, outcomes[..n])), Proceed(h, outcomes[n]))
  {
    assert Proceeds(h, outcomes)[..|outcomes| - 1] == Proceeds(h, outcomes[..|outcomes| - 1]);
  }

  /** The statements of the `try` in order, after the completed-check. */
  function Nth(k: nat): Phase
    requires k <= 5
  {
    [Delivered, Checked, Marked, Announced, Persisted, Returned][k]
  }

  /** A handler whose first `k` statements succeed: it stands before statement `k`, the result is there from the
      fourth on, and nothing else has changed. */
  ghost predicate Reached(s: State, s': State, h: nat, k: nat)
    requires h in s.handlers && k <= 5
  {
    var d := s.handlers[h].what;
    && s'.handlers == s.handlers[h := Handler(d, Nth(k))]
    && s'.tables.docs.Keys == s.tables.docs.Keys && d.doc in s'.tables.docs
    && (k <= 1 ==> s'.tables == s.tables)
    && (HasResult(s'.tables, d.doc) <==> k >= 4)
    && (2 <= k <= 3 ==> s'.tables.docs[d.doc].status == "PROCESSING")
    && (k >= 4 ==> s'.tables.docs[d.doc].status == "COMPLETED")
    && s'.tables.docs - {d.doc} == s.tables.docs - {d.doc}
  }

  ghost predicate Fresh(s: State, h: nat) {
    h in s.handlers && s.handlers[h].phase.Delivered? && s.handlers[h].what.pool
  }

  lemma ReachedNext(s: State, s': State, h: nat, k: nat)
    requires Fresh(s, h) && k < 5 && Reached(s, s', h, k)
    ensures Reached(s, Step(s', Proceed(h, Acked)), h, k + 1)
  {
    var t, t' := s'.tables, Step(s', Proceed(h, Acked)).tables;
    var d := s.handlers[h].what;
    if k == 3 {
      var added := Result(d.doc, h, d.worker);
      assert t'.results == t.results + [added];
      assert added in t'.results;
    } else {
      assert t'.results == t.results;
      assert HasResult(t', d.doc) <==> HasResult(t, d.doc);
    }
  }

  lemma {:induction false} ReachedAfter(s: State, h: nat, outcomes: seq<Outcome>)
    requires Fresh(s, h) && s.handlers[h].what.doc in s.tables.docs && !HasResult(s.tables, s.handlers[h].what.doc)
    requires |outcomes| <= 5 && forall i :: 0 <= i < |outcomes| ==> outcomes[i] == Acked
    ensures Reached(s, Run(s, Proceeds(h, outcomes)), h, |outcomes|)
  {
    if outcomes == [] {
      assert Proceeds(h, outcomes) == [];
    } else {
      var n := |outcomes| - 1;
      ReachedAfter(s, h, outcomes[..n]);
      ProceedsSnoc(s, h, outcomes);
      ReachedNext(s, Run(s, Proceeds(h, outcomes[..n])), h, n);
    }
  }

  function Acks(k: nat): seq<Outcome> { seq(k, _ => Acked) }

  lemma RunThree(s: State, a: Action, b: Action, c: Action)
    ensures Run(s, [a, b, c]) == Step(Step(Step(s, a), b), c)
  {
    assert [a][..0] == [] && [a, b][..1] == [a] && [a, b, c][..2] == [a, b];
    assert Run(s, [a]) == Step(s, a);
    assert Run(s, [a, b]) == Step(Run(s, [a]), b);
  }

  /** The attempt's statement `k` fails: what the `except` branch finds. */
  lemma FaultStep(s: State, s1: State, h: nat, k: nat, fault: Outcome)
    requires Fresh(s, h) && s.handlers[h].what.doc in s.tables.docs && !HasResult(s.tables, s.handlers[h].what.doc)
    requires k < 5 && Reached(s, s1, h, k) && !fault.Acked?
    ensures var d := s.handlers[h].what;
            var s2 := Step(s1, Proceed(h, fault));
            && s2.handlers == s.handlers[h := Handler(d, if k == 0 then Raised else Caught)]
            && (k == 0 || (k == 1 && fault.Refused?) ==> s2.tables == s.tables)
            && d.doc in s2.tables.docs
            && (HasResult(s2.tables, d.doc) <==> k == 4 || (k == 3 && fault.Lost?))
            && s2.tables.docs[d.doc].status == LeftBy(s.tables.docs[d.doc].status, k, fault)
  {
    var d := s.handlers[h].what;
    var s2 := Step(s1, Proceed(h, fault));
    if k == 3 && fault.Lost? {
      var added := Result(d.doc, h, d.worker);
      assert s2.tables.results == s1.tables.results + [added];
      assert added in s2.tables.results;
    } else {
      assert s2.tables.results == s1.tables.results;
    }
  }

  /** The status a failed `try` leaves behind. */
  function LeftBy(status: string, k: nat, fault: Outcome): string {
    if k == 0 || (k == 1 && fault.Refused?) then status
    else if k == 4 || (k == 3 && fault.Lost?) then "COMPLETED"
    else "PROCESSING"
  }

  lemma AttemptRun(s: State, h: nat, k: nat, fault: Outcome, w: Outcome, e: Outcome)
    ensures Run(s, Proceeds(h, Acks(k)) + [Proceed(h, fault), Proceed(h, w), Proceed(h, e)]) ==
            Step(Step(Step(Run(s, Proceeds(h, Acks(k))), Proceed(h, fault)), Proceed(h, w)), Proceed(h, e))
  {
    RunConcat(s, Proceeds(h, Acks(k)), [Proceed(h, fault), Proceed(h, w), Proceed(h, e)]);
    RunThree(Run(s, Proceeds(h, Acks(k))), Proceed(h, fault), Proceed(h, w), Proceed(h, e));
  }

  /** One attempt on a document without a result, alone, whose statement `k` fails, with outcome `w` for the status
      update of the `except` branch and `e` for its event: it raises; it leaves a result exactly when the save took
      effect; and the document ends RETRYING or FAILED by its retry count, whenever that update took effect. */
  lemma AttemptFails(s: State, h: nat, k: nat, fault: Outcome, w: Outcome, e: Outcome)
    requires Fresh(s, h) && s.handlers[h].what.doc in s.tables.docs && !HasResult(s.tables, s.handlers[h].what.doc)
    requires k < 5 && !fault.Acked?
    ensures var d := s.handlers[h].what;
            var s' := Run(s, Proceeds(h, Acks(k)) + [Proceed(h, fault), Proceed(h, w), Proceed(h, e)]);
            && s'.handlers == s.handlers[h := Handler(d, Raised)]
            && d.doc in s'.tables.docs
            && (HasResult(s'.tables, d.doc) <==> k == 4 || (k == 3 && fault.Lost?))
            && (k == 0 ==> s'.tables == s.tables)
            && s'.tables.docs[d.doc].status ==
               (if k == 0 || w.Refused? then LeftBy(s.tables.docs[d.doc].status, k, fault)
                else if d.retry + 1 < 3 then "RETRYING" else "FAILED")
            && (k > 0 && !w.Refused? ==> s'.tables.docs[d.doc].retries == d.retry + 1)
  {
    var s1 := Run(s, Proceeds(h, Acks(k)));
    ReachedAfter(s, h, Acks(k));
    AttemptRun(s, h, k, fault, w, e);
    FaultStep(s, s1, h, k, fault);
    var s2 := Step(s1, Proceed(h, fault));
    ExceptBranch(s2, h, w, e);
    Concluded(s, s2, Step(Step(s2, Proceed(h, w)), Proceed(h, e)), h, k, fault, w);
  }

  /** What the failed statement leaves and what the `except` branch makes of it. */
  lemma Concluded(s: State, s2: State, s': State, h: nat, k: nat, fault: Outcome, w: Outcome)
    requires Fresh(s, h) && k < 5 && s.handlers[h].what.doc in s.tables.docs
    requires var d := s.handlers[h].what;
             && d.doc in s2.tables.docs && d.doc in s'.tables.docs
             && (HasResult(s2.tables, d.doc) <==> k == 4 || (k == 3 && fault.Lost?))
             && s2.tables.docs[d.doc].status == LeftBy(s.tables.docs[d.doc].status, k, fault)
             && s'.tables.results == s2.tables.results
             && (k == 0 || w.Refused? ==> s'.tables.docs == s2.tables.docs)
             && (k > 0 && !w.Refused? ==>
                   s'.tables.docs[d.doc] ==
                   s2.tables.docs[d.doc].(status := if d.retry + 1 < 3 then "RETRYING" else "FAILED",
                                          retries := d.retry + 1))
    ensures var d := s.handlers[h].what;
            && (HasResult(s'.tables, d.doc) <==> k == 4 || (k == 3 && fault.Lost?))
            && s'.tables.docs[d.doc].status ==
               (if k == 0 || w.Refused? then LeftBy(s.tables.docs[d.doc].status, k, fault)
                else if d.retry + 1 < 3 then "RETRYING" else "FAILED")
            && (k > 0 && !w.Refused? ==> s'.tables.docs[d.doc].retries == d.retry + 1)
  {
    assert HasResult(s'.tables, s.handlers[h].what.doc) <==> HasResult(s2.tables, s.handlers[h].what.doc);
  }

  lemma ExceptBranch(s: State, h: nat, w: Outcome, e: Outcome)
    requires h in s.handlers && s.handlers[h].what.pool && s.handlers[h].what.doc in s.tables.docs
    requires s.handlers[h].phase.Caught? || s.handlers[h].phase.Raised?
    ensures var x := s.handlers[h];
            var s' := Step(Step(s, Proceed(h, w)), Proceed(h, e));
            && s'.handlers == s.handlers[h := x.(phase := Raised)]
            && s'.tables.docs.Keys == s.tables.docs.Keys
            && (x.phase.Raised? ==> s'.tables == s.tables)
            && s'.tables.results == s.tables.results
            && (w.Refused? ==> s'.tables.docs == s.tables.docs)
            && (x.phase.Caught? && !w.Refused? ==>
                  s'.tables.docs[x.what.doc] ==
                  s.tables.docs[x.what.doc].(status := if x.what.retry + 1 < 3 then "RETRYING" else "FAILED",
                                             retries := x.what.retry + 1))
  {}

  /** An attempt on a document without a result, alone and without a failure, returns and completes it. */
  lemma AttemptSucceeds(s: State, h: nat)
    requires Fresh(s, h) && s.handlers[h].what.doc in s.tables.docs && !HasResult(s.tables, s.handlers[h].what.doc)
    ensures var d := s.handlers[h].what;
            var s' := Run(s, Proceeds(h, Acks(5)));
            && s'.handlers == s.handlers[h := Handler(d, Returned)]
            && d.doc in s'.tables.docs && s'.tables.docs[d.doc].status == "COMPLETED" && HasResult(s'.tables, d.doc)
            && s'.tables.docs - {d.doc} == s.tables.docs - {d.doc}
  {
    ReachedAfter(s, h, Acks(5));
  }

  /** A run from the empty tables whose document is completed and then leaves COMPLETED: the API's own update comes
      late. */
  lemma {:induction false} CompletedIsLeft() returns (before: seq<Action>, last: Action)
    ensures var t, t' := Run(EMPTY, before).tables, Run(EMPTY, before + [last]).tables;
            && 0 in t.docs && t.docs[0].status == "COMPLETED"
            && 0 in t'.docs && t'.docs[0].status == "QUEUED" && HasResult(t', 0)
  {
    var d := Delivery(0, 0, 0, 0, true);
    var start := [Create(0), Deliver(1, d)];
    last := PublishTail(0, 0);
    before := start + Proceeds(1, Acks(5));
    assert [Create(0)][..0] == [] && start[..1] == [Create(0)];
    assert Run(EMPTY, [Create(0)]) == Step(EMPTY, Create(0));
    var s := Run(EMPTY, start);
    AttemptSucceeds(s, 1);
    RunConcat(EMPTY, start, Proceeds(1, Acks(5)));
    assert (before + [last])[..|before|] == before;
  }

  /** A worker without a connection runs through all its statements, returns, and stores nothing. */
  lemma {:induction false} PoollessStoresNothing(s: State, h: nat, outcomes: seq<Outcome>)
    requires h in s.handlers && !s.handlers[h].what.pool && s.handlers[h].phase.Delivered? && |outcomes| <= 5
    ensures Run(s, Proceeds(h, outcomes)) == s.(handlers := s.handlers[h := s.handlers[h].(phase := Nth(|outcomes|))])
  {
    if outcomes == [] {
      assert Proceeds(h, outcomes) == [];
    } else {
      PoollessStoresNothing(s, h, outcomes[..|outcomes| - 1]);
      ProceedsSnoc(s, h, outcomes);
    }
  }

  // ---------------------------------------------------------------- redelivery

  type Visits = seq<(nat, Delivery)>

  /** A whole delivery with nothing in between and no failure; steps after the end of the call do nothing. */
  function Visit(v: (nat, Delivery)): seq<Action> { [Deliver(v.0, v.1)] + Proceeds(v.0, Acks(5)) }

  function Session(visits: Visits): seq<Action> {
    if visits == [] then [] else Session(visits[..|visits| - 1]) + Visit(visits[|visits| - 1])
  }

  predicate Occurs(visits: Visits, doc: nat) { exists i :: 0 <= i < |visits| && visits[i].1.doc == doc }

  /** Each document's first delivery only. */
  function FirstOccurrences(visits: Visits): Visits {
    if visits == [] then []
    else
      var before, v := visits[..|visits| - 1], visits[|visits| - 1];
      if Occurs(before, v.1.doc) then FirstOccurrences(before) else FirstOccurrences(before) + [v]
  }

  lemma VisitRun(s: State, v: (nat, Delivery))
    requires v.0 !in s.handlers
    ensures var s1 := s.(handlers := s.handlers[v.0 := Handler(v.1, Delivered)]);
            Run(s, Visit(v)) == Run(s1, Proceeds(v.0, Acks(5)))
  {
    var deliver := [Deliver(v.0, v.1)];
    assert deliver[..0] == [];
    RunConcat(s, deliver, Proceeds(v.0, Acks(5)));
  }

  /** The visited state differs from another with the same tables in handlers only. */
  lemma {:induction false} ProceedsAgree(s: State, s': State, h: nat, outcomes: seq<Outcome>)
    requires s.tables == s'.tables && h in s.handlers && h in s'.handlers && s.handlers[h] == s'.handlers[h]
    ensures var e, e' := Run(s, Proceeds(h, outcomes)), Run(s', Proceeds(h, outcomes));
            && e.tables == e'.tables && h in e.handlers && h in e'.handlers && e.handlers[h] == e'.handlers[h]
            && e.handlers.Keys == s.handlers.Keys && e'.handlers.Keys == s'.handlers.Keys
  {
    if outcomes == [] {
      assert Proceeds(h, outcomes) == [];
    } else {
      ProceedsAgree(s, s', h, outcomes[..|outcomes| - 1]);
      ProceedsSnoc(s, h, outcomes);
      ProceedsSnoc(s', h, outcomes);
    }
  }

  /** A visit to a document that is missing, or has its result, changes no table. */
  lemma {:induction false} IdleProceeds(s: State, h: nat, outcomes: seq<Outcome>)
    requires h in s.handlers && s.handlers[h].what.pool
    requires !s.handlers[h].phase.Announced? && !s.handlers[h].phase.Persisted?
    requires var doc := s.handlers[h].what.doc;
             || doc !in s.tables.docs
             || (HasResult(s.tables, doc) && (s.handlers[h].phase.Delivered? || Final(s.handlers[h].phase)))
    ensures var e := Run(s, Proceeds(h, outcomes));
            && e.tables == s.tables && h in e.handlers && e.handlers[h].what == s.handlers[h].what
            && !e.handlers[h].phase.Announced? && !e.handlers[h].phase.Persisted?
            && (s.handlers[h].what.doc in s.tables.docs ==>
                  e.handlers[h].phase.Delivered? || Final(e.handlers[h].phase))
  {
    if outcomes == [] {
      assert Proceeds(h, outcomes) == [];
    } else {
      IdleProceeds(s, h, outcomes[..|outcomes| - 1]);
      ProceedsSnoc(s, h, outcomes);
    }
  }

  lemma VisitResult(s: State, v: (nat, Delivery))
    requires Inv(s) && v.0 !in s.handlers && v.1.pool
    ensures var e := Run(s, Visit(v));
            && Inv(e) && Grows(s.tables, e.tables) && e.tables.docs.Keys == s.tables.docs.Keys
            && e.handlers.Keys == s.handlers.Keys + {v.0}
            && (v.1.doc in s.tables.docs ==> HasResult(e.tables, v.1.doc))
            && (v.1.doc !in s.tables.docs || HasResult(s.tables, v.1.doc) ==> e.tables == s.tables)
  {
    var s1 := s.(handlers := s.handlers[v.0 := Handler(v.1, Delivered)]);
    VisitRun(s, v);
    RunKeepsInv(s, Visit(v));
    ProceedsAgree(s1, s1, v.0, Acks(5));
    if v.1.doc !in s.tables.docs || HasResult(s.tables, v.1.doc) {
      IdleProceeds(s1, v.0, Acks(5));
    } else {
      AttemptSucceeds(s1, v.0);
      ReachedAfter(s1, v.0, Acks(5));
    }
  }

  /** Calls with connections, none of them made before. */
  ghost predicate Proper(s: State, visits: Visits) {
    && (forall i :: 0 <= i < |visits| ==> visits[i].1.pool && visits[i].0 !in s.handlers)
    && (forall i, j :: 0 <= i < j < |visits| ==> visits[i].0 != visits[j].0)
  }

  function Names(visits: Visits): set<nat> { set i | 0 <= i < |visits| :: visits[i].0 }

  lemma {:induction false} NamesSnoc(before: Visits, v: (nat, Delivery))
    ensures Names(before + [v]) == Names(before) + {v.0}
  {
    var all := before + [v];
    assert all[|before|] == v;
    assert forall i :: 0 <= i < |before| ==> all[i] == before[i];
  }

  lemma {:induction false} OccursSnoc(before: Visits, v: (nat, Delivery), doc: nat)
    ensures Occurs(before + [v], doc) <==> Occurs(before, doc) || doc == v.1.doc
  {
    var all := before + [v];
    assert all[|before|] == v;
    assert forall i :: 0 <= i < |before| ==> all[i] == before[i];
  }

  lemma {:induction false} ProperSplit(s: State, before: Visits, v: (nat, Delivery))
    requires Proper(s, before + [v])
    ensures Proper(s, before) && v.1.pool && v.0 !in s.handlers && v.0 !in Names(before)
  {
    var all := before + [v];
    assert forall i :: 0 <= i < |before| ==> all[i] == before[i];
    assert all[|before|] == v;
  }

  /** After a session every delivered document that exists has its result. */
  lemma {:induction false} SessionDone(s: State, visits: Visits)
    requires Inv(s) && Proper(s, visits)
    ensures var e := Run(s, Session(visits));
            && Inv(e) && e.tables.docs.Keys == s.tables.docs.Keys && e.handlers.Keys == s.handlers.Keys + Names(visits)
            && forall doc :: Occurs(visits, doc) && doc in s.tables.docs ==> HasResult(e.tables, doc)
  {
    if visits != [] {
      var before, v := visits[..|visits| - 1], visits[|visits| - 1];
      assert visits == before + [v];
      ProperSplit(s, before, v);
      SessionDone(s, before);
      var s1 := Run(s, Session(before));
      RunConcat(s, Session(before), Visit(v));
      VisitResult(s1, v);
      var e := Run(s1, Visit(v));
      NamesSnoc(before, v);
      forall doc | Occurs(visits, doc) && doc in s.tables.docs ensures HasResult(e.tables, doc) {
        if doc != v.1.doc {
          OccursSnoc(before, v, doc);
          GrowsKeepsResults(s1.tables, e.tables, doc);
        }
      }
    }
  }

  lemma {:induction false} FirstOccurrencesProper(s: State, visits: Visits)
    requires Proper(s, visits)
    ensures Proper(s, FirstOccurrences(visits)) && Names(FirstOccurrences(visits)) <= Names(visits)
  {
    if visits != [] {
      var before, v := visits[..|visits| - 1], visits[|visits| - 1];
      assert visits == before + [v];
      ProperSplit(s, before, v);
      FirstOccurrencesProper(s, before);
      var firsts := FirstOccurrences(before);
      NamesSnoc(before, v);
      assert forall i :: 0 <= i < |firsts| ==> firsts[i].0 in Names(firsts);
    }
  }

  /** Deliveries one at a time and without failures: any sequence of them, with any repetitions, leaves exactly the
      tables that the first delivery of each document alone leaves. */
  lemma {:induction false} RedeliveryIsHarmless(s: State, visits: Visits)
    requires Inv(s) && Proper(s, visits)
    ensures Run(s, Session(visits)).tables == Run(s, Session(FirstOccurrences(visits))).tables
  {
    if visits != [] {
      var before, v := visits[..|visits| - 1], visits[|visits| - 1];
      assert visits == before + [v];
      ProperSplit(s, before, v);
      RedeliveryIsHarmless(s, before);
      SessionDone(s, before);
      RunConcat(s, Session(before), Visit(v));
      var s1 := Run(s, Session(before));
      VisitResult(s1, v);
      if !Occurs(before, v.1.doc) {
        var firsts := FirstOccurrences(before);
        FirstOccurrencesProper(s, before);
        SessionDone(s, firsts);
        var s2 := Run(s, Session(firsts));
        assert (firsts + [v])[..|firsts|] == firsts;
        RunConcat(s, Session(firsts), Visit(v));
        SameVisit(s1, s2, v);
      }
    }
  }

  lemma SameVisit(s1: State, s2: State, v: (nat, Delivery))
    requires s1.tables == s2.tables && v.0 !in s1.handlers && v.0 !in s2.handlers
    ensures Run(s1, Visit(v)).tables == Run(s2, Visit(v)).tables
  {
    VisitRun(s1, v);
    VisitRun(s2, v);
    ProceedsAgree(s1.(handlers := s1.handlers[v.0 := Handler(v.1, Delivered)]),
                  s2.(handlers := s2.handlers[v.0 := Handler(v.1, Delivered)]), v.0, Acks(5));
  }
}
