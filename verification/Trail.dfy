/** What an attempt leaves in the tables, column by column and event by event. */
module Trail {

  import opened Wrappers
  import opened Lifecycle
  import opened Redelivery

  /** The events of an attempt, in order: one with each statement but the completed-check. */
  const STORY := ["PROCESSING_STARTED", "PROCESSING", "PROCESSING_COMPLETED", "COMPLETED"]

  function EventsOf(doc: nat, n: nat): seq<Event>
    requires n <= 5
  {
    if n <= 1 then [] else seq(n - 1, i requires 0 <= i < n - 1 => Event(doc, STORY[i]))
  }

  /** The tables after `n` statements of an attempt have taken effect, the completed-check being the first: the row has
      its status, its worker and its offset, from the fourth on there is the result, and the audit trail tells it. */
  function After(t: Tables, h: nat, d: Delivery, n: nat): Tables
    requires d.doc in t.docs && n <= 5
  {
    var row := t.docs[d.doc];
    Tables(if n <= 1 then t.docs
           else t.docs[d.doc := Doc(if n <= 3 then "PROCESSING" else "COMPLETED", row.retries, d.worker, d.offset)],
           if n <= 3 then t.results else t.results + [Result(d.doc, h, d.worker)],
           t.events + EventsOf(d.doc, n))
  }

  ghost predicate Stands(s: State, s': State, h: nat, n: nat)
    requires h in s.handlers && s.handlers[h].what.doc in s.tables.docs && n <= 5
  {
    var d := s.handlers[h].what;
    s' == State(After(s.tables, h, d, n), s.handlers[h := Handler(d, Nth(n))])
  }

  ghost predicate Begins(s: State, h: nat) {
    Fresh(s, h) && s.handlers[h].what.doc in s.tables.docs && !HasResult(s.tables, s.handlers[h].what.doc)
  }

  lemma OneEventMore(t: Tables, doc: nat, n: nat)
    requires 1 <= n < 5
    ensures t.events + EventsOf(doc, n + 1) == t.events + EventsOf(doc, n) + [Event(doc, STORY[n - 1])]
  {
    assert EventsOf(doc, n + 1) == EventsOf(doc, n) + [Event(doc, STORY[n - 1])];
  }

  /** What statement `n` of an attempt, taking effect, makes of the tables. */
  lemma StatementAfter(t: Tables, h: nat, d: Delivery, n: nat)
    requires d.pool && d.doc in t.docs && !HasResult(t, d.doc) && n < 5
    ensures Statement(After(t, h, d, n), h, d, Nth(n)) == Some(After(t, h, d, n + 1))
  {
    var u, v := After(t, h, d, n), After(t, h, d, n + 1);
    if n > 0 { OneEventMore(t, d.doc, n); }
    if n <= 3 { assert HasResult(u, d.doc) <==> HasResult(t, d.doc); }
    if n == 0 {
      assert v == u;
    } else {
      assert Statement(u, h, d, Nth(n)).Some?;
      var w := Statement(u, h, d, Nth(n)).value;
      assert w.docs == v.docs && w.results == v.results && w.events == v.events;
    }
  }

  lemma NextStands(s: State, s': State, h: nat, n: nat)
    requires Begins(s, h) && n < 5 && Stands(s, s', h, n)
    ensures Stands(s, Step(s', Proceed(h, Acked)), h, n + 1)
  {
    var d := s.handlers[h].what;
    StatementAfter(s.tables, h, d, n);
    if n == 0 { assert HasResult(s'.tables, d.doc) <==> HasResult(s.tables, d.doc); }
  }

  /** An attempt on a document without a result, alone, of which `n` statements have succeeded, leaves exactly these
      tables. */
  lemma {:induction false} AttemptLeaves(s: State, h: nat, n: nat)
    requires Begins(s, h) && n <= 5
    ensures Stands(s, Run(s, Proceeds(h, Acks(n))), h, n)
  {
    if n == 0 {
      assert Proceeds(h, Acks(0)) == [];
      assert s.tables.events + EventsOf(s.handlers[h].what.doc, 0) == s.tables.events;
    } else {
      AttemptLeaves(s, h, n - 1);
      assert Acks(n)[..n - 1] == Acks(n - 1);
      ProceedsSnoc(s, h, Acks(n));
      NextStands(s, Run(s, Proceeds(h, Acks(n - 1))), h, n - 1);
    }
  }

  /** The life of a document from its row on: it waits as QUEUED, unretried and unassigned, until its one attempt,
      alone, leaves exactly one completed row, one result and four events. */
  lemma FirstAttempt(h: nat, d: Delivery)
    requires d.pool
    ensures var waiting := Run(EMPTY, [Create(d.doc), Deliver(h, d)]);
            && waiting.tables == Tables(map[d.doc := Doc("QUEUED", 0, 0, -1)], [], [])
            && Run(waiting, Proceeds(h, Acks(5))).tables ==
               Tables(map[d.doc := Doc("COMPLETED", 0, d.worker, d.offset)], [Result(d.doc, h, d.worker)],
                      [Event(d.doc, "PROCESSING_STARTED"), Event(d.doc, "PROCESSING"),
                       Event(d.doc, "PROCESSING_COMPLETED"), Event(d.doc, "COMPLETED")])
  {
    var create := [Create(d.doc)];
    assert create[..0] == [] && create + [Deliver(h, d)] == [Create(d.doc), Deliver(h, d)];
    assert Run(EMPTY, create) == Step(EMPTY, Create(d.doc));
    RunConcat(EMPTY, create, [Deliver(h, d)]);
    assert [Deliver(h, d)][..0] == [];
    var waiting := Run(EMPTY, [Create(d.doc), Deliver(h, d)]);
    AttemptLeaves(waiting, h, 5);
    FourEvents(d.doc);
  }

  lemma FourEvents(doc: nat)
    ensures [] + EventsOf(doc, 5) == [Event(doc, "PROCESSING_STARTED"), Event(doc, "PROCESSING"),
                                      Event(doc, "PROCESSING_COMPLETED"), Event(doc, "COMPLETED")]
  {}

  /** The API's update after publishing, when it comes after the attempt: the row is QUEUED again, with the offset of
      its record and everything else as the attempt left it, and neither result nor trail say so. */
  lemma LateTailLeaves(s: State, h: nat, offset: int)
    requires Begins(s, h)
    ensures var d := s.handlers[h].what;
            var t, left := Run(s, Proceeds(h, Acks(5)) + [PublishTail(d.doc, offset)]).tables, After(s.tables, h, d, 5);
            && t.docs == left.docs[d.doc := Doc("QUEUED", s.tables.docs[d.doc].retries, d.worker, offset)]
            && t.results == left.results && t.events == left.events
  {
    var attempt, tail := Proceeds(h, Acks(5)), PublishTail(s.handlers[h].what.doc, offset);
    AttemptLeaves(s, h, 5);
    RunConcat(s, attempt, [tail]);
    assert [tail][..0] == [];
  }

  /** What the `except` branch makes of the tables: the row's status and retry count, if its update takes effect, and
      then the event, if the update was acknowledged and the event takes effect. */
  function Excepted(t: Tables, d: Delivery, w: Outcome, e: Outcome): Tables
    requires d.doc in t.docs
  {
    var row, last := t.docs[d.doc], d.retry + 1 >= 3;
    t.(docs := if w.Refused? then t.docs
               else t.docs[d.doc := row.(status := if last then "FAILED" else "RETRYING", retries := d.retry + 1)],
       events := if !w.Acked? || e.Refused? then t.events
                 else t.events + [Event(d.doc, if last then "FAILED" else "RETRYING")])
  }

  lemma ExceptLeaves(s: State, h: nat, w: Outcome, e: Outcome)
    requires h in s.handlers && s.handlers[h].what.pool && s.handlers[h].phase.Caught?
    requires s.handlers[h].what.doc in s.tables.docs
    ensures Step(Step(s, Proceed(h, w)), Proceed(h, e)).tables == Excepted(s.tables, s.handlers[h].what, w, e)
  {}

  lemma FaultLeaves(s: State, s': State, h: nat, k: nat, fault: Outcome)
    requires Begins(s, h) && 0 < k < 5 && Stands(s, s', h, k) && !fault.Acked?
    ensures var d := s.handlers[h].what;
            Step(s', Proceed(h, fault)) ==
            State(After(s.tables, h, d, if fault.Lost? then k + 1 else k), s.handlers[h := Handler(d, Caught)])
  {
    StatementAfter(s.tables, h, s.handlers[h].what, k);
  }

  /** An attempt whose statement `k` fails, for every outcome of the `except` branch: exactly the tables after the
      statements that took effect, and then what that branch makes of them. */
  lemma FailureLeaves(s: State, h: nat, k: nat, fault: Outcome, w: Outcome, e: Outcome)
    requires Begins(s, h) && 0 < k < 5 && !fault.Acked?
    ensures var d := s.handlers[h].what;
            Run(s, Proceeds(h, Acks(k)) + [Proceed(h, fault), Proceed(h, w), Proceed(h, e)]).tables ==
            Excepted(After(s.tables, h, d, if fault.Lost? then k + 1 else k), d, w, e)
  {
    var s1 := Run(s, Proceeds(h, Acks(k)));
    AttemptLeaves(s, h, k);
    AttemptRun(s, h, k, fault, w, e);
    FaultLeaves(s, s1, h, k, fault);
    ExceptLeaves(Step(s1, Proceed(h, fault)), h, w, e);
  }
}
