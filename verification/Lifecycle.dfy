/** The document lifecycle: `MinimalProcessingHandler.process_event` and `ResultRepository` over the `documents`,
    `processing_results` and `processing_events` tables, which the API and any number of workers write at the
    same time. Every database call is one atomic step whose caller may see it acknowledged, see an error although
    it took effect, or see it refused. A step that is not enabled leaves the state as it is. */
module Lifecycle {

  import opened Wrappers

  const PROCESSING_MAX_RETRIES := 3
  const STATUSES := {"QUEUED", "PROCESSING", "RETRYING", "COMPLETED", "FAILED"}

  datatype Doc = Doc(status: string, retries: int, worker: nat, offset: int)

  /** A row of `processing_results`; `attempt` stands for its `result_id`. */
  datatype Result = Result(doc: nat, attempt: nat, worker: nat)

  datatype Event = Event(doc: nat, kind: string)

  datatype Tables = Tables(docs: map<nat, Doc>, results: seq<Result>, events: seq<Event>)

  /** One call of `process_event`: its payload, and whether its worker has a connection pool. */
  datatype Delivery = Delivery(doc: nat, retry: int, worker: nat, offset: int, pool: bool)

  /** The call's next statement: the completed-check, `mark_processing_started`, the PROCESSING event, `save_result`,
      the COMPLETED event; in the `except` branch the status update and its event. The last three are final. */
  datatype Phase =
    | Delivered
    | Checked
    | Marked
    | Announced
    | Persisted
    | Caught
    | Noted
    | Returned
    | Raised
    | Crashed

  datatype Handler = Handler(what: Delivery, phase: Phase)

  datatype State = State(tables: Tables, handlers: map<nat, Handler>)

  datatype Outcome = Acked | Lost | Refused

  datatype Action =
    | Create(doc: nat)
    | PublishTail(doc: nat, offset: int)
    | Deliver(h: nat, what: Delivery)
    | Proceed(h: nat, outcome: Outcome)
    | Crash(h: nat)

  const EMPTY := State(Tables(map[], [], []), map[])

  predicate Final(ph: Phase) { ph.Returned? || ph.Raised? || ph.Crashed? }

  predicate HasResult(t: Tables, doc: nat) { exists r :: r in t.results && r.doc == doc }

  // ---------------------------------------------------------------- statements

  /** `UPDATE documents SET ... WHERE document_id = $1`: nothing happens when there is no such row. */
  function Update(t: Tables, doc: nat, row: Doc): Tables {
    if doc in t.docs then t.(docs := t.docs[doc := row]) else t
  }

  /** `INSERT INTO processing_events ... SELECT ... FROM documents`: no row when there is no document. */
  function LogIfPresent(t: Tables, doc: nat, kind: string): Tables {
    if doc in t.docs then t.(events := t.events + [Event(doc, kind)]) else t
  }

  /** `append_event`: the foreign key refuses an unknown document. */
  function AppendEvent(t: Tables, doc: nat, kind: string): Option<Tables> {
    if doc in t.docs then Some(t.(events := t.events + [Event(doc, kind)])) else None
  }

  function MarkProcessingStarted(t: Tables, d: Delivery): Tables {
    if d.doc !in t.docs then t
    else
      LogIfPresent(Update(t, d.doc, t.docs[d.doc].(status := "PROCESSING", worker := d.worker, offset := d.offset)),
                   d.doc, "PROCESSING_STARTED")
  }

  /** `save_result`: `ON CONFLICT (document_id) DO NOTHING`, and the foreign key to `documents`. */
  function SaveResult(t: Tables, h: nat, d: Delivery): Option<Tables> {
    if d.doc !in t.docs then None
    else
      var saved := if HasResult(t, d.doc) then t else t.(results := t.results + [Result(d.doc, h, d.worker)]);
      var row := t.docs[d.doc].(status := "COMPLETED", worker := d.worker, offset := d.offset);
      Some(LogIfPresent(Update(saved, d.doc, row), d.doc, "PROCESSING_COMPLETED"))
  }

  predicate WillRetry(d: Delivery) { d.retry + 1 < PROCESSING_MAX_RETRIES }

  /** The row as `record_retry` or `mark_failed` leaves it. */
  function FailedRow(row: Doc, d: Delivery): Doc {
    row.(status := if WillRetry(d) then "RETRYING" else "FAILED", retries := d.retry + 1)
  }

  /** The first statement of `record_retry` or of `mark_failed`. */
  function RecordFailure(t: Tables, d: Delivery): Tables {
    if d.doc !in t.docs then t
    else Update(t, d.doc, FailedRow(t.docs[d.doc], d))
  }

  /** What the statement in front of a handler does, or `None` when the database refuses it. */
  function Statement(t: Tables, h: nat, d: Delivery, ph: Phase): Option<Tables> {
    if !d.pool then Some(t)
    else
      match ph
      case Checked => Some(MarkProcessingStarted(t, d))
      case Marked => AppendEvent(t, d.doc, "PROCESSING")
      case Announced => SaveResult(t, h, d)
      case Persisted => AppendEvent(t, d.doc, "COMPLETED")
      case Caught => Some(RecordFailure(t, d))
      case Noted => if WillRetry(d) then Some(LogIfPresent(t, d.doc, "RETRYING")) else AppendEvent(t, d.doc, "FAILED")
      case _ => Some(t)
  }

  /** Where a handler goes after its statement. */
  function Onward(t: Tables, d: Delivery, ph: Phase): Phase {
    match ph
    case Delivered => if d.pool && HasResult(t, d.doc) then Returned else Checked
    case Checked => Marked
    case Marked => Announced
    case Announced => Persisted
    case Persisted => Returned
    case Caught => Noted
    case Noted => Raised
    case _ => ph
  }

  /** Where an exception takes it: outside the `try`, in the `try`, or in the `except` branch. */
  function Thrown(ph: Phase): Phase {
    match ph
    case Delivered => Raised
    case Checked => Caught
    case Marked => Caught
    case Announced => Caught
    case Persisted => Caught
    case Caught => Raised
    case Noted => Raised
    case _ => ph
  }

  predicate Throws(t: Tables, h: nat, x: Handler, outcome: Outcome) {
    x.what.pool && (Statement(t, h, x.what, x.phase).None? || !outcome.Acked?)
  }

  function Written(t: Tables, h: nat, x: Handler, outcome: Outcome): Tables {
    var st := Statement(t, h, x.what, x.phase);
    if st.None? || outcome.Refused? then t else st.value
  }

  function Moved(t: Tables, h: nat, x: Handler, outcome: Outcome): Phase {
    if Throws(t, h, x, outcome) then Thrown(x.phase) else Onward(t, x.what, x.phase)
  }

  function Step(s: State, a: Action): State {
    var t := s.tables;
    match a
    case Create(doc) => if doc in t.docs then s else s.(tables := t.(docs := t.docs[doc := Doc("QUEUED", 0, 0, -1)]))
    case PublishTail(doc, offset) =>
      if doc !in t.docs then s else s.(tables := Update(t, doc, t.docs[doc].(status := "QUEUED", offset := offset)))
    case Deliver(h, what) => if h in s.handlers then s else s.(handlers := s.handlers[h := Handler(what, Delivered)])
    case Proceed(h, outcome) =>
      if h !in s.handlers || Final(s.handlers[h].phase) then s
      else
        var x := s.handlers[h];
        State(Written(t, h, x, outcome), s.handlers[h := x.(phase := Moved(t, h, x, outcome))])
    case Crash(h) =>
      if h !in s.handlers || Final(s.handlers[h].phase) then s
      else s.(handlers := s.handlers[h := s.handlers[h].(phase := Crashed)])
  }

  function Run(s: State, actions: seq<Action>): State {
    if actions == [] then s else Step(Run(s, actions[..|actions| - 1]), actions[|actions| - 1])
  }

  lemma {:induction false} RunConcat(s: State, xs: seq<Action>, ys: seq<Action>)
    ensures Run(s, xs + ys) == Run(Run(s, xs), ys)
  {
    if ys == [] {
      assert xs + ys == xs;
    } else {
      var n := |ys| - 1;
      var zs := xs + ys;
      assert zs[..|zs| - 1] == xs + ys[..n] && zs[|zs| - 1] == ys[n];
      RunConcat(s, xs, ys[..n]);
    }
  }

  // ---------------------------------------------------------------- the invariant

  /** A COMPLETED document has a result. */
  ghost predicate Backed(t: Tables) {
    forall doc :: doc in t.docs && t.docs[doc].status == "COMPLETED" ==> HasResult(t, doc)
  }

  ghost predicate StatusesKnown(t: Tables) { forall doc :: doc in t.docs ==> t.docs[doc].status in STATUSES }

  /** A document has at most one result. */
  ghost predicate OneResultEach(t: Tables) {
    forall i, j :: 0 <= i < j < |t.results| ==> t.results[i].doc != t.results[j].doc
  }

  ghost predicate Referenced(t: Tables) { forall r :: r in t.results ==> r.doc in t.docs }

  /** The audit trail says PROCESSING_COMPLETED of exactly the documents that have a result. */
  ghost predicate Audited(t: Tables) {
    forall doc :: HasResult(t, doc) <==> Event(doc, "PROCESSING_COMPLETED") in t.events
  }

  ghost predicate TablesInv(t: Tables) {
    Backed(t) && StatusesKnown(t) && OneResultEach(t) && Referenced(t) && Audited(t)
  }

  /** A handler past its save, with a connection, has left a result. */
  ghost predicate Finished(s: State) {
    forall h :: && h in s.handlers && s.handlers[h].what.pool
                && (s.handlers[h].phase.Persisted? || s.handlers[h].phase.Returned?)
                ==> HasResult(s.tables, s.handlers[h].what.doc)
  }

  ghost predicate Inv(s: State) { TablesInv(s.tables) && Finished(s) }

  /** What every step keeps of the tables: rows stay, and results are only ever appended. */
  ghost predicate Grows(t: Tables, t': Tables) {
    && |t.results| <= |t'.results| && t.results == t'.results[..|t.results|]
    && t.docs.Keys <= t'.docs.Keys
  }

  lemma GrowsKeepsResults(t: Tables, t': Tables, doc: nat)
    requires Grows(t, t') && HasResult(t, doc)
    ensures HasResult(t', doc)
  {
    var r :| r in t.results && r.doc == doc;
    assert r in t'.results[..|t.results|];
  }

  /** Replacing a row, unless it claims a completion that has no result, keeps the invariant. */
  lemma UpdateKeepsInv(t: Tables, doc: nat, row: Doc)
    requires TablesInv(t) && row.status in STATUSES
    requires row.status == "COMPLETED" ==> HasResult(t, doc)
    ensures TablesInv(Update(t, doc, row)) && Grows(t, Update(t, doc, row))
  {
    var t' := Update(t, doc, row);
    assert t'.results == t.results && t'.events == t.events;
    assert forall d :: HasResult(t', d) <==> HasResult(t, d);
  }

  lemma LogKeepsInv(t: Tables, doc: nat, kind: string)
    requires TablesInv(t) && (kind == "PROCESSING_COMPLETED" ==> HasResult(t, doc))
    ensures TablesInv(LogIfPresent(t, doc, kind)) && Grows(t, LogIfPresent(t, doc, kind))
  {
    var t' := LogIfPresent(t, doc, kind);
    assert t'.results == t.results && t'.docs == t.docs;
    assert forall d :: HasResult(t', d) <==> HasResult(t, d);
    forall d ensures HasResult(t', d) <==> Event(d, "PROCESSING_COMPLETED") in t'.events {
      assert HasResult(t, d) <==> Event(d, "PROCESSING_COMPLETED") in t.events;
    }
  }

  /** A first result for a document, with its row and its event, in one transaction. */
  lemma SaveKeepsInv(t: Tables, h: nat, d: Delivery)
    requires TablesInv(t) && SaveResult(t, h, d).Some?
    ensures var t' := SaveResult(t, h, d).value; TablesInv(t') && Grows(t, t') && HasResult(t', d.doc)
  {
    var row := t.docs[d.doc].(status := "COMPLETED", worker := d.worker, offset := d.offset);
    if HasResult(t, d.doc) {
      UpdateKeepsInv(t, d.doc, row);
      LogKeepsInv(Update(t, d.doc, row), d.doc, "PROCESSING_COMPLETED");
    } else {
      var added := Result(d.doc, h, d.worker);
      var t' := SaveResult(t, h, d).value;
      assert t'.results == t.results + [added] && t'.docs == t.docs[d.doc := row];
      assert t'.events == t.events + [Event(d.doc, "PROCESSING_COMPLETED")];
      assert forall r :: r in t'.results <==> r in t.results || r == added;
      assert added in t'.results;
      forall doc ensures HasResult(t', doc) <==> HasResult(t, doc) || doc == d.doc {
        if HasResult(t, doc) {
          var r :| r in t.results && r.doc == doc;
          assert r in t'.results;
        }
      }
      forall doc ensures HasResult(t', doc) <==> Event(doc, "PROCESSING_COMPLETED") in t'.events {
        assert HasResult(t, doc) <==> Event(doc, "PROCESSING_COMPLETED") in t.events;
      }
      forall i, j | 0 <= i < j < |t'.results| ensures t'.results[i].doc != t'.results[j].doc {
        if j == |t.results| { assert t.results[i] in t.results; }
      }
      assert Backed(t');
    }
  }

  lemma StatementKeepsInv(t: Tables, h: nat, d: Delivery, ph: Phase)
    requires TablesInv(t) && Statement(t, h, d, ph).Some?
    ensures var t' := Statement(t, h, d, ph).value; TablesInv(t') && Grows(t, t')
  {
    if !d.pool { return; }
    match ph
    case Checked =>
      if d.doc in t.docs {
        var row := t.docs[d.doc].(status := "PROCESSING", worker := d.worker, offset := d.offset);
        UpdateKeepsInv(t, d.doc, row);
        LogKeepsInv(Update(t, d.doc, row), d.doc, "PROCESSING_STARTED");
      }
    case Marked => LogKeepsInv(t, d.doc, "PROCESSING");
    case Announced => SaveKeepsInv(t, h, d);
    case Persisted => LogKeepsInv(t, d.doc, "COMPLETED");
    case Caught =>
      if d.doc in t.docs {
        UpdateKeepsInv(t, d.doc, FailedRow(t.docs[d.doc], d));
      }
    case Noted => LogKeepsInv(t, d.doc, if WillRetry(d) then "RETRYING" else "FAILED");
    case _ =>
  }

  lemma StepKeepsTables(s: State, a: Action)
    requires TablesInv(s.tables)
    ensures TablesInv(Step(s, a).tables) && Grows(s.tables, Step(s, a).tables)
  {
    var t := s.tables;
    match a
    case Create(doc) =>
      var t' := Step(s, a).tables;
      assert forall d :: HasResult(t', d) <==> HasResult(t, d);
    case PublishTail(doc, offset) =>
      if doc in t.docs { UpdateKeepsInv(t, doc, t.docs[doc].(status := "QUEUED", offset := offset)); }
    case Proceed(h, _) =>
      if h in s.handlers {
        var x := s.handlers[h];
        if Statement(t, h, x.what, x.phase).Some? { StatementKeepsInv(t, h, x.what, x.phase); }
      }
    case _ =>
  }

  lemma StepKeepsInv(s: State, a: Action)
    requires Inv(s)
    ensures Inv(Step(s, a)) && Grows(s.tables, Step(s, a).tables)
  {
    StepKeepsTables(s, a);
    var s' := Step(s, a);
    forall h | && h in s'.handlers && s'.handlers[h].what.pool
               && (s'.handlers[h].phase.Persisted? || s'.handlers[h].phase.Returned?)
      ensures HasResult(s'.tables, s'.handlers[h].what.doc)
    {
      var x := s'.handlers[h];
      assert h in s.handlers && s.handlers[h].what == x.what;
      if HasResult(s.tables, x.what.doc) {
        GrowsKeepsResults(s.tables, s'.tables, x.what.doc);
      } else {
        assert a.Proceed? && a.h == h && s.handlers[h].phase.Announced?;
        SaveKeepsInv(s.tables, h, x.what);
      }
    }
  }

  lemma {:induction false} RunKeepsInv(s: State, actions: seq<Action>)
    requires Inv(s)
    ensures Inv(Run(s, actions)) && Grows(s.tables, Run(s, actions).tables)
  {
    if actions != [] {
      RunKeepsInv(s, actions[..|actions| - 1]);
      StepKeepsInv(Run(s, actions[..|actions| - 1]), actions[|actions| - 1]);
    }
  }

  // ---------------------------------------------------------------- safety of every run

  /** In every interleaving of API updates, workers, redeliveries, errors and crashes: COMPLETED implies a result,
      no document has two results, every result's document exists, and every status is a known one. */
  lemma {:induction false} EveryRunIsSafe(actions: seq<Action>)
    ensures var t := Run(EMPTY, actions).tables;
            && (forall doc :: doc in t.docs && t.docs[doc].status == "COMPLETED" ==> HasResult(t, doc))
            && (forall i, j :: 0 <= i < j < |t.results| ==> t.results[i].doc != t.results[j].doc)
            && (forall r :: r in t.results ==> r.doc in t.docs)
            && (forall doc :: doc in t.docs ==> t.docs[doc].status in STATUSES)
            && (forall doc :: HasResult(t, doc) <==> Event(doc, "PROCESSING_COMPLETED") in t.events)
  {
    RunKeepsInv(EMPTY, actions);
  }

  /** Whatever happens later, the results already there stay as they are, and in front. */
  lemma {:induction false} FirstResultStands(before: seq<Action>, after: seq<Action>)
    ensures var old1 := Run(EMPTY, before).tables.results;
            var new1 := Run(EMPTY, before + after).tables.results;
            |old1| <= |new1| && new1[..|old1|] == old1
  {
    RunKeepsInv(EMPTY, before);
    RunConcat(EMPTY, before, after);
    RunKeepsInv(Run(EMPTY, before), after);
  }

  /** A call that returned left a result or found one, provided its worker had a connection; without a connection
      it returns all the same and leaves nothing. */
  lemma {:induction false} ReturnedLeavesResult(actions: seq<Action>, h: nat)
    requires var s := Run(EMPTY, actions); h in s.handlers && s.handlers[h].phase.Returned? && s.handlers[h].what.pool
    ensures var s := Run(EMPTY, actions); HasResult(s.tables, s.handlers[h].what.doc)
  {
    RunKeepsInv(EMPTY, actions);
  }

  /** The writes that take a completed document out of COMPLETED: the API's update after publishing, and a handler
      that passed its completed-check before the result was committed. */
  predicate Overwrites(s: State, a: Action, doc: nat) {
    match a
    case PublishTail(d, _) => d == doc
    case Proceed(h, outcome) =>
      && h in s.handlers && s.handlers[h].what.doc == doc && s.handlers[h].what.pool
      && (s.handlers[h].phase.Checked? || s.handlers[h].phase.Caught?) && !outcome.Refused?
    case _ => false
  }

  /** COMPLETED is not absorbing: exactly these steps leave it. */
  lemma CompletedLostIff(s: State, a: Action, doc: nat)
    requires doc in s.tables.docs && s.tables.docs[doc].status == "COMPLETED"
    ensures Step(s, a).tables.docs[doc].status != "COMPLETED" <==> Overwrites(s, a, doc)
  {}

  // ---------------------------------------------------------------- one call's statements

  predicate Of(a: Action, h: nat) { (a.Deliver? || a.Proceed? || a.Crash?) && a.h == h }

  lemma StepSpares(s: State, a: Action, h: nat)
    requires !Of(a, h)
    ensures var s' := Step(s, a);
            (h in s'.handlers <==> h in s.handlers) && (h in s.handlers ==> s'.handlers[h] == s.handlers[h])
  {}

  function Proceeds(h: nat, outcomes: seq<Outcome>): seq<Action> {
    seq(|outcomes|, i requires 0 <= i < |outcomes| => Proceed(h, outcomes[i]))
  }

  lemma {:induction false} WeaveNext(s: State, h: nat, others: seq<seq<Action>>, outcomes: seq<Outcome>, k: nat)
    requires k < |others| == |outcomes|
    ensures Run(s, Weave(others, Proceeds(h, outcomes[..k + 1]))) ==
            Step(Run(Run(s, Weave(others, Proceeds(h, outcomes[..k]))), others[k]), Proceed(h, outcomes[k]))
  {
    var own, a := Proceeds(h, outcomes[..k]), Proceed(h, outcomes[k]);
    assert Proceeds(h, outcomes[..k + 1]) == own + [a];
    WeaveSnoc(others, own, a);
    var before := Weave(others, own) + others[k];
    assert (before + [a])[..|before|] == before;
    RunConcat(s, Weave(others, own), others[k]);
  }

  ghost predicate AllForeign(others: seq<seq<Action>>, h: nat) {
    forall i :: 0 <= i < |others| ==> Foreign(others[i], h)
  }

  /** Where one statement can take a handler; only a connection can fail. */
  predicate Leads(d: Delivery, p: Phase, q: Phase) {
    match p
    case Delivered => q.Checked? || (d.pool && (q.Returned? || q.Raised?))
    case Checked => q.Marked? || (d.pool && q.Caught?)
    case Marked => q.Announced? || (d.pool && q.Caught?)
    case Announced => q.Persisted? || (d.pool && q.Caught?)
    case Persisted => q.Returned? || (d.pool && q.Caught?)
    case Caught => q.Noted? || q.Raised?
    case Noted => q.Raised?
    case _ => true
  }

  ghost predicate Foreign(others: seq<Action>, h: nat) { forall i :: 0 <= i < |others| ==> !Of(others[i], h) }

  // ---------------------------------------------------------------- the worker

  /** The tables, and every call of `process_event` under way, in any worker. */
  class ResultRepository {
    var docs: map<nat, Doc>
    var results: seq<Result>
    var events: seq<Event>
    var handlers: map<nat, Handler>

    function View(): State reads this { State(Tables(docs, results, events), handlers) }

    constructor ()
      ensures View() == EMPTY
    {
      docs, results, events, handlers := map[], [], [], map[];
    }

    /** `completed`. */
    method Completed(doc: nat) returns (found: bool)
      ensures found <==> HasResult(View().tables, doc)
    {
      found := false;
      for i := 0 to |results|
        invariant found <==> exists j :: 0 <= j < i && results[j].doc == doc
      {
        if results[i].doc == doc { found := true; }
      }
      assert found ==> HasResult(View().tables, doc);
    }

    method AppendEventTo(doc: nat, kind: string) returns (ok: bool)
      modifies this`events
      ensures ok <==> doc in docs
      ensures ok ==> AppendEvent(old(View().tables), doc, kind) == Some(View().tables)
      ensures !ok ==> events == old(events)
    {
      ok := doc in docs;
      if ok { events := events + [Event(doc, kind)]; }
    }

    /** The statement in front of a handler; `ok` is false when the database refuses it. */
    method Perform(h: nat, d: Delivery, ph: Phase) returns (ok: bool)
      modifies this`docs, this`results, this`events
      ensures ok <==> Statement(old(View().tables), h, d, ph).Some?
      ensures View().tables == if ok then Statement(old(View().tables), h, d, ph).value else old(View().tables)
    {
      ok := true;
      if !d.pool { return; }
      match ph {
        case Checked =>
          if d.doc in docs {
            docs := docs[d.doc := docs[d.doc].(status := "PROCESSING", worker := d.worker, offset := d.offset)];
            events := events + [Event(d.doc, "PROCESSING_STARTED")];
          }
        case Marked => ok := AppendEventTo(d.doc, "PROCESSING");
        case Announced =>
          if d.doc !in docs { return false; }
          var found := Completed(d.doc);
          if !found { results := results + [Result(d.doc, h, d.worker)]; }
          docs := docs[d.doc := docs[d.doc].(status := "COMPLETED", worker := d.worker, offset := d.offset)];
          events := events + [Event(d.doc, "PROCESSING_COMPLETED")];
        case Persisted => ok := AppendEventTo(d.doc, "COMPLETED");
        case Caught =>
          if d.doc in docs {
            var status := if d.retry + 1 < PROCESSING_MAX_RETRIES then "RETRYING" else "FAILED";
            docs := docs[d.doc := docs[d.doc].(status := status, retries := d.retry + 1)];
          }
        case Noted =>
          if !WillRetry(d) {
            ok := AppendEventTo(d.doc, "FAILED");
          } else if d.doc in docs {
            events := events + [Event(d.doc, "RETRYING")];
          }
        case _ =>
      }
    }

    /** One step, of any handler or of the API. */
    method Execute(a: Action)
      modifies this
      ensures View() == Step(old(View()), a)
    {
      match a {
        case Create(doc) =>
          if doc !in docs { docs := docs[doc := Doc("QUEUED", 0, 0, -1)]; }
        case PublishTail(doc, offset) =>
          if doc in docs { docs := docs[doc := docs[doc].(status := "QUEUED", offset := offset)]; }
        case Deliver(h, what) =>
          if h !in handlers { handlers := handlers[h := Handler(what, Delivered)]; }
        case Proceed(h, outcome) =>
          if h in handlers && !Final(handlers[h].phase) {
            var x := handlers[h];
            var ok, found := true, false;
            if x.phase.Delivered? { found := Completed(x.what.doc); }
            if !outcome.Refused? {
              ok := Perform(h, x.what, x.phase);
            } else {
              ok := Statement(View().tables, h, x.what, x.phase).Some?;
            }
            var next :=
              if x.what.pool && (!ok || !outcome.Acked?) then Thrown(x.phase)
              else if x.phase.Delivered? then (if x.what.pool && found then Returned else Checked)
              else Onward(View().tables, x.what, x.phase);
            handlers := handlers[h := x.(phase := next)];
          }
        case Crash(h) =>
          if h in handlers && !Final(handlers[h].phase) { handlers := handlers[h := handlers[h].(phase := Crashed)]; }
      }
    }

    /** What everybody else does between two statements of handler `h`. */
    method Others(h: nat, others: seq<Action>)
      requires Inv(View()) && h in handlers && Foreign(others, h)
      modifies this
      ensures View() == Run(old(View()), others) && Inv(View()) && Grows(old(View().tables), View().tables)
      ensures h in handlers && handlers[h] == old(handlers[h])
    {
      for i := 0 to |others|
        invariant View() == Run(old(View()), others[..i])
        invariant h in handlers && handlers[h] == old(handlers[h])
      {
        assert others[..i + 1][..i] == others[..i];
        StepSpares(View(), others[i], h);
        Execute(others[i]);
      }
      assert others[..|others|] == others;
      RunKeepsInv(old(View()), others);
    }

    /** Await number `k` of `process_event`: the others' steps, and then the statement. */
    method Await(h: nat, others: seq<seq<Action>>, outcomes: seq<Outcome>, k: nat, ghost s0: State)
      returns (ph: Phase, next: nat)
      requires |others| == |outcomes| == 7 && k < 7 && AllForeign(others, h)
      requires Inv(View()) && View() == Run(s0, Weave(others, Proceeds(h, outcomes[..k])))
      requires h in handlers && !Final(handlers[h].phase)
      modifies this
      ensures next == k + 1 && Inv(View()) && View() == Run(s0, Weave(others, Proceeds(h, outcomes[..next])))
      ensures h in handlers && handlers[h] == old(handlers[h]).(phase := ph)
      ensures Leads(handlers[h].what, old(handlers[h].phase), ph)
    {
      Others(h, others[k]);
      var a := Proceed(h, outcomes[k]);
      WeaveNext(s0, h, others, outcomes, k);
      StepKeepsInv(View(), a);
      Execute(a);
      ph, next := handlers[h].phase, k + 1;
    }

    /** The `try` body after the completed-check; `k` awaits of the call are over at its end. */
    method TryBody(h: nat, others: seq<seq<Action>>, outcomes: seq<Outcome>, ghost s0: State)
      returns (out: Phase, k: nat)
      requires |others| == |outcomes| == 7 && AllForeign(others, h)
      requires Inv(View()) && View() == Run(s0, Weave(others, Proceeds(h, outcomes[..1])))
      requires h in handlers && handlers[h].phase.Checked?
      modifies this
      ensures k <= 5 && Inv(View()) && View() == Run(s0, Weave(others, Proceeds(h, outcomes[..k])))
      ensures h in handlers && handlers[h] == old(handlers[h]).(phase := out)
      ensures out.Returned? || (out.Caught? && handlers[h].what.pool)
    {
      out, k := Await(h, others, outcomes, 1, s0);
      if out.Marked? { out, k := Await(h, others, outcomes, k, s0); }
      if out.Announced? { out, k := Await(h, others, outcomes, k, s0); }
      if out.Persisted? { out, k := Await(h, others, outcomes, k, s0); }
    }

    /** `process_event`, with whatever the others do before each of its statements and an outcome for each: exactly
        the run that interleaves its first `k` statements with the others' steps, where statement `k` is the last.
        When it returns through a connection the document has a result; without a connection it always returns. */
    method ProcessEvent(h: nat, d: Delivery, others: seq<seq<Action>>, outcomes: seq<Outcome>)
      returns (out: Phase, k: nat)
      requires Inv(View()) && h !in handlers && |others| == |outcomes| == 7 && AllForeign(others, h)
      modifies this
      ensures k <= 7 && View() == Run(Step(old(View()), Deliver(h, d)), Weave(others, Proceeds(h, outcomes[..k])))
      ensures Inv(View()) && Grows(old(View().tables), View().tables)
      ensures h in handlers && handlers[h] == Handler(d, out) && (out.Returned? || out.Raised?)
      ensures out.Returned? && d.pool ==> HasResult(View().tables, d.doc)
      ensures !d.pool ==> out.Returned?
    {
      Execute(Deliver(h, d));
      ghost var s0 := View();
      assert Proceeds(h, outcomes[..0]) == [];
      StepKeepsInv(old(View()), Deliver(h, d));
      out, k := Await(h, others, outcomes, 0, s0);
      if out.Checked? { out, k := TryBody(h, others, outcomes, s0); }
      if out.Caught? { out, k := Await(h, others, outcomes, k, s0); }
      if out.Noted? { out, k := Await(h, others, outcomes, k, s0); }
      RunKeepsInv(s0, Weave(others, Proceeds(h, outcomes[..k])));
    }
  }
}
