/** The endpoint and the workers together: one `documents` table, which the API's transactions fill and the handlers of
    `process_event` update. Steps of the two sides interleave in any way. */
module Pipeline {

  import Intake
  import Ingest
  import Lifecycle

  /** The API's side with its rows, and the workers' side with the same rows' status, the results and the events. */
  datatype State = State(api: Ingest.State, work: Lifecycle.State)

  datatype Action = Api(a: Ingest.Action) | Work(b: Lifecycle.Action)

  function Init(env: Ingest.Env): State { State(Ingest.Init(env), Lifecycle.EMPTY) }

  /** A row that was just committed is a new document for the workers. */
  function Synced(rows: seq<Intake.Row>, rows': seq<Intake.Row>, work: Lifecycle.State): Lifecycle.State {
    if |rows'| > |rows| then Lifecycle.Step(work, Lifecycle.Create(rows'[|rows|].id)) else work
  }

  function Step(env: Ingest.Env, s: State, a: Action): State {
    match a
    case Api(a) =>
      var api := Ingest.Step(env, s.api, a);
      State(api, Synced(s.api.db.rows, api.db.rows, s.work))
    case Work(b) => if b.Create? then s else s.(work := Lifecycle.Step(s.work, b))
  }

  function Run(env: Ingest.Env, s: State, actions: seq<Action>): State {
    if actions == [] then s else Step(env, Run(env, s, actions[..|actions| - 1]), actions[|actions| - 1])
  }

  ghost predicate HasId(rows: seq<Intake.Row>, doc: nat) { exists row :: row in rows && row.id == doc }

  /** The two sides agree on which documents there are. */
  ghost predicate SameDocuments(s: State) {
    forall doc :: doc in s.work.tables.docs <==> HasId(s.api.db.rows, doc)
  }

  ghost predicate Inv(env: Ingest.Env, s: State) {
    Ingest.Inv(env, s.api) && Lifecycle.Inv(s.work) && SameDocuments(s)
  }

  /** A statement of the database appends at most one row. */
  lemma RowsGrow(env: Ingest.Env, d: Intake.State, b: Intake.Action)
    ensures var rows' := Intake.Step(env.hash, d, b).rows;
            rows' == d.rows || (|rows'| == |d.rows| + 1 && rows' == d.rows + [rows'[|d.rows|]])
  {}

  lemma ApiRowsGrow(env: Ingest.Env, s: Ingest.State, a: Ingest.Action)
    ensures var rows' := Ingest.Step(env, s, a).db.rows;
            rows' == s.db.rows || (|rows'| == |s.db.rows| + 1 && rows' == s.db.rows + [rows'[|s.db.rows|]])
  {
    if a.Db? {
      RowsGrow(env, s.db, a.a);
    } else if a.Register? {
      if Ingest.In(s, a.r) {
        RowsGrow(env, s.db, Intake.Begin(Ingest.Txn(a.r), s.requests[a.r].key, s.requests[a.r].agency));
      }
    } else {
      Ingest.OthersSpareDb(env, s, a);
    }
  }

  /** Only `Create` makes a document. */
  lemma WorkKeepsDocuments(s: Lifecycle.State, b: Lifecycle.Action)
    ensures Lifecycle.Step(s, b).tables.docs.Keys == s.tables.docs.Keys + (if b.Create? then {b.doc} else {})
  {}

  lemma {:induction false} OneMoreId(rows: seq<Intake.Row>, row: Intake.Row, doc: nat)
    ensures HasId(rows + [row], doc) <==> HasId(rows, doc) || doc == row.id
  {
    assert row in rows + [row];
    assert forall r :: r in rows + [row] <==> r in rows || r == row;
  }

  lemma StepKeepsDocuments(env: Ingest.Env, s: State, a: Action)
    requires SameDocuments(s)
    ensures SameDocuments(Step(env, s, a))
  {
    var s' := Step(env, s, a);
    match a
    case Api(a) =>
      ApiRowsGrow(env, s.api, a);
      var rows, rows' := s.api.db.rows, s'.api.db.rows;
      if rows' != rows {
        var row := rows'[|rows|];
        WorkKeepsDocuments(s.work, Lifecycle.Create(row.id));
        forall doc ensures doc in s'.work.tables.docs <==> HasId(rows', doc) { OneMoreId(rows, row, doc); }
      }
    case Work(b) => WorkKeepsDocuments(s.work, b);
  }

  lemma StepKeepsInv(env: Ingest.Env, s: State, a: Action)
    requires Inv(env, s)
    ensures Inv(env, Step(env, s, a))
  {
    StepKeepsDocuments(env, s, a);
    match a
    case Api(a) =>
      Ingest.StepKeepsInv(env, s.api, a);
      var rows, rows' := s.api.db.rows, Ingest.Step(env, s.api, a).db.rows;
      if |rows'| > |rows| { Lifecycle.StepKeepsInv(s.work, Lifecycle.Create(rows'[|rows|].id)); }
    case Work(b) => Lifecycle.StepKeepsInv(s.work, b);
  }

  lemma {:induction false} RunKeepsInv(env: Ingest.Env, actions: seq<Action>)
    ensures Inv(env, Run(env, Init(env), actions))
  {
    if actions == [] {
      Ingest.RunKeepsInv(env, []);
    } else {
      RunKeepsInv(env, actions[..|actions| - 1]);
      StepKeepsInv(env, Run(env, Init(env), actions[..|actions| - 1]), actions[|actions| - 1]);
    }
  }

  /** The row a result belongs to. */
  ghost predicate Labels(s: State, i: nat, row: Intake.Row)
    requires i < |s.work.tables.results|
  {
    row in s.api.db.rows && row.id == s.work.tables.results[i].doc
  }

  /** End to end, over every interleaving of requests, transactions, handlers, redeliveries, errors and crashes:
      every result belongs to a committed row ... */
  lemma {:induction false} ResultsAreOfRows(env: Ingest.Env, actions: seq<Action>, i: nat)
    requires i < |Run(env, Init(env), actions).work.tables.results|
    ensures exists row :: Labels(Run(env, Init(env), actions), i, row)
  {
    RunKeepsInv(env, actions);
    ResultHasRow(Run(env, Init(env), actions), i);
  }

  /** ... and two results never belong to one idempotency key, however often it was submitted, sent and delivered. */
  lemma {:induction false} OneResultPerKey(env: Ingest.Env, actions: seq<Action>, i: nat, j: nat, x: Intake.Row,
                                           y: Intake.Row)
    requires var s := Run(env, Init(env), actions);
             && i < |s.work.tables.results| && j < |s.work.tables.results|
             && Labels(s, i, x) && Labels(s, j, y) && x.key == y.key
    ensures i == j && x == y
  {
    var s := Run(env, Init(env), actions);
    RunKeepsInv(env, actions);
    SameKeySameRow(s.api.db.rows, x, y);
    SameDocSameResult(s.work.tables, i, j);
  }

  lemma ResultHasRow(s: State, i: nat)
    requires SameDocuments(s) && Lifecycle.Referenced(s.work.tables) && i < |s.work.tables.results|
    ensures exists row :: Labels(s, i, row)
  {
    var doc := s.work.tables.results[i].doc;
    assert doc in s.work.tables.docs && HasId(s.api.db.rows, doc);
    var row :| row in s.api.db.rows && row.id == doc;
    assert Labels(s, i, row);
  }

  lemma {:induction false} SameKeySameRow(rows: seq<Intake.Row>, x: Intake.Row, y: Intake.Row)
    requires Intake.Unique(rows) && x in rows && y in rows && x.key == y.key
    ensures x == y
  {
    var m :| 0 <= m < |rows| && rows[m] == x;
    var n :| 0 <= n < |rows| && rows[n] == y;
  }

  lemma SameDocSameResult(t: Lifecycle.Tables, i: nat, j: nat)
    requires Lifecycle.OneResultEach(t) && i < |t.results| && j < |t.results| && t.results[i].doc == t.results[j].doc
    ensures i == j
  {}
}
