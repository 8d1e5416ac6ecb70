/** What the endpoint of `Ingest` publishes and answers: once per job, in order or not, and with which job ids. */
module Publication {

  import opened Wrappers
  import Intake
  import Aimd
  import Storage
  import opened Ingest

  // ---------------------------------------------------------------- publish discipline

  ghost predicate HasRow(d: Intake.State, id: nat, key: string) {
    exists row :: row in d.rows && row.id == id && row.key == key
  }

  /** In every run, database errors included: no job id is in the log twice, every record is in its agency's
      partition, and every record of a document was appended after its row was committed and carries that row. */
  lemma {:induction false} PublishDiscipline(env: Env, actions: seq<Action>)
    ensures var s := Run(env, Init(env), actions);
            && (forall i, j :: 0 <= i < j < |s.log| ==> s.log[i].job != s.log[j].job)
            && (forall i :: 0 <= i < |s.log| ==> s.log[i].partition == env.partition(s.log[i].agency))
            && (forall i :: 0 <= i < |s.log| && s.log[i].job.Document? ==>
                  Intake.Row(s.log[i].job.id, s.log[i].key, s.log[i].agency, s.log[i].number) in s.db.rows)
  {
    var s := Run(env, Init(env), actions);
    RunKeepsInv(env, actions);
    forall i, j | 0 <= i < j < |s.log| ensures s.log[i].job != s.log[j].job {
      assert Genuine(env, s, s.log[i]) && Genuine(env, s, s.log[j]);
    }
    forall i | 0 <= i < |s.log| ensures s.log[i].partition == env.partition(s.log[i].agency) {
      assert Genuine(env, s, s.log[i]);
    }
    forall i | 0 <= i < |s.log| && s.log[i].job.Document?
      ensures Intake.Row(s.log[i].job.id, s.log[i].key, s.log[i].agency, s.log[i].number) in s.db.rows
    {
      RecordIsRow(env, s, i);
    }
  }

  lemma RecordIsRow(env: Env, s: State, i: nat)
    requires Inv(env, s) && i < |s.log| && s.log[i].job.Document?
    ensures Intake.Row(s.log[i].job.id, s.log[i].key, s.log[i].agency, s.log[i].number) in s.db.rows
  {
    assert Genuine(env, s, s.log[i]);
  }

  // ---------------------------------------------------------------- publication order

  /** Request `r` of agency `a` has its row committed and has not sent its record. */
  ghost predicate Window(s: State, r: nat, a: string) {
    && In(s, r) && s.requests[r].agency == a
    && (s.requests[r].phase.InDb? || (s.requests[r].phase.Publishing? && s.requests[r].phase.job.Document?))
    && Txn(r) in s.db.txns && s.db.txns[Txn(r)].phase.Created?
  }

  ghost predicate NoOverlap(s: State, a: string) {
    forall r, q :: Window(s, r, a) && Window(s, q, a) ==> r == q
  }

  ghost predicate DocumentOf(e: Record, a: string) { e.agency == a && e.job.Document? }

  /** The agency's records are in sequence order, and what is still to be sent comes after all of them. */
  ghost predicate Ordered(s: State, a: string) {
    && (forall i, j :: 0 <= i < j < |s.log| && DocumentOf(s.log[i], a) && DocumentOf(s.log[j], a) ==>
                         s.log[i].number < s.log[j].number)
    && (forall i, r :: 0 <= i < |s.log| && DocumentOf(s.log[i], a) && Window(s, r, a) ==>
                         s.log[i].number < s.db.txns[Txn(r)].phase.row.number)
  }

  /** Steps that neither append nor touch the database open no window. */
  lemma QuietKeepsOrder(s: State, s': State, a: string)
    requires Ordered(s, a) && s'.log == s.log && s'.db == s.db && forall r :: Window(s', r, a) ==> Window(s, r, a)
    ensures Ordered(s', a)
  {}

  lemma DbKeepsOrder(env: Env, s: State, b: Intake.Action, a: string)
    requires Inv(env, s) && Ordered(s, a)
    ensures Ordered(Step(env, s, Db(b)), a)
  {
    var s' := Step(env, s, Db(b));
    if s'.db != s.db {
      DbStep(env, s.db, b);
      DbCommit(env, s.db, b);
      forall i, r | 0 <= i < |s'.log| && DocumentOf(s'.log[i], a) && Window(s', r, a)
        ensures s'.log[i].number < s'.db.txns[Txn(r)].phase.row.number
      {
        assert Txn(r) in s.db.txns;
        if !s.db.txns[Txn(r)].phase.Created? {
          RecordIsRow(env, s, i);
          var row := Intake.Row(s.log[i].job.id, s.log[i].key, s.log[i].agency, s.log[i].number);
          assert row in s.db.rows && row.agency == s'.db.txns[Txn(r)].agency;
        } else {
          assert Window(s, r, a);
        }
      }
    }
  }

  /** A send appends nothing, or the record its request claims, and closes the request's window. */
  lemma SendEffect(env: Env, s: State, r: nat, sending: Sending, a: string)
    requires Publishers(s) && In(s, r)
    ensures var s' := Step(env, s, Send(r, sending));
            && s'.db == s.db && (forall q :: Window(s', q, a) ==> Window(s, q, a))
            && (s'.log == s.log
                || (|s'.log| == |s.log| + 1 && s'.log == s.log + [s'.log[|s.log|]] && !Window(s', r, a)
                    && (DocumentOf(s'.log[|s.log|], a) ==>
                          Window(s, r, a) && s'.log[|s.log|].number == s.db.txns[Txn(r)].phase.row.number)))
  {
    var s' := Step(env, s, Send(r, sending));
    if s'.log != s.log { assert Claims(s, r, s.requests[r].phase.job, s.requests[r].phase.number); }
    forall q | Window(s', q, a) ensures Window(s, q, a) {
      if q != r { assert s'.requests[q] == s.requests[q]; }
    }
  }

  lemma SendKeepsOrder(env: Env, s: State, r: nat, sending: Sending, a: string)
    requires Publishers(s) && Ordered(s, a) && NoOverlap(s, a) && In(s, r)
    ensures Ordered(Step(env, s, Send(r, sending)), a)
  {
    var s' := Step(env, s, Send(r, sending));
    SendEffect(env, s, r, sending, a);
    AppendKeepsOrder(s, s', r, a);
  }

  lemma AppendKeepsOrder(s: State, s': State, r: nat, a: string)
    requires Ordered(s, a) && NoOverlap(s, a) && s'.db == s.db && forall q :: Window(s', q, a) ==> Window(s, q, a)
    requires || s'.log == s.log
             || (|s'.log| == |s.log| + 1 && s'.log == s.log + [s'.log[|s.log|]] && !Window(s', r, a)
                 && (DocumentOf(s'.log[|s.log|], a) ==>
                       Window(s, r, a) && s'.log[|s.log|].number == s.db.txns[Txn(r)].phase.row.number))
    ensures Ordered(s', a)
  {
    assert forall i :: 0 <= i < |s.log| ==> s'.log[i] == s.log[i];
  }

  lemma RegisterKeepsOrder(env: Env, s: State, r: nat, a: string)
    requires Inv(env, s) && Ordered(s, a) && In(s, r)
    ensures Ordered(Step(env, s, Register(r)), a)
  {
    var s' := Step(env, s, Register(r));
    assert s'.log == s.log;
    if s.requests[r].phase.Stored? {
      assert Txn(r) !in s.db.txns;
      if env.pool {
        assert s'.db.txns == s.db.txns[Txn(r) := Intake.Txn(s.requests[r].key, s.requests[r].agency, Intake.Opened)];
      }
      forall q | Window(s', q, a) ensures Window(s, q, a) && s'.db.txns[Txn(q)] == s.db.txns[Txn(q)] {
        assert q != r;
      }
    }
  }

  lemma StepKeepsOrder(env: Env, s: State, b: Action, a: string)
    requires Inv(env, s) && Ordered(s, a) && NoOverlap(s, a)
    ensures Ordered(Step(env, s, b), a)
  {
    if b.Db? {
      DbKeepsOrder(env, s, b.a, a);
    } else if b.Send? {
      if In(s, b.r) { SendKeepsOrder(env, s, b.r, b.sending, a); }
    } else if b.Register? {
      if In(s, b.r) { RegisterKeepsOrder(env, s, b.r, a); }
    } else {
      OthersOpenNoWindow(env, s, b, a);
      QuietKeepsOrder(s, Step(env, s, b), a);
    }
  }

  lemma OthersOpenNoWindow(env: Env, s: State, b: Action, a: string)
    requires Txns(s) && !b.Db? && !b.Send? && !b.Register?
    ensures var s' := Step(env, s, b);
            s'.log == s.log && s'.db == s.db && forall r :: Window(s', r, a) ==> Window(s, r, a)
  {
    var s' := Step(env, s, b);
    forall r | Window(s', r, a) ensures Window(s, r, a) {
      if r != b.r { assert s'.requests[r] == s.requests[r]; }
    }
  }

  /** If an agency's requests never overlap between the commit of their row and their `send`, its documents stand in the
      log, and so in its one partition, in strictly increasing sequence. */
  lemma {:induction false} PublishedInOrder(env: Env, actions: seq<Action>, a: string)
    requires forall n :: 0 <= n <= |actions| ==> NoOverlap(Run(env, Init(env), actions[..n]), a)
    ensures Ordered(Run(env, Init(env), actions), a)
  {
    if actions != [] {
      var n := |actions| - 1;
      var before := actions[..n];
      assert forall m :: 0 <= m <= n ==> before[..m] == actions[..m];
      PublishedInOrder(env, before, a);
      RunKeepsInv(env, before);
      assert actions[..n] == before;
      StepKeepsOrder(env, Run(env, Init(env), before), actions[n], a);
    }
  }

  /** The agency's committed rows are those it had. */
  ghost predicate NoCommits(env: Env, s: State, actions: seq<Action>, a: string) {
    actions == []
    || (&& Intake.Of(Run(env, s, actions).db.rows, a) == Intake.Of(s.db.rows, a)
        && NoCommits(env, s, actions[..|actions| - 1], a))
  }

  /** Without a new row of its agency no window opens. */
  lemma NoNewWindow(env: Env, s: State, b: Action, a: string)
    requires Inv(env, s) && Intake.Of(Step(env, s, b).db.rows, a) == Intake.Of(s.db.rows, a)
    ensures forall r :: Window(Step(env, s, b), r, a) ==> Window(s, r, a)
  {
    if b.Db? {
      DbOpensNone(env, s, b.a, a);
    } else if b.Send? {
      if In(s, b.r) { SendEffect(env, s, b.r, b.sending, a); }
    } else if b.Register? {
      if In(s, b.r) { RegisterOpensNone(env, s, b.r, a); }
    } else {
      OthersOpenNoWindow(env, s, b, a);
    }
  }

  /** A commit adds a row to its transaction's agency. */
  lemma CommitGrows(env: Env, d: Intake.State, t: nat, acked: bool)
    requires Intake.NumberInv(d) && t in d.txns && d.txns[t].phase.Logged?
    ensures var a := d.txns[t].agency;
            |Intake.Of(Intake.Step(env.hash, d, Intake.Commit(t, acked)).rows, a)| == |Intake.Of(d.rows, a)| + 1
  {
    Intake.OfAppend(d.rows, d.txns[t].phase.row);
  }

  /** A transaction of the agency that becomes created adds a row to it. */
  lemma CommitsShow(env: Env, d: Intake.State, b: Intake.Action, a: string, t: nat)
    requires Intake.NumberInv(d) && Intake.Of(Intake.Step(env.hash, d, b).rows, a) == Intake.Of(d.rows, a)
    requires t in d.txns
    ensures var d' := Intake.Step(env.hash, d, b);
            t in d'.txns && d'.txns[t].agency == a && d'.txns[t].phase.Created? ==> d.txns[t].phase.Created?
  {
    OnlyCommitsCreate(env, d, b);
    if b == Intake.Commit(t, true) && d.txns[t].phase.Logged? { CommitGrows(env, d, t, true); }
  }

  lemma DbOpensNone(env: Env, s: State, b: Intake.Action, a: string)
    requires Intake.NumberInv(s.db) && Txns(s) && Intake.Of(Step(env, s, Db(b)).db.rows, a) == Intake.Of(s.db.rows, a)
    ensures forall r :: Window(Step(env, s, Db(b)), r, a) ==> Window(s, r, a)
  {
    var s' := Step(env, s, Db(b));
    if !(b.Begin? && b.t % 2 == 0) {
      DbTxns(env, s.db, b);
      DbStepKeys(env, s.db, b);
      forall r | Window(s', r, a) ensures Window(s, r, a) {
        assert Txn(r) in s.db.txns;
        CommitsShow(env, s.db, b, a, Txn(r));
      }
    }
  }

  lemma RegisterOpensNone(env: Env, s: State, r: nat, a: string)
    requires Txns(s) && In(s, r)
    ensures forall q :: Window(Step(env, s, Register(r)), q, a) ==> Window(s, q, a)
  {
    var s' := Step(env, s, Register(r));
    if s.requests[r].phase.Stored? {
      assert Txn(r) !in s.db.txns;
      if env.pool {
        assert s'.db.txns == s.db.txns[Txn(r) := Intake.Txn(s.requests[r].key, s.requests[r].agency, Intake.Opened)];
      }
      forall q | Window(s', q, a) ensures Window(s, q, a) {
        assert q != r;
      }
    }
  }

  lemma {:induction false} RunKeepsInvFrom(env: Env, s: State, actions: seq<Action>)
    requires Inv(env, s)
    ensures Inv(env, Run(env, s, actions))
  {
    if actions != [] {
      RunKeepsInvFrom(env, s, actions[..|actions| - 1]);
      StepKeepsInv(env, Run(env, s, actions[..|actions| - 1]), actions[|actions| - 1]);
    }
  }

  /** Without overlap and without further commits of the agency, the order lasts. */
  lemma {:induction false} OrderLasts(env: Env, s: State, actions: seq<Action>, a: string)
    requires Inv(env, s) && Ordered(s, a) && NoOverlap(s, a) && NoCommits(env, s, actions, a)
    ensures Ordered(Run(env, s, actions), a) && NoOverlap(Run(env, s, actions), a)
    ensures Intake.Of(Run(env, s, actions).db.rows, a) == Intake.Of(s.db.rows, a)
  {
    if actions != [] {
      var before, b := actions[..|actions| - 1], actions[|actions| - 1];
      OrderLasts(env, s, before, a);
      RunKeepsInvFrom(env, s, before);
      var m := Run(env, s, before);
      StepKeepsOrder(env, m, b, a);
      NoNewWindow(env, m, b, a);
    }
  }

  /** The rows of two windows have different numbers. */
  lemma WindowsDiffer(env: Env, s: State, r: nat, q: nat, a: string)
    requires Inv(env, s) && Window(s, r, a) && Window(s, q, a) && r != q
    ensures s.db.txns[Txn(r)].phase.row.number != s.db.txns[Txn(q)].phase.row.number
  {
    var x, y := s.db.txns[Txn(r)].phase.row, s.db.txns[Txn(q)].phase.row;
    var i :| 0 <= i < |s.db.rows| && s.db.rows[i] == x;
    var j :| 0 <= j < |s.db.rows| && s.db.rows[j] == y;
    Intake.OfMembers(s.db.rows, a, i);
    Intake.OfMembers(s.db.rows, a, j);
    var k: nat :| k < |Intake.Of(s.db.rows, a)| && Intake.Of(s.db.rows, a)[k] == x;
    var l: nat :| l < |Intake.Of(s.db.rows, a)| && Intake.Of(s.db.rows, a)[l] == y;
  }

  /** What is in a window can be sent next. */
  function Flush(r: nat): seq<Action> { [Resume(r), Send(r, Appended)] }

  lemma FlushSends(env: Env, s: State, r: nat, a: string)
    requires Inv(env, s) && Window(s, r, a)
    ensures var s', row := Run(env, s, Flush(r)), s.db.txns[Txn(r)].phase.row;
            && s'.db == s.db && |s'.log| == |s.log| + 1 && s'.log[..|s.log|] == s.log
            && DocumentOf(s'.log[|s.log|], a) && s'.log[|s.log|].number == row.number
            && forall q :: q != r ==> (Window(s, q, a) ==> Window(s', q, a))
  {
    var resume := [Resume(r)];
    assert resume[..0] == [] && resume + [Send(r, Appended)] == Flush(r);
    RunSnoc(env, s, resume, Send(r, Appended));
    var row := s.db.txns[Txn(r)].phase.row;
    var m := Move(s, r, Publishing(Document(row.id), row.number));
    assert Claims(s, r, Document(row.id), row.number);
    if s.requests[r].phase.InDb? {
      assert Step(env, s, Resume(r)) == m;
    } else {
      assert Claims(s, r, s.requests[r].phase.job, s.requests[r].phase.number);
      assert Step(env, s, Resume(r)) == s;
    }
    var s1 := Step(env, s, Resume(r));
    assert s1.requests[r].phase == Publishing(Document(row.id), row.number) && s1.log == s.log && s1.db == s.db;
    forall q | q != r && Window(s, q, a) ensures Window(Step(env, s1, Send(r, Appended)), q, a) {
      assert s1.requests[q] == s.requests[q];
    }
  }

  /** Two windows can be sent against their sequence, without any commit. */
  lemma {:induction false} OverlapReorders(env: Env, s: State, r: nat, q: nat, a: string) returns (actions: seq<Action>)
    requires Inv(env, s) && Window(s, r, a) && Window(s, q, a)
    requires s.db.txns[Txn(r)].phase.row.number < s.db.txns[Txn(q)].phase.row.number
    ensures Run(env, s, actions).db == s.db && !Ordered(Run(env, s, actions), a) && NoCommits(env, s, actions, a)
  {
    FlushSends(env, s, q, a);
    var m := Run(env, s, Flush(q));
    RunKeepsInvFrom(env, s, Flush(q));
    FlushSends(env, m, r, a);
    actions := Flush(q) + Flush(r);
    RunConcat(env, s, Flush(q), Flush(r));
    var log := Run(env, s, actions).log;
    assert log[|s.log|] == m.log[|s.log|];
    NoStatements(env, s, actions, a);
  }

  lemma {:induction false} NoStatements(env: Env, s: State, actions: seq<Action>, a: string)
    requires forall i :: 0 <= i < |actions| ==> actions[i].Resume? || actions[i].Send?
    ensures Run(env, s, actions).db == s.db && NoCommits(env, s, actions, a)
  {
    if actions != [] {
      var before, b := actions[..|actions| - 1], actions[|actions| - 1];
      NoStatements(env, s, before, a);
      assert b.Resume? || b.Send?;
    }
  }

  /** From a reachable state in which an agency's documents stand in order, they stay so in every continuation without a
      further commit of the agency exactly when no two of its requests are between commit and `send`. */
  lemma {:induction false} StaysOrderedIff(env: Env, before: seq<Action>, a: string)
    requires Ordered(Run(env, Init(env), before), a)
    ensures var s := Run(env, Init(env), before);
            (forall actions :: NoCommits(env, s, actions, a) ==> Ordered(Run(env, s, actions), a)) <==> NoOverlap(s, a)
  {
    var s := Run(env, Init(env), before);
    RunKeepsInv(env, before);
    if NoOverlap(s, a) {
      forall actions | NoCommits(env, s, actions, a) ensures Ordered(Run(env, s, actions), a) {
        OrderLasts(env, s, actions, a);
      }
    } else {
      var r, q :| Window(s, r, a) && Window(s, q, a) && r != q;
      WindowsDiffer(env, s, r, q, a);
      var actions;
      if s.db.txns[Txn(r)].phase.row.number < s.db.txns[Txn(q)].phase.row.number {
        actions := OverlapReorders(env, s, r, q, a);
      } else {
        actions := OverlapReorders(env, s, q, r, a);
      }
    }
  }

  // ---------------------------------------------------------------- idempotency

  /** The job id in a request's hands, or in its answer. */
  function JobOf(ph: Phase): Option<Job> {
    match ph
    case Publishing(job, _) => Some(job)
    case Published(job) => Some(job)
    case Leaving(Duplicate(job)) => Some(job)
    case Leaving(Accepted(job)) => Some(job)
    case Gone(Duplicate(job)) => Some(job)
    case Gone(Accepted(job)) => Some(job)
    case _ => None
  }

  /** What stands behind a job id handed out for `key`: the key's row, or the key's entry in the process's cache. */
  ghost predicate Behind(s: State, job: Job, key: string) {
    match job
    case Document(id) => HasRow(s.db, id, key)
    case Local(_) => key in s.cache && s.cache[key] == job
  }

  ghost predicate Answers(s: State) {
    forall r :: r in s.requests && JobOf(s.requests[r].phase).Some? ==>
                  Behind(s, JobOf(s.requests[r].phase).value, s.requests[r].key)
  }

  ghost predicate RecordsBehind(s: State) {
    forall i :: 0 <= i < |s.log| ==> Behind(s, s.log[i].job, s.log[i].key)
  }

  ghost predicate CacheLocal(s: State) { forall k :: k in s.cache ==> s.cache[k].Local? }

  /** Rows stay, and a cached key keeps its job. */
  ghost predicate Remembers(s: State, s': State) {
    && (forall row :: row in s.db.rows ==> row in s'.db.rows)
    && (forall k :: k in s.cache ==> k in s'.cache && s'.cache[k] == s.cache[k])
  }

  lemma BehindStays(s: State, s': State, job: Job, key: string)
    requires Behind(s, job, key) && Remembers(s, s')
    ensures Behind(s', job, key)
  {
    if job.Document? {
      var row :| row in s.db.rows && row.id == job.id && row.key == key;
      assert row in s'.db.rows;
    }
  }

  lemma StepRemembers(env: Env, s: State, a: Action)
    ensures Remembers(s, Step(env, s, a))
  {
    if a.Db? {
      DbStep(env, s.db, a.a);
    } else if a.Register? && In(s, a.r) {
      DbStep(env, s.db, Intake.Begin(Txn(a.r), s.requests[a.r].key, s.requests[a.r].agency));
    }
  }

  /** A request gets its job id from its transaction or from the cache, and keeps it. */
  lemma NewJobs(env: Env, s: State, a: Action, r: nat)
    requires Inv(env, s) && CacheLocal(s)
    requires var s' := Step(env, s, a); In(s', r) && JobOf(s'.requests[r].phase).Some?
    ensures var s' := Step(env, s, a);
            var job := JobOf(s'.requests[r].phase).value;
            || (In(s, r) && JobOf(s.requests[r].phase) == Some(job) && s.requests[r].key == s'.requests[r].key)
            || Behind(s', job, s'.requests[r].key)
  {
    if a.Db? || a.r != r {
      OthersKeepJob(env, s, a, r);
    } else if a.Resume? && In(s, r) {
      ResumedJob(env, s, r);
    } else {
      OwnJob(env, s, a);
    }
  }

  lemma OthersKeepJob(env: Env, s: State, a: Action, r: nat)
    requires (a.Db? || a.r != r) && In(Step(env, s, a), r)
    ensures In(s, r) && Step(env, s, a).requests[r] == s.requests[r]
  {}

  lemma OwnJob(env: Env, s: State, a: Action)
    requires CacheLocal(s) && !a.Db? && !a.Resume?
    requires var s' := Step(env, s, a); In(s', a.r) && JobOf(s'.requests[a.r].phase).Some?
    ensures var s', r := Step(env, s, a), a.r;
            var job := JobOf(s'.requests[r].phase).value;
            || (In(s, r) && JobOf(s.requests[r].phase) == Some(job) && s.requests[r].key == s'.requests[r].key)
            || Behind(s', job, s'.requests[r].key)
  {
    assert In(s, a.r);
  }

  lemma ResumedJob(env: Env, s: State, r: nat)
    requires Intake.Inv(env.hash, s.db) && Txns(s) && CacheLocal(s) && In(s, r)
    requires JobOf(Step(env, s, Resume(r)).requests[r].phase).Some?
    ensures var s' := Step(env, s, Resume(r));
            || s' == s
            || Behind(s', JobOf(s'.requests[r].phase).value, s'.requests[r].key)
  {
    if s.requests[r].phase.InDb? && Txn(r) in s.db.txns {
      var x := s.db.txns[Txn(r)];
      if x.phase.Created? || x.phase.Found? {
        OutcomeIsRow(env, s.db, Txn(r));
        assert HasRow(s.db, x.phase.row.id, s.requests[r].key);
      }
    }
  }

  lemma OutcomeIsRow(env: Env, d: Intake.State, t: nat)
    requires Intake.Inv(env.hash, d) && t in d.txns && (d.txns[t].phase.Created? || d.txns[t].phase.Found?)
    ensures d.txns[t].phase.row in d.rows && d.txns[t].phase.row.key == d.txns[t].key
  {}

  ghost predicate IdemInv(s: State) { Answers(s) && RecordsBehind(s) && CacheLocal(s) }

  lemma StepKeepsIdem(env: Env, s: State, a: Action)
    requires Inv(env, s) && IdemInv(s)
    ensures IdemInv(Step(env, s, a))
  {
    var s' := Step(env, s, a);
    StepRemembers(env, s, a);
    forall r | r in s'.requests && JobOf(s'.requests[r].phase).Some?
      ensures Behind(s', JobOf(s'.requests[r].phase).value, s'.requests[r].key)
    {
      NewJobs(env, s, a, r);
      if !Behind(s', JobOf(s'.requests[r].phase).value, s'.requests[r].key) {
        BehindStays(s, s', JobOf(s'.requests[r].phase).value, s'.requests[r].key);
      }
    }
    StepKeepsRecords(env, s, a);
    assert CacheLocal(s');
  }

  lemma StepKeepsRecords(env: Env, s: State, a: Action)
    requires Answers(s) && RecordsBehind(s)
    ensures RecordsBehind(Step(env, s, a))
  {
    var s' := Step(env, s, a);
    StepRemembers(env, s, a);
    forall i | 0 <= i < |s'.log| ensures Behind(s', s'.log[i].job, s'.log[i].key) {
      if i < |s.log| {
        assert s'.log[i] == s.log[i];
      } else {
        assert a.Send? && In(s, a.r) && JobOf(s.requests[a.r].phase) == Some(s'.log[i].job);
      }
      BehindStays(s, s', s'.log[i].job, s'.log[i].key);
    }
  }

  lemma {:induction false} RunKeepsIdem(env: Env, actions: seq<Action>)
    ensures IdemInv(Run(env, Init(env), actions))
  {
    if actions != [] {
      var before := actions[..|actions| - 1];
      RunKeepsIdem(env, before);
      RunKeepsInv(env, before);
      StepKeepsIdem(env, Run(env, Init(env), before), actions[|actions| - 1]);
    }
  }

  lemma BehindAgree(env: Env, s: State, j: Job, k: Job, key: string)
    requires Intake.Inv(env.hash, s.db) && Behind(s, j, key) && Behind(s, k, key) && (j.Document? <==> k.Document?)
    ensures j == k
  {
    if j.Document? {
      var x :| x in s.db.rows && x.id == j.id && x.key == key;
      var y :| y in s.db.rows && y.id == k.id && y.key == key;
      var m :| 0 <= m < |s.db.rows| && s.db.rows[m] == x;
      var n :| 0 <= n < |s.db.rows| && s.db.rows[n] == y;
    }
  }

  /** Answers for one effective key carry the same job id, unless one of them came from the database and the other
      from the fallback cache. */
  lemma {:induction false} AnswersAgree(env: Env, actions: seq<Action>, r: nat, q: nat)
    requires var s := Run(env, Init(env), actions);
             && In(s, r) && In(s, q) && s.requests[r].key == s.requests[q].key
             && JobOf(s.requests[r].phase).Some? && JobOf(s.requests[q].phase).Some?
             && (JobOf(s.requests[r].phase).value.Document? <==> JobOf(s.requests[q].phase).value.Document?)
    ensures var s := Run(env, Init(env), actions); JobOf(s.requests[r].phase) == JobOf(s.requests[q].phase)
  {
    var s := Run(env, Init(env), actions);
    RunKeepsInv(env, actions);
    RunKeepsIdem(env, actions);
    BehindAgree(env, s, JobOf(s.requests[r].phase).value, JobOf(s.requests[q].phase).value, s.requests[r].key);
  }

  /** Two records of one key are a document's and a fallback's: at most one of each kind is ever sent. */
  lemma {:induction false} SentOncePerKey(env: Env, actions: seq<Action>, i: nat, j: nat)
    requires var s := Run(env, Init(env), actions); i < j < |s.log| && s.log[i].key == s.log[j].key
    ensures var s := Run(env, Init(env), actions); s.log[i].job.Document? != s.log[j].job.Document?
  {
    var s := Run(env, Init(env), actions);
    RunKeepsInv(env, actions);
    RunKeepsIdem(env, actions);
    PublishDiscipline(env, actions);
    if s.log[i].job.Document? == s.log[j].job.Document? {
      BehindAgree(env, s, s.log[i].job, s.log[j].job, s.log[i].key);
    }
  }

  ghost predicate NoDocuments(s: State) {
    && (forall r :: r in s.requests ==> !s.requests[r].phase.InDb?)
    && (forall r :: r in s.requests && JobOf(s.requests[r].phase).Some? ==> JobOf(s.requests[r].phase).value.Local?)
    && (forall i :: 0 <= i < |s.log| ==> s.log[i].job.Local?)
  }

  lemma StepKeepsNoDocuments(env: Env, s: State, a: Action)
    requires !env.pool && NoDocuments(s) && CacheLocal(s)
    ensures NoDocuments(Step(env, s, a))
  {
    var s' := Step(env, s, a);
    forall r | r in s'.requests
      ensures !s'.requests[r].phase.InDb?
      ensures JobOf(s'.requests[r].phase).Some? ==> JobOf(s'.requests[r].phase).value.Local?
    {
      RequestKeepsLocal(env, s, a, r);
    }
    RecordsKeepLocal(env, s, a);
  }

  lemma RequestKeepsLocal(env: Env, s: State, a: Action, r: nat)
    requires !env.pool && NoDocuments(s) && CacheLocal(s) && r in Step(env, s, a).requests
    ensures var x := Step(env, s, a).requests[r];
            !x.phase.InDb? && (JobOf(x.phase).Some? ==> JobOf(x.phase).value.Local?)
  {
    if a.Db? || r != a.r {
      assert Step(env, s, a).requests[r] == s.requests[r];
    } else if In(s, r) {
      OwnKeepsLocal(env, s, a);
    }
  }

  lemma RecordsKeepLocal(env: Env, s: State, a: Action)
    requires NoDocuments(s)
    ensures forall i :: 0 <= i < |Step(env, s, a).log| ==> Step(env, s, a).log[i].job.Local?
  {
    LogGrows(env, s, a);
    if Step(env, s, a).log != s.log { assert JobOf(s.requests[a.r].phase).value.Local?; }
  }

  lemma OwnKeepsLocal(env: Env, s: State, a: Action)
    requires !env.pool && CacheLocal(s) && !a.Db? && In(s, a.r) && !s.requests[a.r].phase.InDb?
    requires JobOf(s.requests[a.r].phase).Some? ==> JobOf(s.requests[a.r].phase).value.Local?
    ensures var s' := Step(env, s, a);
            && In(s', a.r) && !s'.requests[a.r].phase.InDb?
            && (JobOf(s'.requests[a.r].phase).Some? ==> JobOf(s'.requests[a.r].phase).value.Local?)
  {}

  lemma {:induction false} WithoutDatabase(env: Env, actions: seq<Action>)
    requires !env.pool
    ensures NoDocuments(Run(env, Init(env), actions))
  {
    if actions != [] {
      var before := actions[..|actions| - 1];
      WithoutDatabase(env, before);
      RunKeepsIdem(env, before);
      StepKeepsNoDocuments(env, Run(env, Init(env), before), actions[|actions| - 1]);
    }
  }

  /** Without a database all answers for one effective key carry the same job id ... */
  lemma {:induction false} FallbackAnswersAgree(env: Env, actions: seq<Action>, r: nat, q: nat)
    requires !env.pool
    requires var s := Run(env, Init(env), actions);
             && In(s, r) && In(s, q) && s.requests[r].key == s.requests[q].key
             && JobOf(s.requests[r].phase).Some? && JobOf(s.requests[q].phase).Some?
    ensures var s := Run(env, Init(env), actions); JobOf(s.requests[r].phase) == JobOf(s.requests[q].phase)
  {
    WithoutDatabase(env, actions);
    AnswersAgree(env, actions, r, q);
  }

  /** ... and at most one record is sent per key. */
  lemma {:induction false} FallbackSendsOnce(env: Env, actions: seq<Action>, i: nat, j: nat)
    requires !env.pool
    requires var s := Run(env, Init(env), actions); i < j < |s.log|
    ensures var s := Run(env, Init(env), actions); s.log[i].key != s.log[j].key
  {
    WithoutDatabase(env, actions);
    if Run(env, Init(env), actions).log[i].key == Run(env, Init(env), actions).log[j].key {
      SentOncePerKey(env, actions, i, j);
    }
  }

  // ---------------------------------------------------------------- which answers are documents

  /** The request's own transaction is over, by an exception or not. */
  predicate Ended(s: State, r: nat) { Txn(r) in s.db.txns && Intake.Final(s.db.txns[Txn(r)].phase) }

  /** `create_or_get` raised: the guard of the branch that falls back to the cache. */
  predicate FellBack(s: State, r: nat) { Txn(r) in s.db.txns && s.db.txns[Txn(r)].phase.Raised? }

  ghost predicate KindOf(s: State, r: nat, job: Job) { Ended(s, r) && (job.Local? <==> FellBack(s, r)) }

  ghost predicate AnswerKinds(s: State) {
    forall r :: r in s.requests && JobOf(s.requests[r].phase).Some? ==> KindOf(s, r, JobOf(s.requests[r].phase).value)
  }

  ghost predicate RecordKinds(s: State) {
    forall i :: 0 <= i < |s.log| ==> KindOf(s, s.log[i].sender, s.log[i].job)
  }

  lemma KindStays(s: State, s': State, r: nat, job: Job)
    requires KindOf(s, r, job) && TxnsStand(s.db.txns, s'.db.txns)
    ensures KindOf(s', r, job)
  {}

  lemma StepStands(env: Env, s: State, a: Action)
    ensures TxnsStand(s.db.txns, Step(env, s, a).db.txns)
  {
    if a.Db? {
      DbTxns(env, s.db, a.a);
    } else if a.Register? {
      if In(s, a.r) { DbTxns(env, s.db, Intake.Begin(Txn(a.r), s.requests[a.r].key, s.requests[a.r].agency)); }
    } else {
      OthersSpareDb(env, s, a);
    }
  }

  /** A request's job id comes from `Resume`, which looks at the outcome of its transaction. */
  lemma NewKind(env: Env, s: State, a: Action)
    requires env.pool && CacheLocal(s) && !a.Db? && In(s, a.r)
    requires JobOf(s.requests[a.r].phase).None? && JobOf(Step(env, s, a).requests[a.r].phase).Some?
    ensures var s' := Step(env, s, a); KindOf(s', a.r, JobOf(s'.requests[a.r].phase).value)
  {}

  lemma SameJob(env: Env, s: State, a: Action, r: nat)
    requires r in Step(env, s, a).requests && JobOf(Step(env, s, a).requests[r].phase).Some?
    ensures In(s, r)
    ensures JobOf(s.requests[r].phase).Some? ==> JobOf(Step(env, s, a).requests[r].phase) == JobOf(s.requests[r].phase)
    ensures JobOf(s.requests[r].phase).None? ==> !a.Db? && a.r == r
  {
    if a.Db? || a.r != r { assert Step(env, s, a).requests[r] == s.requests[r]; }
  }

  lemma StepKeepsAnswerKinds(env: Env, s: State, a: Action)
    requires env.pool && CacheLocal(s) && AnswerKinds(s)
    ensures AnswerKinds(Step(env, s, a))
  {
    var s' := Step(env, s, a);
    forall r | r in s'.requests && JobOf(s'.requests[r].phase).Some?
      ensures KindOf(s', r, JobOf(s'.requests[r].phase).value)
    {
      SameJob(env, s, a, r);
      if JobOf(s.requests[r].phase).Some? {
        StepStands(env, s, a);
        KindStays(s, s', r, JobOf(s.requests[r].phase).value);
      } else {
        NewKind(env, s, a);
      }
    }
  }

  lemma StepKeepsRecordKinds(env: Env, s: State, a: Action)
    requires AnswerKinds(s) && RecordKinds(s)
    ensures RecordKinds(Step(env, s, a))
  {
    var s' := Step(env, s, a);
    LogGrows(env, s, a);
    StepStands(env, s, a);
    forall i | 0 <= i < |s'.log| ensures KindOf(s', s'.log[i].sender, s'.log[i].job) {
      if i < |s.log| {
        assert s'.log[i] == s.log[i];
      } else {
        assert s'.log[i].sender == a.r && JobOf(s.requests[a.r].phase) == Some(s'.log[i].job);
      }
      KindStays(s, s', s'.log[i].sender, s'.log[i].job);
    }
  }

  lemma {:induction false} RunKeepsKinds(env: Env, actions: seq<Action>)
    requires env.pool
    ensures AnswerKinds(Run(env, Init(env), actions)) && RecordKinds(Run(env, Init(env), actions))
  {
    if actions != [] {
      var before, a := actions[..|actions| - 1], actions[|actions| - 1];
      RunKeepsKinds(env, before);
      RunKeepsIdem(env, before);
      StepKeepsAnswerKinds(env, Run(env, Init(env), before), a);
      StepKeepsRecordKinds(env, Run(env, Init(env), before), a);
    }
  }

  /** With a database, two answers for one key carry the same job id exactly when both requests' transactions raised, or
      neither did. */
  lemma {:induction false} AnswersAgreeIff(env: Env, actions: seq<Action>, r: nat, q: nat)
    requires env.pool
    requires var s := Run(env, Init(env), actions);
             && In(s, r) && In(s, q) && s.requests[r].key == s.requests[q].key
             && JobOf(s.requests[r].phase).Some? && JobOf(s.requests[q].phase).Some?
    ensures var s := Run(env, Init(env), actions);
            JobOf(s.requests[r].phase) == JobOf(s.requests[q].phase) <==> (FellBack(s, r) <==> FellBack(s, q))
  {
    var s := Run(env, Init(env), actions);
    RunKeepsKinds(env, actions);
    assert KindOf(s, r, JobOf(s.requests[r].phase).value) && KindOf(s, q, JobOf(s.requests[q].phase).value);
    if FellBack(s, r) <==> FellBack(s, q) { AnswersAgree(env, actions, r, q); }
  }

  ghost predicate SentWith(s: State, key: string, fellBack: bool) {
    exists i :: 0 <= i < |s.log| && s.log[i].key == key && FellBack(s, s.log[i].sender) == fellBack
  }

  ghost predicate SentTwice(s: State, key: string) {
    exists i, j :: 0 <= i < j < |s.log| && s.log[i].key == key && s.log[j].key == key
  }

  /** With a database, a key is in the log twice exactly when a request whose transaction raised and one whose
      transaction did not have both sent for it; so never, as long as no transaction of the key raises. */
  lemma {:induction false} SentTwiceIff(env: Env, actions: seq<Action>, key: string)
    requires env.pool
    ensures var s := Run(env, Init(env), actions);
            SentTwice(s, key) <==> SentWith(s, key, true) && SentWith(s, key, false)
  {
    var s := Run(env, Init(env), actions);
    RunKeepsKinds(env, actions);
    if i, j :| 0 <= i < j < |s.log| && s.log[i].key == key && s.log[j].key == key {
      SentOncePerKey(env, actions, i, j);
      assert KindOf(s, s.log[i].sender, s.log[i].job) && KindOf(s, s.log[j].sender, s.log[j].job);
      assert FellBack(s, s.log[i].sender) != FellBack(s, s.log[j].sender);
    }
    if SentWith(s, key, true) && SentWith(s, key, false) {
      var i :| 0 <= i < |s.log| && s.log[i].key == key && FellBack(s, s.log[i].sender);
      var j :| 0 <= j < |s.log| && s.log[j].key == key && !FellBack(s, s.log[j].sender);
      if i < j { assert SentTwice(s, key); } else { assert j < i; }
    }
  }

  /** In a run in which no transaction of a key's own requests raises, all answers for the key agree and it is sent
      at most once. */
  lemma {:induction false} WithoutFallback(env: Env, actions: seq<Action>, key: string)
    requires env.pool
    requires var s := Run(env, Init(env), actions);
             forall r :: In(s, r) && s.requests[r].key == key ==> !FellBack(s, r)
    ensures var s := Run(env, Init(env), actions);
            && !SentTwice(s, key)
            && forall r, q :: In(s, r) && In(s, q) && s.requests[r].key == s.requests[q].key == key
                              && JobOf(s.requests[r].phase).Some? && JobOf(s.requests[q].phase).Some? ==>
                                JobOf(s.requests[r].phase) == JobOf(s.requests[q].phase)
  {
    var s := Run(env, Init(env), actions);
    RunKeepsInv(env, actions);
    SentTwiceIff(env, actions, key);
    forall i | 0 <= i < |s.log| && s.log[i].key == key ensures !FellBack(s, s.log[i].sender) {
      assert Genuine(env, s, s.log[i]);
    }
    forall r, q | In(s, r) && In(s, q) && s.requests[r].key == s.requests[q].key == key
                  && JobOf(s.requests[r].phase).Some? && JobOf(s.requests[q].phase).Some?
      ensures JobOf(s.requests[r].phase) == JobOf(s.requests[q].phase)
    {
      AnswersAgreeIff(env, actions, r, q);
    }
  }

  // ---------------------------------------------------------------- payload size

  predicate PastSizeCheck(ph: Phase) { ph.Permitted? || ph.Stored? || ph.InDb? || JobOf(ph).Some? }

  predicate TurnedAwayForSize(ph: Phase) { (ph.Leaving? || ph.Gone?) && ph.response.TooLarge? }

  ghost predicate SizeChecked(x: Request) {
    && (PastSizeCheck(x.phase) ==> x.size <= Storage.MAX_PAYLOAD_BYTES)
    && (TurnedAwayForSize(x.phase) ==> x.size > Storage.MAX_PAYLOAD_BYTES)
  }

  ghost predicate SizesChecked(s: State) {
    && (forall r :: r in s.requests ==> SizeChecked(s.requests[r]))
    && (forall i :: 0 <= i < |s.log| ==> SmallSender(s, s.log[i].sender))
  }

  ghost predicate SmallSender(s: State, r: nat) {
    In(s, r) && !s.requests[r].phase.Reading? && s.requests[r].size <= Storage.MAX_PAYLOAD_BYTES
  }

  lemma StepKeepsSize(env: Env, s: State, a: Action, r: nat)
    requires (In(s, r) ==> SizeChecked(s.requests[r])) && In(Step(env, s, a), r)
    ensures SizeChecked(Step(env, s, a).requests[r])
  {
    if a.Db? || a.r != r { assert Step(env, s, a).requests[r] == s.requests[r]; }
  }

  lemma StepKeepsSender(env: Env, s: State, a: Action, r: nat)
    requires SmallSender(s, r)
    ensures SmallSender(Step(env, s, a), r)
  {
    if a.Db? || a.r != r { assert Step(env, s, a).requests[r] == s.requests[r]; }
  }

  /** Only a request past the size check appends. */
  lemma NewRecord(env: Env, s: State, a: Action)
    requires a.Send? && In(s, a.r) && SizeChecked(s.requests[a.r])
    ensures var s' := Step(env, s, a);
            || s'.log == s.log
            || (&& |s'.log| == |s.log| + 1 && s'.log[..|s.log|] == s.log
                && s'.log[|s.log|].sender == a.r && SmallSender(s', a.r))
  {}

  lemma LogStays(env: Env, s: State, a: Action)
    requires !a.Send?
    ensures Step(env, s, a).log == s.log
  {}

  lemma StepKeepsSizes(env: Env, s: State, a: Action)
    requires SizesChecked(s)
    ensures SizesChecked(Step(env, s, a))
  {
    var s' := Step(env, s, a);
    forall r | r in s'.requests ensures SizeChecked(s'.requests[r]) { StepKeepsSize(env, s, a, r); }
    if a.Send? && In(s, a.r) {
      NewRecord(env, s, a);
    } else if !a.Send? {
      LogStays(env, s, a);
    }
    forall i | 0 <= i < |s'.log| ensures SmallSender(s', s'.log[i].sender) {
      if i < |s.log| {
        assert s'.log[i] == s.log[i];
        StepKeepsSender(env, s, a, s.log[i].sender);
      }
    }
  }

  /** In every run, whoever is turned away for the size of its payload sent too much, and nothing oversized is
      accepted, found again or published. */
  lemma {:induction false} SizesAreChecked(env: Env, actions: seq<Action>)
    ensures SizesChecked(Run(env, Init(env), actions))
  {
    if actions != [] {
      var before := actions[..|actions| - 1];
      SizesAreChecked(env, before);
      StepKeepsSizes(env, Run(env, Init(env), before), actions[|actions| - 1]);
    }
  }

  // ---------------------------------------------------------------- when a job is in the log

  /** In state `s` step `a` is the `send` of request `r` for `job`, and appends. */
  ghost predicate Sends(s: State, a: Action, r: nat, job: Job) {
    && a.Send? && a.r == r && (a.sending.Appended? || a.sending.AppendedThenRaised?)
    && In(s, r) && s.requests[r].phase.Publishing? && s.requests[r].phase.job == job
  }

  /** Some step of the run is such a `send`. */
  ghost predicate HasSent(env: Env, actions: seq<Action>, r: nat, job: Job) {
    actions != []
    && (var before := actions[..|actions| - 1];
        Sends(Run(env, Init(env), before), actions[|actions| - 1], r, job) || HasSent(env, before, r, job))
  }

  ghost predicate Has(log: seq<Record>, r: nat, job: Job) { exists e :: e in log && e.sender == r && e.job == job }

  lemma {:induction false} HasAppended(log: seq<Record>, e: Record, r: nat, job: Job)
    ensures Has(log + [e], r, job) <==> Has(log, r, job) || (e.sender == r && e.job == job)
  {
    assert forall f :: f in log + [e] <==> f in log || f == e;
    assert e in log + [e];
  }

  /** A step leaves the log alone, or is a `send` that appends its record. */
  lemma LogGrows(env: Env, s: State, a: Action)
    ensures var log' := Step(env, s, a).log;
            || (log' == s.log && forall r, job :: !Sends(s, a, r, job))
            || (a.Send? && In(s, a.r) && s.requests[a.r].phase.Publishing?
                && Sends(s, a, a.r, s.requests[a.r].phase.job)
                && log' == s.log + [RecordOf(env, s, a.r)])
  {}

  lemma LogStep(env: Env, s: State, a: Action, r: nat, job: Job)
    ensures Has(Step(env, s, a).log, r, job) <==> Has(s.log, r, job) || Sends(s, a, r, job)
  {
    LogGrows(env, s, a);
    if a.Send? && In(s, a.r) && s.requests[a.r].phase.Publishing? {
      var x := s.requests[a.r];
      HasAppended(s.log, Record(env.partition(x.agency), x.phase.job, x.agency, x.key, x.phase.number, a.r), r, job);
    }
  }

  /** For every run: request `r` has `job` in the log exactly when it executed a `send` for it that appended. */
  lemma {:induction false} LoggedIffSent(env: Env, actions: seq<Action>, r: nat, job: Job)
    ensures Has(Run(env, Init(env), actions).log, r, job) <==> HasSent(env, actions, r, job)
  {
    if actions != [] {
      var before := actions[..|actions| - 1];
      LoggedIffSent(env, before, r, job);
      LogStep(env, Run(env, Init(env), before), actions[|actions| - 1], r, job);
    }
  }

  /** The one request that may publish a job: the one whose random id it is, or whose transaction created the
      document. */
  ghost predicate Owns(s: State, r: nat, job: Job) {
    match job
    case Local(q) => q == r
    case Document(id) => Txn(r) in s.db.txns && s.db.txns[Txn(r)].phase.Created? && s.db.txns[Txn(r)].phase.row.id == id
  }

  /** For every run: a job stands in the log, whoever was answered with it, exactly when its owner executed a `send`
      for it that appended. */
  lemma {:induction false} PublishedIffOwnerSent(env: Env, actions: seq<Action>, r: nat, job: Job)
    requires Owns(Run(env, Init(env), actions), r, job)
    ensures var s := Run(env, Init(env), actions);
            (exists e :: e in s.log && e.job == job) <==> HasSent(env, actions, r, job)
  {
    var s := Run(env, Init(env), actions);
    RunKeepsInv(env, actions);
    LoggedIffSent(env, actions, r, job);
    if e :| e in s.log && e.job == job {
      assert Genuine(env, s, e);
      OwnersAgree(env, s, r, e.sender, job, e.number);
    }
  }

  lemma OwnersAgree(env: Env, s: State, r: nat, q: nat, job: Job, number: nat)
    requires Intake.Inv(env.hash, s.db) && Owns(s, r, job) && Claims(s, q, job, number)
    ensures r == q
  {}

  // ---------------------------------------------------------------- some runs

  /** Request `r` waits for its `create_or_get`, whose transaction has been opened. */
  function Waiting(s: State, r: nat, agency: string, key: string): State {
    s.(limiter := s.limiter.(inFlight := s.limiter.inFlight + 1),
       requests := s.requests[r := Request(agency, key, 0, InDb)],
       db := s.db.(txns := s.db.txns[Txn(r) := Intake.Txn(key, agency, Intake.Opened)]))
  }

  /** Request `r` holds a slot and has come as far as phase `ph`. */
  function Holding(s: State, r: nat, agency: string, key: string, ph: Phase): State {
    s.(limiter := s.limiter.(inFlight := s.limiter.inFlight + 1),
       requests := s.requests[r := Request(agency, key, 0, ph)])
  }

  function Submission(r: nat, agency: string, key: string): seq<Action> {
    [Arrive(r), Parse(r, agency, key, "", 0), CheckAgency(r, true), Store(r)]
  }

  lemma Submits(env: Env, s: State, r: nat, agency: string, key: string)
    requires !In(s, r) && Aimd.Admits(s.limiter) && key != ""
    ensures Run(env, s, Submission(r, agency, key)) == Holding(s, r, agency, key, Stored)
  {
    var a, b, c, d := Arrive(r), Parse(r, agency, key, "", 0), CheckAgency(r, true), Store(r);
    assert Step(env, s, a) == Holding(s, r, "", "", Reading);
    assert Step(env, Holding(s, r, "", "", Reading), b) == Holding(s, r, agency, key, Parsed);
    assert Step(env, Holding(s, r, agency, key, Parsed), c) == Holding(s, r, agency, key, Permitted);
    assert Step(env, Holding(s, r, agency, key, Permitted), d) == Holding(s, r, agency, key, Stored);
    RunFour(env, s, a, b, c, d);
  }

  lemma RunFour(env: Env, s: State, a: Action, b: Action, c: Action, d: Action)
    ensures Run(env, s, [a, b, c, d]) == Step(env, Step(env, Step(env, Step(env, s, a), b), c), d)
  {
    assert [a, b, c, d][..3] == [a, b, c] && [a, b, c][..2] == [a, b] && [a, b][..1] == [a] && [a][..0] == [];
    assert Run(env, s, [a]) == Step(env, s, a);
    assert Run(env, s, [a, b]) == Step(env, Run(env, s, [a]), b);
    assert Run(env, s, [a, b, c]) == Step(env, Run(env, s, [a, b]), c);
  }

  /** A submission up to its database transaction, at the end of a run. */
  lemma {:induction false} Registers(env: Env, s0: State, actions: seq<Action>, r: nat, agency: string, key: string)
    returns (longer: seq<Action>)
    requires env.pool && key != ""
    requires var s := Run(env, s0, actions); !In(s, r) && Aimd.Admits(s.limiter) && Txn(r) !in s.db.txns
    ensures Run(env, s0, longer) == Waiting(Run(env, s0, actions), r, agency, key)
  {
    var s := Run(env, s0, actions);
    Submits(env, s, r, agency, key);
    RunConcat(env, s0, actions, Submission(r, agency, key));
    RegisterWaits(env, s, r, agency, key);
    longer := Extend(env, s0, actions + Submission(r, agency, key), Register(r));
  }

  lemma RegisterWaits(env: Env, s: State, r: nat, agency: string, key: string)
    requires env.pool && Txn(r) !in s.db.txns
    ensures Step(env, Holding(s, r, agency, key, Stored), Register(r)) == Waiting(s, r, agency, key)
  {}

  /** Database statements as steps of the whole system. */
  function Statements(bs: seq<Intake.Action>): seq<Action> { seq(|bs|, i requires 0 <= i < |bs| => Db(bs[i])) }

  lemma {:induction false} StatementsRun(env: Env, s: State, bs: seq<Intake.Action>)
    requires forall i :: 0 <= i < |bs| ==> !bs[i].Begin?
    ensures Run(env, s, Statements(bs)) == s.(db := Intake.Run(env.hash, s.db, bs))
  {
    if bs != [] {
      var n := |bs| - 1;
      StatementsRun(env, s, bs[..n]);
      assert Statements(bs)[..n] == Statements(bs[..n]);
    }
  }

  /** A run's database goes on by itself. */
  lemma {:induction false} DbRuns(env: Env, s0: State, actions: seq<Action>, bs: seq<Intake.Action>)
    returns (longer: seq<Action>)
    requires forall i :: 0 <= i < |bs| ==> !bs[i].Begin?
    ensures var s := Run(env, s0, actions); Run(env, s0, longer) == s.(db := Intake.Run(env.hash, s.db, bs))
  {
    StatementsRun(env, Run(env, s0, actions), bs);
    RunConcat(env, s0, actions, Statements(bs));
    longer := actions + Statements(bs);
  }

  lemma {:induction false} Extend(env: Env, s0: State, actions: seq<Action>, a: Action) returns (longer: seq<Action>)
    ensures longer == actions + [a] && Run(env, s0, longer) == Step(env, Run(env, s0, actions), a)
  {
    RunSnoc(env, s0, actions, a);
    longer := actions + [a];
  }

  /** A fresh limiter has room for two. */
  lemma RoomForTwo(env: Env)
    requires env.cfg.Valid()
    ensures var l := Aimd.Initial(env.cfg); Aimd.Admits(l) && Aimd.Admits(l.(inFlight := 1))
  {
    var limit := (2 * env.cfg.minLimit) as real;
    assert limit.Floor == 2 * env.cfg.minLimit;
  }

  /** Two requests wait for their transactions. */
  lemma {:induction false} TwoWait(env: Env, a: string, j: string, b: string, k: string) returns (actions: seq<Action>)
    requires env.cfg.Valid() && env.pool && j != "" && k != ""
    ensures Run(env, Init(env), actions) == Waiting(Waiting(Init(env), 1, a, j), 2, b, k)
  {
    RoomForTwo(env);
    var s0 := Init(env);
    actions := Registers(env, s0, [], 1, a, j);
    actions := Registers(env, s0, actions, 2, b, k);
  }

  /** The request's own transaction committed `row`: it publishes it. */
  lemma ResumesCreated(env: Env, s: State, r: nat, row: Intake.Row)
    requires In(s, r) && s.requests[r].phase.InDb? && Txn(r) in s.db.txns
    requires s.db.txns[Txn(r)].phase == Intake.Created(row)
    ensures Step(env, s, Resume(r)) == Move(s, r, Publishing(Document(row.id), row.number))
  {}

  lemma ResumesRaised(env: Env, s: State, r: nat)
    requires In(s, r) && s.requests[r].phase.InDb? && Txn(r) in s.db.txns && s.db.txns[Txn(r)].phase.Raised?
    requires s.requests[r].key !in s.cache
    ensures Step(env, s, Resume(r)) ==
            Move(s.(cache := s.cache[s.requests[r].key := Local(r)]), r, Publishing(Local(r), 0))
  {}

  lemma SendsAppended(env: Env, s: State, r: nat)
    requires In(s, r) && s.requests[r].phase.Publishing?
    ensures Step(env, s, Send(r, Appended)) ==
            Move(s.(log := s.log + [RecordOf(env, s, r)]), r, Published(s.requests[r].phase.job))
  {}

  /** A run whose log has two records of one key: both requests miss the key, the first commits it and publishes its
      document, and the second falls back after its transaction raised. */
  lemma {:induction false} KeySentTwice(env: Env) returns (actions: seq<Action>)
    requires env.cfg.Valid() && env.pool
    ensures var log := Run(env, Init(env), actions).log;
            |log| == 2 && log[0].key == log[1].key && log[0].job == Document(10) && log[1].job == Local(2)
  {
    var s0 := Init(env);
    actions := TwoWait(env, "a", "k", "b", "k");
    var s := Run(env, s0, actions);
    var race := Intake.RaceRun(env.hash, s.db, 2, 4, 10);
    actions := DbRuns(env, s0, actions, race);
    var row := Intake.NextRow(s.db, 2, 10);
    var missed := Intake.Move(s.db, 4, Intake.Missed);
    var s1 := s.(db := Intake.Move(Intake.Grown(missed, 2, row), 4, Intake.Raised));
    ResumesCreated(env, s1, 1, row);
    actions := Extend(env, s0, actions, Resume(1));
    var s2 := Move(s1, 1, Publishing(Document(10), row.number));
    SendsAppended(env, s2, 1);
    actions := Extend(env, s0, actions, Send(1, Appended));
    var s3 := Run(env, s0, actions);
    ResumesRaised(env, s3, 2);
    actions := Extend(env, s0, actions, Resume(2));
    SendsAppended(env, Run(env, s0, actions), 2);
    actions := Extend(env, s0, actions, Send(2, Appended));
  }

  /** An answer does not promise publication, with the database up: the first request commits its row and its `send`
      fails, and the retry is answered as a duplicate of a document that was never sent. */
  lemma {:induction false} DuplicateOfNothing(env: Env) returns (actions: seq<Action>)
    requires env.cfg.Valid() && env.pool
    ensures var s := Run(env, Init(env), actions);
            && s.log == [] && In(s, 1) && s.requests[1].phase == Leaving(Failed)
            && In(s, 2) && s.requests[2].phase == Leaving(Duplicate(Document(10)))
  {
    actions := FirstFails(env);
    actions := FindsDuplicate(env, Init(env), actions, Intake.Row(10, "k", "a", 1));
  }

  lemma {:induction false} FirstFails(env: Env) returns (actions: seq<Action>)
    requires env.cfg.Valid() && env.pool
    ensures var s := Run(env, Init(env), actions);
            && s.requests == map[1 := Request("a", "k", 0, Leaving(Failed))] && s.log == [] && Aimd.Admits(s.limiter)
            && s.db.rows == [Intake.Row(10, "k", "a", 1)] && 4 !in s.db.txns
  {
    var s0 := Init(env);
    RoomForTwo(env);
    actions := Registers(env, s0, [], 1, "a", "k");
    var s := Run(env, s0, actions);
    var row := Intake.NextRow(s.db, 2, 10);
    Intake.LoneCallCreates(env.hash, s.db, 2, 10);
    actions := DbRuns(env, s0, actions, Intake.Create(2, 10));
    var s1 := s.(db := Intake.Grown(s.db, 2, row));
    actions := FailsToSend(env, s0, actions, s1, row);
  }

  lemma {:induction false} FailsToSend(env: Env, s0: State, before: seq<Action>, s: State, row: Intake.Row)
    returns (actions: seq<Action>)
    requires Run(env, s0, before) == s && In(s, 1) && s.requests[1].phase.InDb?
    requires Txn(1) in s.db.txns && s.db.txns[Txn(1)].phase == Intake.Created(row)
    ensures Run(env, s0, actions) == Move(s, 1, Leaving(Failed))
  {
    ResumesCreated(env, s, 1, row);
    actions := Extend(env, s0, before, Resume(1));
    actions := Extend(env, s0, actions, Send(1, Dropped));
  }

  lemma {:induction false} FindsDuplicate(env: Env, s0: State, before: seq<Action>, row: Intake.Row)
    returns (actions: seq<Action>)
    requires env.pool && row.key == "k"
    requires var s := Run(env, s0, before); !In(s, 2) && Aimd.Admits(s.limiter) && 4 !in s.db.txns && s.db.rows == [row]
    ensures var s, s' := Run(env, s0, before), Run(env, s0, actions);
            && s'.log == s.log && In(s', 2) && s'.requests[2].phase == Leaving(Duplicate(Document(row.id)))
            && forall r :: r != 2 && r in s.requests ==> r in s'.requests && s'.requests[r] == s.requests[r]
  {
    actions := Registers(env, s0, before, 2, "a", "k");
    var s := Run(env, s0, actions);
    var check := [Intake.CheckKey(4)];
    assert check[..0] == [];
    actions := DbRuns(env, s0, actions, check);
    assert Intake.Run(env.hash, s.db, check) == Intake.Step(env.hash, s.db, Intake.CheckKey(4));
    actions := Extend(env, s0, actions, Resume(2));
  }

  /** A run whose log has two documents of one agency against their sequence: the second one's request overtakes the
      first one's between commit and `send`. */
  lemma {:induction false} SentOutOfOrder(env: Env) returns (actions: seq<Action>)
    requires env.cfg.Valid() && env.pool
    ensures var log := Run(env, Init(env), actions).log;
            |log| == 2 && DocumentOf(log[0], "a") && DocumentOf(log[1], "a") && log[0].number > log[1].number
  {
    actions := TwoWait(env, "a", "k", "a", "l");
    var s := Run(env, Init(env), actions);
    var creates, row, next := Intake.TwoCallsCreate(env.hash, s.db, 2, 4, 10);
    actions := DbRuns(env, Init(env), actions, creates);
    actions := BothPublish(env, Init(env), actions, Run(env, Init(env), actions), row, next);
  }

  lemma {:induction false} BothPublish(env: Env, s0: State, before: seq<Action>, s: State, row: Intake.Row,
                                       next: Intake.Row)
    returns (actions: seq<Action>)
    requires Run(env, s0, before) == s && s.log == []
    requires In(s, 1) && s.requests[1] == Request("a", "k", 0, InDb) && In(s, 2)
    requires s.requests[2] == Request("a", "l", 0, InDb)
    requires 2 in s.db.txns && s.db.txns[2].phase == Intake.Created(row)
    requires 4 in s.db.txns && s.db.txns[4].phase == Intake.Created(next)
    ensures var log := Run(env, s0, actions).log;
            && |log| == 2 && DocumentOf(log[0], "a") && DocumentOf(log[1], "a")
            && log[0].number == next.number && log[1].number == row.number
  {
    ResumesCreated(env, s, 1, row);
    actions := Extend(env, s0, before, Resume(1));
    var s1 := Run(env, s0, actions);
    ResumesCreated(env, s1, 2, next);
    actions := Extend(env, s0, actions, Resume(2));
    SendsAppended(env, Run(env, s0, actions), 2);
    actions := Extend(env, s0, actions, Send(2, Appended));
    SendsAppended(env, Run(env, s0, actions), 1);
    actions := Extend(env, s0, actions, Send(1, Appended));
  }
}
