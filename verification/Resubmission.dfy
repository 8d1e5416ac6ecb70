/** Which key a request has, and what a resubmission of a known key is answered. */
module Resubmission {

  import opened Wrappers
  import Intake
  import opened Ingest
  import opened Publication

  // ---------------------------------------------------------------- the key of a request

  /** Some step of the run was `p`, the parsing of request `r`, when that was due. */
  ghost predicate HasParsed(env: Env, actions: seq<Action>, r: nat, p: Action) {
    actions != []
    && (var before := actions[..|actions| - 1];
        (actions[|actions| - 1] == p && Parses(Run(env, Init(env), before), p, r)) || HasParsed(env, before, r, p))
  }

  ghost predicate Parses(s: State, p: Action, r: nat) {
    p.Parse? && p.r == r && In(s, r) && s.requests[r].phase.Reading?
  }

  /** Request `q` is about what `p` parsed: its agency, its size, and under its client's key, whatever its content's
      hash is; or under that hash, if the client gave none. */
  ghost predicate IsAbout(q: Request, p: Action)
    requires p.Parse?
  {
    && !q.phase.Reading? && q.agency == p.agency && q.size == p.size
    && (p.client != "" ==> q.key == p.client) && (p.client == "" ==> q.key == p.sha)
  }

  /** Past the parsing only the phase of a request changes. */
  lemma OnlyPhaseMoves(env: Env, s: State, a: Action, r: nat)
    requires In(s, r) && !s.requests[r].phase.Reading?
    ensures var s' := Step(env, s, a);
            && In(s', r) && !s'.requests[r].phase.Reading?
            && s'.requests[r] == s.requests[r].(phase := s'.requests[r].phase)
  {
    if !Of(a, r) { StepSpares(env, s, a, r); }
  }

  lemma ParseIsAbout(env: Env, s: State, p: Action, r: nat)
    requires Parses(s, p, r)
    ensures In(Step(env, s, p), r) && IsAbout(Step(env, s, p).requests[r], p)
  {}

  lemma {:induction false} ParsedStays(env: Env, actions: seq<Action>, r: nat, p: Action)
    requires HasParsed(env, actions, r, p)
    ensures var s := Run(env, Init(env), actions); p.Parse? && In(s, r) && IsAbout(s.requests[r], p)
  {
    var before, a := actions[..|actions| - 1], actions[|actions| - 1];
    var s := Run(env, Init(env), before);
    if a == p && Parses(s, p, r) {
      ParseIsAbout(env, s, p, r);
    } else {
      ParsedStays(env, before, r, p);
      OnlyPhaseMoves(env, s, a, r);
    }
  }

  /** In every run, a request that was parsed has its client's key, or its content's hash if there is none; its
      transaction has that key, and so have the records it sends, to its agency's partition. */
  lemma {:induction false} KeyIsTheClients(env: Env, actions: seq<Action>, r: nat, p: Action)
    requires HasParsed(env, actions, r, p)
    ensures var s := Run(env, Init(env), actions);
            && p.Parse? && In(s, r) && IsAbout(s.requests[r], p)
            && (Txn(r) in s.db.txns ==>
                  s.db.txns[Txn(r)].key == s.requests[r].key && s.db.txns[Txn(r)].agency == p.agency)
            && (forall e :: e in s.log && e.sender == r ==>
                  e.key == s.requests[r].key && e.agency == p.agency && e.partition == env.partition(p.agency))
  {
    var s := Run(env, Init(env), actions);
    ParsedStays(env, actions, r, p);
    RunKeepsInv(env, actions);
    forall e | e in s.log && e.sender == r
      ensures e.key == s.requests[r].key && e.agency == p.agency && e.partition == env.partition(p.agency)
    {
      assert Genuine(env, s, e);
    }
  }

  /** Both came with one client key, whatever their contents' hashes are; or with none, and one hash. */
  ghost predicate SameSubmission(p: Action, o: Action) {
    p.Parse? && o.Parse? && p.client == o.client && (p.client == "" ==> p.sha == o.sha)
  }

  /** Two requests with one client key carry the same job id, however different their contents: always without a
      database, and with one exactly when both requests' transactions raised or neither did. */
  lemma {:induction false} SameClientKeySameJob(env: Env, actions: seq<Action>, r: nat, p: Action, q: nat, o: Action)
    requires HasParsed(env, actions, r, p) && HasParsed(env, actions, q, o) && SameSubmission(p, o)
    requires var s := Run(env, Init(env), actions);
             && In(s, r) && In(s, q)
             && JobOf(s.requests[r].phase).Some? && JobOf(s.requests[q].phase).Some?
    ensures var s := Run(env, Init(env), actions);
            JobOf(s.requests[r].phase) == JobOf(s.requests[q].phase)
            <==> !env.pool || (FellBack(s, r) <==> FellBack(s, q))
  {
    ParsedStays(env, actions, r, p);
    ParsedStays(env, actions, q, o);
    if env.pool { AnswersAgreeIff(env, actions, r, q); } else { FallbackAnswersAgree(env, actions, r, q); }
  }

  // ---------------------------------------------------------------- a key that is committed

  /** Request `r` has the key of a committed row, and its `create_or_get` has not looked yet. */
  ghost predicate Resubmits(s: State, r: nat, row: Intake.Row) {
    && In(s, r) && s.requests[r].key == row.key && row in s.db.rows
    && (s.requests[r].phase.Stored?
        || (s.requests[r].phase.InDb? && Txn(r) in s.db.txns && s.db.txns[Txn(r)].phase.Opened?))
  }

  /** From then on: it waits, it has found that row, or it is answered with its document. */
  ghost predicate Finds(s: State, r: nat, row: Intake.Row) {
    && In(s, r) && s.requests[r].key == row.key && row in s.db.rows
    && var ph := s.requests[r].phase;
       || ph.Stored?
       || (ph.InDb? && Txn(r) in s.db.txns
           && (s.db.txns[Txn(r)].phase.Opened? || s.db.txns[Txn(r)].phase == Intake.Found(row)))
       || ph == Leaving(Duplicate(Document(row.id))) || ph == Gone(Duplicate(Document(row.id)))
  }

  /** A step that is no exception of request `r`: none in the endpoint, none in its transaction, and it resumes only
      with an outcome. */
  ghost predicate Spares(s: State, a: Action, r: nat) {
    a != Raise(r) && a != Db(Intake.Abort(Txn(r))) && (a == Resume(r) ==> Ended(s, r))
  }

  ghost predicate Unhurt(env: Env, s: State, actions: seq<Action>, r: nat) {
    actions == []
    || (var before := actions[..|actions| - 1];
        Spares(Run(env, s, before), actions[|actions| - 1], r) && Unhurt(env, s, before, r))
  }

  lemma RowsStay(env: Env, s: State, a: Action, row: Intake.Row)
    requires row in s.db.rows
    ensures row in Step(env, s, a).db.rows
  {
    if a.Db? {
      DbStep(env, s.db, a.a);
    } else if a.Register? {
      if In(s, a.r) { DbStep(env, s.db, Intake.Begin(Txn(a.r), s.requests[a.r].key, s.requests[a.r].agency)); }
    } else {
      OthersSpareDb(env, s, a);
    }
  }

  /** The transaction of a waiting request moves only by its key check, and then to the committed row. */
  lemma TxnFinds(env: Env, d: Intake.State, b: Intake.Action, t: nat, row: Intake.Row)
    requires Intake.Inv(env.hash, d) && t in d.txns && d.txns[t].key == row.key && row in d.rows
    requires d.txns[t].phase.Opened? || d.txns[t].phase == Intake.Found(row)
    requires b != Intake.Abort(t)
    ensures var d' := Intake.Step(env.hash, d, b);
            t in d'.txns && (d'.txns[t].phase.Opened? || d'.txns[t].phase == Intake.Found(row))
  {
    if b.t != t {
      Intake.StepSpares(env.hash, d, b, t);
    } else if b.CheckKey? && d.txns[t].phase.Opened? {
      Intake.CheckFindsCommitted(env.hash, d, t);
    }
  }

  lemma OwnStepFinds(env: Env, s: State, a: Action, row: Intake.Row)
    requires Inv(env, s) && env.pool && !a.Db? && Finds(s, a.r, row) && Spares(s, a, a.r)
    ensures Finds(Step(env, s, a), a.r, row)
  {
    RowsStay(env, s, a, row);
    if a.Register? && s.requests[a.r].phase.Stored? { assert Txn(a.r) !in s.db.txns; }
  }

  lemma OtherStepFinds(env: Env, s: State, a: Action, r: nat, row: Intake.Row)
    requires Inv(env, s) && env.pool && !Of(a, r) && Finds(s, r, row) && Spares(s, a, r)
    ensures Finds(Step(env, s, a), r, row)
  {
    RowsStay(env, s, a, row);
    StepSpares(env, s, a, r);
    if s.requests[r].phase.InDb? {
      if a.Db? {
        TxnFinds(env, s.db, a.a, Txn(r), row);
      } else if a.Register? {
        if In(s, a.r) {
          var begin := Intake.Begin(Txn(a.r), s.requests[a.r].key, s.requests[a.r].agency);
          Intake.StepSpares(env.hash, s.db, begin, Txn(r));
        }
      } else {
        OthersSpareDb(env, s, a);
      }
    }
  }

  /** A resubmission is a duplicate: in every continuation of every run, a request with the key of a committed row that
      meets no exception never publishes, and if it is answered, then with that row's document. */
  lemma {:induction false} ResubmissionIsDuplicate(env: Env, before: seq<Action>, actions: seq<Action>, r: nat,
                                                   row: Intake.Row)
    requires env.pool && Resubmits(Run(env, Init(env), before), r, row)
    requires Unhurt(env, Run(env, Init(env), before), actions, r)
    ensures Finds(Run(env, Run(env, Init(env), before), actions), r, row)
  {
    if actions != [] {
      var n := |actions| - 1;
      var s := Run(env, Init(env), before);
      ResubmissionIsDuplicate(env, before, actions[..n], r, row);
      RunKeepsInv(env, before);
      RunKeepsInvFrom(env, s, actions[..n]);
      if Of(actions[n], r) {
        OwnStepFinds(env, Run(env, s, actions[..n]), actions[n], row);
      } else {
        OtherStepFinds(env, Run(env, s, actions[..n]), actions[n], r, row);
      }
    }
  }

  /** ... and it can be: its check, its answer and its `finally` block are all it takes. */
  lemma {:induction false} ResubmissionIsAnswered(env: Env, before: seq<Action>, r: nat, row: Intake.Row, rtt: real)
    requires env.pool && Resubmits(Run(env, Init(env), before), r, row)
    ensures var s := Run(env, Init(env), before);
            var s' := Run(env, s, [Register(r), Db(Intake.CheckKey(Txn(r))), Resume(r), Release(r, rtt)]);
            In(s', r) && s'.requests[r].phase == Gone(Duplicate(Document(row.id)))
  {
    var s := Run(env, Init(env), before);
    RunKeepsInv(env, before);
    RunFour(env, s, Register(r), Db(Intake.CheckKey(Txn(r))), Resume(r), Release(r, rtt));
    var s1 := Step(env, s, Register(r));
    RegistersToCheck(env, s, r, row);
    StepKeepsInv(env, s, Register(r));
    Intake.CheckFindsCommitted(env.hash, s1.db, Txn(r));
    FoundIsAnswered(env, Step(env, s1, Db(Intake.CheckKey(Txn(r)))), r, row, rtt);
  }

  lemma RegistersToCheck(env: Env, s: State, r: nat, row: Intake.Row)
    requires Inv(env, s) && env.pool && Resubmits(s, r, row)
    ensures var s' := Step(env, s, Register(r));
            && In(s', r) && s'.requests[r].phase.InDb? && row in s'.db.rows
            && Txn(r) in s'.db.txns && s'.db.txns[Txn(r)].phase.Opened? && s'.db.txns[Txn(r)].key == row.key
  {
    if s.requests[r].phase.Stored? { assert Txn(r) !in s.db.txns; }
  }

  lemma FoundIsAnswered(env: Env, s: State, r: nat, row: Intake.Row, rtt: real)
    requires In(s, r) && s.requests[r].phase.InDb?
    requires Txn(r) in s.db.txns && s.db.txns[Txn(r)].phase == Intake.Found(row)
    ensures var s' := Step(env, Step(env, s, Resume(r)), Release(r, rtt));
            In(s', r) && s'.requests[r].phase == Gone(Duplicate(Document(row.id)))
  {
    assert Step(env, s, Resume(r)).requests[r].phase == Leaving(Duplicate(Document(row.id)));
  }

  // ---------------------------------------------------------------- a key that is cached

  /** Without a database: request `r` has a key that the process has handed `job` out for, and waits or is answered
      with it. */
  ghost predicate Recalls(s: State, r: nat, job: Job) {
    && In(s, r) && s.requests[r].key in s.cache && s.cache[s.requests[r].key] == job
    && var ph := s.requests[r].phase;
       ph.Stored? || ph == Leaving(Duplicate(job)) || ph == Gone(Duplicate(job))
  }

  lemma CacheStays(env: Env, s: State, a: Action, key: string)
    requires key in s.cache
    ensures key in Step(env, s, a).cache && Step(env, s, a).cache[key] == s.cache[key]
  {}

  lemma StepRecalls(env: Env, s: State, a: Action, r: nat, job: Job)
    requires !env.pool && Recalls(s, r, job) && a != Raise(r)
    ensures Recalls(Step(env, s, a), r, job)
  {
    CacheStays(env, s, a, s.requests[r].key);
    OnlyPhaseMoves(env, s, a, r);
    if !Of(a, r) { StepSpares(env, s, a, r); }
  }

  /** Without a database a resubmission that meets no exception never publishes, and is answered with the job id of
      whoever had the key before it. */
  lemma {:induction false} CachedKeyIsDuplicate(env: Env, before: seq<Action>, actions: seq<Action>, q: nat, r: nat)
    requires !env.pool && Raise(r) !in actions
    requires var s := Run(env, Init(env), before);
             && In(s, q) && In(s, r) && JobOf(s.requests[q].phase).Some? && s.requests[r].phase.Stored?
             && s.requests[r].key == s.requests[q].key
    ensures var s := Run(env, Init(env), before);
            Recalls(Run(env, s, actions), r, JobOf(s.requests[q].phase).value)
  {
    var s := Run(env, Init(env), before);
    if actions == [] {
      RunKeepsIdem(env, before);
      WithoutDatabase(env, before);
      assert Behind(s, JobOf(s.requests[q].phase).value, s.requests[q].key);
    } else {
      var n := |actions| - 1;
      assert actions[n] in actions;
      CachedKeyIsDuplicate(env, before, actions[..n], q, r);
      StepRecalls(env, Run(env, s, actions[..n]), actions[n], r, JobOf(s.requests[q].phase).value);
    }
  }
}
