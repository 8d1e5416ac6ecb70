/** The ingestion endpoint: `ingest_audit_report` as a state machine over any number of concurrent requests of one
    process, with the concurrency limiter, the database transactions of `create_or_get`, the process's own
    idempotency cache and the broker's log. A stretch of code between two awaits is one atomic step. A step that is not
    enabled leaves the state as it is. */
module Ingest {

  import opened Wrappers
  import Intake
  import Aimd
  import Storage

  /** `hash` is the database's lock hash, `partition` the broker's; `pool` says whether the process has a database. */
  datatype Env = Env(cfg: Aimd.Config, hash: string -> int, partition: string -> nat, pool: bool)

  /** A job id: a document's id, or the random one of a request that fell back to the process's own cache. */
  datatype Job = Document(id: nat) | Local(request: nat)

  datatype Response = Saturated | Throttled | TooLarge | Duplicate(job: Job) | Accepted(job: Job) | Failed

  /** Where a request stands: reading its body, in front of the token bucket, past it, with its bytes stored, waiting
      for `create_or_get`, in front of `send`, past it, in the `finally` block, and answered. */
  datatype Phase =
    | Reading
    | Parsed
    | Permitted
    | Stored
    | InDb
    | Publishing(job: Job, number: nat)
    | Published(job: Job)
    | Leaving(response: Response)
    | Gone(response: Response)

  datatype Request = Request(agency: string, key: string, size: nat, phase: Phase)

  /** A record of the broker's log; `sender` is the request whose `send` appended it. */
  datatype Record = Record(partition: nat, job: Job, agency: string, key: string, number: nat, sender: nat)

  datatype State = State(
    limiter: Aimd.Limiter,
    requests: map<nat, Request>,
    db: Intake.State,
    cache: map<string, Job>,
    log: seq<Record>)

  /** What becomes of `send`: an append, an append whose metadata then raises, an exception, or the offline mode. */
  datatype Sending = Appended | AppendedThenRaised | Dropped | Mocked

  datatype Action =
    | Arrive(r: nat)
    | Parse(r: nat, agency: string, client: string, sha: string, size: nat)
    | CheckAgency(r: nat, allowed: bool)
    | Store(r: nat)
    | Register(r: nat)
    | Resume(r: nat)
    | Send(r: nat, sending: Sending)
    | Finish(r: nat)
    | Raise(r: nat)
    | Release(r: nat, rtt: real)
    | Db(a: Intake.Action)

  function Init(env: Env): State { State(Aimd.Initial(env.cfg), map[], Intake.EMPTY, map[], []) }

  /** `client_idemp_key or sha256_hash`. */
  function EffectiveKey(client: string, sha: string): string { if client == "" then sha else client }

  /** The transaction of a request's `create_or_get`; those of other processes have odd numbers. */
  function Txn(r: nat): nat { 2 * r }

  predicate In(s: State, r: nat) { r in s.requests }

  function Move(s: State, r: nat, ph: Phase): State
    requires In(s, r)
  {
    s.(requests := s.requests[r := s.requests[r].(phase := ph)])
  }

  /** Without the database: the process's own cache decides, and a new key gets the request's random id. */
  function Fallback(s: State, r: nat): State
    requires In(s, r)
  {
    var key := s.requests[r].key;
    if key in s.cache then Move(s, r, Leaving(Duplicate(s.cache[key])))
    else Move(s.(cache := s.cache[key := Local(r)]), r, Publishing(Local(r), 0))
  }

  /** The await of `create_or_get` is over: with its outcome, or by a cancellation when it had none yet. */
  function Outcome(s: State, r: nat): State
    requires In(s, r)
  {
    if Txn(r) !in s.db.txns then Move(s, r, Leaving(Failed))
    else
      match s.db.txns[Txn(r)].phase
      case Created(row) => Move(s, r, Publishing(Document(row.id), row.number))
      case Found(row) => Move(s, r, Leaving(Duplicate(Document(row.id))))
      case Raised => Fallback(s, r)
      case _ => Move(s, r, Leaving(Failed))
  }

  /** What a request's `send` leaves in the log. */
  function RecordOf(env: Env, s: State, r: nat): Record
    requires In(s, r) && s.requests[r].phase.Publishing?
  {
    var x := s.requests[r];
    Record(env.partition(x.agency), x.phase.job, x.agency, x.key, x.phase.number, r)
  }

  function Append(env: Env, s: State, r: nat, job: Job, number: nat): State
    requires In(s, r)
  {
    var x := s.requests[r];
    s.(log := s.log + [Record(env.partition(x.agency), job, x.agency, x.key, number, r)])
  }

  function Sent(env: Env, s: State, r: nat, job: Job, number: nat, sending: Sending): State
    requires In(s, r)
  {
    match sending
    case Appended => Move(Append(env, s, r, job, number), r, Published(job))
    case AppendedThenRaised => Move(Append(env, s, r, job, number), r, Leaving(Failed))
    case Dropped => Move(s, r, Leaving(Failed))
    case Mocked => Move(s, r, Published(job))
  }

  /** Past the token bucket and the size check, or on the way out. */
  function Verdict(allowed: bool, size: nat): Phase {
    if !allowed then Leaving(Throttled)
    else if size > Storage.MAX_PAYLOAD_BYTES then Leaving(TooLarge)
    else Permitted
  }

  /** One step of a request that is under way. */
  function Own(env: Env, s: State, a: Action): State
    requires !a.Db? && !a.Arrive? && In(s, a.r)
  {
    var x := s.requests[a.r];
    match a
    case Parse(r, agency, client, sha, size) =>
      if !x.phase.Reading? then s
      else s.(requests := s.requests[r := Request(agency, EffectiveKey(client, sha), size, Parsed)])
    case CheckAgency(r, allowed) =>
      if !x.phase.Parsed? then s
      else Move(s, r, Verdict(allowed, x.size))
    case Store(r) => if x.phase.Permitted? then Move(s, r, Stored) else s
    case Register(r) =>
      if !x.phase.Stored? then s
      else if env.pool then Move(s.(db := Intake.Step(env.hash, s.db, Intake.Begin(Txn(r), x.key, x.agency))), r, InDb)
      else Fallback(s, r)
    case Resume(r) => if x.phase.InDb? then Outcome(s, r) else s
    case Send(r, sending) => if x.phase.Publishing? then Sent(env, s, r, x.phase.job, x.phase.number, sending) else s
    case Finish(r) =>
      // a fallback id is not a UUID, so the update after publishing raises when there is a database
      if !x.phase.Published? then s
      else Move(s, r, Leaving(if env.pool && x.phase.job.Local? then Failed else Accepted(x.phase.job)))
    case Raise(r) => if x.phase.Gone? || x.phase.Leaving? then s else Move(s, r, Leaving(Failed))
    case Release(r, rtt) =>
      if !x.phase.Leaving? then s
      else Move(s.(limiter := Aimd.Released(env.cfg, s.limiter, rtt)), r, Gone(x.phase.response))
  }

  function Step(env: Env, s: State, a: Action): State {
    match a
    case Arrive(r) =>
      if In(s, r) then s
      else
        s.(limiter := Aimd.Acquired(s.limiter),
           requests := s.requests[r := Request("", "", 0, if Aimd.Admits(s.limiter) then Reading else Gone(Saturated))])
    case Db(b) => if b.Begin? && b.t % 2 == 0 then s else s.(db := Intake.Step(env.hash, s.db, b))
    case _ => if In(s, a.r) then Own(env, s, a) else s
  }

  function Run(env: Env, s: State, actions: seq<Action>): State {
    if actions == [] then s else Step(env, Run(env, s, actions[..|actions| - 1]), actions[|actions| - 1])
  }

  lemma {:induction false} RunSnoc(env: Env, s: State, xs: seq<Action>, a: Action)
    ensures Run(env, s, xs + [a]) == Step(env, Run(env, s, xs), a)
  {
    assert (xs + [a])[..|xs|] == xs;
  }

  lemma {:induction false} RunConcat(env: Env, s: State, xs: seq<Action>, ys: seq<Action>)
    ensures Run(env, s, xs + ys) == Run(env, Run(env, s, xs), ys)
  {
    if ys == [] {
      assert xs + ys == xs;
    } else {
      var init, last := ys[..|ys| - 1], ys[|ys| - 1];
      assert xs + ys == (xs + init) + [last] && ys == init + [last];
      RunSnoc(env, s, xs + init, last);
      RunSnoc(env, Run(env, s, xs), init, last);
      RunConcat(env, s, xs, init);
    }
  }

  // ---------------------------------------------------------------- slots

  /** The requests that were admitted and have not run their `finally` block. */
  function Holders(requests: map<nat, Request>): set<nat> { set r | r in requests && !requests[r].phase.Gone? }

  ghost predicate Slots(env: Env, s: State) {
    && s.limiter.inFlight == |Holders(s.requests)| <= env.cfg.maxLimit
    && env.cfg.minLimit as real <= s.limiter.limit <= env.cfg.maxLimit as real
  }

  /** Every step but an arrival and a release leaves limiter and slots alone. */
  lemma QuietStep(env: Env, s: State, a: Action)
    requires !a.Arrive? && !a.Release?
    ensures var s' := Step(env, s, a);
            s'.limiter == s.limiter && Holders(s'.requests) == Holders(s.requests)
  {
    if !a.Db? && In(s, a.r) {
      OwnStaysHeld(env, s, a);
      HoldersStay(s.requests, Step(env, s, a).requests, a.r);
    }
  }

  lemma OwnStaysHeld(env: Env, s: State, a: Action)
    requires !a.Db? && !a.Arrive? && !a.Release? && In(s, a.r)
    ensures var s' := Step(env, s, a);
            && s'.limiter == s.limiter && In(s', a.r) && s'.requests == s.requests[a.r := s'.requests[a.r]]
            && (s'.requests[a.r].phase.Gone? <==> s.requests[a.r].phase.Gone?)
  {}

  lemma HoldersStay(before: map<nat, Request>, after: map<nat, Request>, r: nat)
    requires r in before && r in after && after == before[r := after[r]]
    requires (after[r].phase.Gone? <==> before[r].phase.Gone?)
    ensures Holders(after) == Holders(before)
  {
    assert forall q :: q in Holders(after) <==> q in Holders(before);
  }

  lemma ArriveStep(env: Env, s: State, r: nat)
    requires !In(s, r)
    ensures var s' := Step(env, s, Arrive(r));
            && s'.limiter == Aimd.Acquired(s.limiter)
            && Holders(s'.requests) == Holders(s.requests) + (if Aimd.Admits(s.limiter) then {r} else {})
            && r !in Holders(s.requests)
  {
    var s' := Step(env, s, Arrive(r));
    assert forall q :: q in Holders(s'.requests) <==> q in Holders(s.requests) || (q == r && Aimd.Admits(s.limiter));
  }

  lemma ReleaseStep(env: Env, s: State, r: nat, rtt: real)
    requires In(s, r) && s.requests[r].phase.Leaving?
    ensures var s' := Step(env, s, Release(r, rtt));
            && s'.limiter == Aimd.Released(env.cfg, s.limiter, rtt)
            && r in Holders(s.requests) && Holders(s'.requests) == Holders(s.requests) - {r}
  {
    var s' := Step(env, s, Release(r, rtt));
    assert s'.requests == s.requests[r := s.requests[r].(phase := Gone(s.requests[r].phase.response))];
    assert forall q :: q in Holders(s'.requests) <==> q in Holders(s.requests) && q != r;
  }

  lemma LimitStays(cfg: Aimd.Config, l: Aimd.Limiter, rtt: real)
    requires cfg.Valid() && cfg.minLimit as real <= l.limit <= cfg.maxLimit as real
    ensures cfg.minLimit as real <= Aimd.Released(cfg, l, rtt).limit <= cfg.maxLimit as real
  {
    Aimd.StepKeepsLimits(cfg, l.(inFlight := 0), Aimd.Release(rtt));
  }

  lemma StepKeepsSlots(env: Env, s: State, a: Action)
    requires env.cfg.Valid() && Slots(env, s)
    ensures Slots(env, Step(env, s, a))
  {
    if a.Arrive? && !In(s, a.r) {
      ArriveStep(env, s, a.r);
    } else if a.Release? && In(s, a.r) && s.requests[a.r].phase.Leaving? {
      ReleaseStep(env, s, a.r, a.rtt);
      LimitStays(env.cfg, s.limiter, a.rtt);
    } else if !a.Arrive? && !a.Release? {
      QuietStep(env, s, a);
    }
  }

  /** Slot conservation: after any run, through every kind of exit, `in_flight` is the number of requests admitted and
      not finished, and never exceeds the maximum. */
  lemma {:induction false} SlotsAreConserved(env: Env, actions: seq<Action>)
    requires env.cfg.Valid()
    ensures Slots(env, Run(env, Init(env), actions))
  {
    if actions == [] {
      Aimd.LimitsHold(env.cfg, []);
      assert Holders(map[]) == {};
    } else {
      var before := actions[..|actions| - 1];
      SlotsAreConserved(env, before);
      StepKeepsSlots(env, Run(env, Init(env), before), actions[|actions| - 1]);
    }
  }

  /** The calls of the limiter that a run makes: one `acquire` for each request that arrives, and one `release` with its
      own latency for each that leaves. */
  function LimiterCalls(env: Env, actions: seq<Action>): seq<Aimd.Call> {
    if actions == [] then []
    else
      var before, a := actions[..|actions| - 1], actions[|actions| - 1];
      var s := Run(env, Init(env), before);
      LimiterCalls(env, before)
      + (if a.Arrive? && a.r !in s.requests then [Aimd.Acquire]
         else if a.Release? && a.r in s.requests && s.requests[a.r].phase.Leaving? then [Aimd.Release(a.rtt)]
         else [])
  }

  lemma LimiterStep(env: Env, s: State, a: Action)
    ensures Step(env, s, a).limiter ==
            if a.Arrive? && a.r !in s.requests then Aimd.Step(env.cfg, s.limiter, Aimd.Acquire)
            else if a.Release? && a.r in s.requests && s.requests[a.r].phase.Leaving?
                 then Aimd.Step(env.cfg, s.limiter, Aimd.Release(a.rtt))
            else s.limiter
  {
    if !a.Arrive? && !a.Release? { QuietStep(env, s, a); }
  }

  /** In every run the endpoint's limiter is the limiter of `Aimd` after exactly those calls: whatever is proved of its
      limit and its latency holds of the latencies of the requests that left. */
  lemma {:induction false} LimiterIsFed(env: Env, actions: seq<Action>)
    ensures Run(env, Init(env), actions).limiter ==
            Aimd.Run(env.cfg, Aimd.Initial(env.cfg), LimiterCalls(env, actions))
  {
    if actions != [] {
      var before, a := actions[..|actions| - 1], actions[|actions| - 1];
      LimiterIsFed(env, before);
      LimiterStep(env, Run(env, Init(env), before), a);
      var calls, all := LimiterCalls(env, before), LimiterCalls(env, actions);
      if all != calls { assert all[..|calls|] == calls; }
    }
  }

  /** The `max(0, ...)` of `release` never takes effect, and exactly one slot comes back. */
  lemma {:induction false} ReleaseFreesOne(env: Env, actions: seq<Action>, r: nat, rtt: real)
    requires env.cfg.Valid()
    requires var s := Run(env, Init(env), actions); In(s, r) && s.requests[r].phase.Leaving?
    ensures var s := Run(env, Init(env), actions);
            Step(env, s, Release(r, rtt)).limiter.inFlight == s.limiter.inFlight - 1 >= 0
  {
    var s := Run(env, Init(env), actions);
    SlotsAreConserved(env, actions);
    ReleaseStep(env, s, r, rtt);
  }

  /** A new request is admitted exactly while fewer requests than the limit's floor hold a slot. */
  lemma {:induction false} AdmittedIff(env: Env, actions: seq<Action>, r: nat)
    requires env.cfg.Valid() && !In(Run(env, Init(env), actions), r)
    ensures var s := Run(env, Init(env), actions);
            Step(env, s, Arrive(r)).requests[r].phase.Reading? <==> |Holders(s.requests)| < s.limiter.limit.Floor
  {
    SlotsAreConserved(env, actions);
  }

  /** After a cut of the limit nothing is admitted until enough requests have left: as long as the holders reach
      the current limit at every moment of a stretch, the stretch adds no holder. */
  lemma {:induction false} SaturatedAdmitsNobody(env: Env, s: State, actions: seq<Action>)
    requires env.cfg.Valid() && Slots(env, s)
    requires forall i :: 0 <= i < |actions| ==>
               var m := Run(env, s, actions[..i]); |Holders(m.requests)| >= m.limiter.limit.Floor
    ensures Slots(env, Run(env, s, actions)) && Holders(Run(env, s, actions).requests) <= Holders(s.requests)
  {
    if actions != [] {
      var n := |actions| - 1;
      var before, a := actions[..n], actions[n];
      assert forall i :: 0 <= i < n ==> before[..i] == actions[..i];
      SaturatedAdmitsNobody(env, s, before);
      var m := Run(env, s, before);
      StepKeepsSlots(env, m, a);
      if a.Arrive? && !In(m, a.r) {
        ArriveStep(env, m, a.r);
      } else if a.Release? && In(m, a.r) && m.requests[a.r].phase.Leaving? {
        ReleaseStep(env, m, a.r, a.rtt);
      } else if !a.Arrive? && !a.Release? {
        QuietStep(env, m, a);
      }
    }
  }

  // ---------------------------------------------------------------- what the database guarantees

  /** A step of the database, seen from a request: transactions keep their key and agency, and final outcomes stand;
      committed rows stay; a new transaction is open. */
  ghost predicate DbGrows(d: Intake.State, d': Intake.State) {
    TxnsStand(d.txns, d'.txns) && |d.rows| <= |d'.rows| && d.rows == d'.rows[..|d.rows|]
  }

  ghost predicate TxnsStand(txns: map<nat, Intake.Txn>, txns': map<nat, Intake.Txn>) {
    && (forall t :: t in txns ==> t in txns' && txns'[t].key == txns[t].key && txns'[t].agency == txns[t].agency
                                  && (Intake.Final(txns[t].phase) ==> txns'[t] == txns[t]))
    && (forall t :: t in txns' && t !in txns ==> txns'[t].phase.Opened?)
  }

  /** A row that is committed carries a number above all the committed ones of its agency. */
  ghost predicate CommitsAbove(d: Intake.State, d': Intake.State) {
    forall t, row :: t in d.txns && t in d'.txns && !d.txns[t].phase.Created? && d'.txns[t].phase.Created?
                     && row in d.rows && row.agency == d'.txns[t].agency
                     ==> row.number < d'.txns[t].phase.row.number
  }

  lemma {:induction false} NumbersBelow(rows: seq<Intake.Row>, agency: string, row: Intake.Row)
    requires Intake.Gapless(rows) && row in rows && row.agency == agency
    ensures row.number <= |Intake.Of(rows, agency)|
  {
    var i :| 0 <= i < |rows| && rows[i] == row;
    Intake.OfMembers(rows, agency, i);
    var k: nat :| k < |Intake.Of(rows, agency)| && Intake.Of(rows, agency)[k] == rows[i];
  }

  lemma DbStep(env: Env, d: Intake.State, b: Intake.Action)
    ensures DbGrows(d, Intake.Step(env.hash, d, b))
  {
    DbTxns(env, d, b);
  }

  lemma DbTxns(env: Env, d: Intake.State, b: Intake.Action)
    ensures TxnsStand(d.txns, Intake.Step(env.hash, d, b).txns)
  {
    var txns' := Intake.Step(env.hash, d, b).txns;
    assert txns' == d.txns || (b.t in txns' && txns' == d.txns[b.t := txns'[b.t]]);
  }

  lemma DbCommit(env: Env, d: Intake.State, b: Intake.Action)
    requires Intake.Inv(env.hash, d)
    ensures CommitsAbove(d, Intake.Step(env.hash, d, b))
  {
    if b.Commit? && b.t in d.txns && d.txns[b.t].phase.Logged? {
      var agency := d.txns[b.t].agency;
      forall row | row in d.rows && row.agency == agency ensures row.number < d.txns[b.t].phase.row.number {
        NumbersBelow(d.rows, agency, row);
      }
    }
    OnlyCommitsCreate(env, d, b);
  }

  lemma OnlyCommitsCreate(env: Env, d: Intake.State, b: Intake.Action)
    ensures var d' := Intake.Step(env.hash, d, b);
            forall t :: t in d.txns && t in d'.txns && !d.txns[t].phase.Created? && d'.txns[t].phase.Created? ==>
              b == Intake.Commit(t, true) && d.txns[t].phase.Logged? && d'.txns[t].phase.row == d.txns[t].phase.row
              && d'.txns[t].agency == d.txns[t].agency
  {}

  /** Only the transaction a statement belongs to can appear. */
  lemma DbStepKeys(env: Env, d: Intake.State, b: Intake.Action)
    ensures Intake.Step(env.hash, d, b).txns.Keys == d.txns.Keys + (if b.Begin? then {b.t} else {})
  {}

  lemma OthersSpareDb(env: Env, s: State, a: Action)
    requires !a.Db? && !a.Register?
    ensures Step(env, s, a).db == s.db
  {}

  // ---------------------------------------------------------------- the publishing invariant

  predicate BeforeDb(ph: Phase) { ph.Reading? || ph.Parsed? || ph.Permitted? || ph.Stored? }

  predicate PastSend(ph: Phase) { ph.Published? || ph.Leaving? || ph.Gone? }

  /** A request's transaction has the request's key and agency. */
  ghost predicate Txns(s: State) {
    forall r: nat :: Txn(r) in s.db.txns ==>
                       && In(s, r) && !BeforeDb(s.requests[r].phase)
                       && s.db.txns[Txn(r)].key == s.requests[r].key && s.db.txns[Txn(r)].agency == s.requests[r].agency
  }

  /** Request `r` may publish `job` under `number`: its own random id, or the row its own transaction committed. */
  ghost predicate Claims(s: State, r: nat, job: Job, number: nat) {
    match job
    case Local(q) => q == r && number == 0
    case Document(id) =>
      && Txn(r) in s.db.txns && s.db.txns[Txn(r)].phase.Created?
      && s.db.txns[Txn(r)].phase.row.id == id && s.db.txns[Txn(r)].phase.row.number == number
  }

  ghost predicate Publishers(s: State) {
    forall r :: r in s.requests && s.requests[r].phase.Publishing? ==>
                  Claims(s, r, s.requests[r].phase.job, s.requests[r].phase.number)
  }

  ghost predicate Genuine(env: Env, s: State, e: Record) {
    && In(s, e.sender) && PastSend(s.requests[e.sender].phase)
    && e.agency == s.requests[e.sender].agency && e.key == s.requests[e.sender].key
    && e.partition == env.partition(e.agency) && Claims(s, e.sender, e.job, e.number)
  }

  ghost predicate Logged(env: Env, s: State) {
    && (forall i :: 0 <= i < |s.log| ==> Genuine(env, s, s.log[i]))
    && (forall i, j :: 0 <= i < j < |s.log| ==> s.log[i].sender != s.log[j].sender)
  }

  ghost predicate PublishInv(env: Env, s: State) { Txns(s) && Publishers(s) && Logged(env, s) }

  ghost predicate Inv(env: Env, s: State) { Intake.Inv(env.hash, s.db) && PublishInv(env, s) }

  /** How one request's step may change the state: its own phase moves forward, and a send appends its record. */
  ghost predicate OneRequest(env: Env, s: State, s': State, r: nat) {
    && In(s, r) && In(s', r) && s'.requests == s.requests[r := s'.requests[r]] && DbGrows(s.db, s'.db)
    && s'.db.txns.Keys <= s.db.txns.Keys + {Txn(r)}
    && (BeforeDb(s'.requests[r].phase) ==> BeforeDb(s.requests[r].phase) && Txn(r) !in s'.db.txns)
    && (PastSend(s.requests[r].phase) ==> PastSend(s'.requests[r].phase))
    && (!BeforeDb(s.requests[r].phase) || !BeforeDb(s'.requests[r].phase) ==>
          s'.requests[r].agency == s.requests[r].agency && s'.requests[r].key == s.requests[r].key)
    && (Txn(r) in s'.db.txns && Txn(r) !in s.db.txns ==>
          s'.db.txns[Txn(r)].key == s.requests[r].key && s'.db.txns[Txn(r)].agency == s.requests[r].agency)
    && (s'.requests[r].phase.Publishing? ==> Claims(s', r, s'.requests[r].phase.job, s'.requests[r].phase.number))
    && (s'.log == s.log
        || (s.requests[r].phase.Publishing? && PastSend(s'.requests[r].phase)
            && s'.log == s.log + [RecordOf(env, s, r)]))
  }

  lemma ClaimsStay(s: State, s': State, r: nat, job: Job, number: nat)
    requires Claims(s, r, job, number) && DbGrows(s.db, s'.db)
    ensures Claims(s', r, job, number)
  {}

  lemma OneRequestKeepsInv(env: Env, s: State, s': State, r: nat)
    requires PublishInv(env, s) && OneRequest(env, s, s', r)
    ensures PublishInv(env, s')
  {
    forall q: nat | Txn(q) in s'.db.txns
      ensures In(s', q) && !BeforeDb(s'.requests[q].phase)
      ensures s'.db.txns[Txn(q)].key == s'.requests[q].key && s'.db.txns[Txn(q)].agency == s'.requests[q].agency
    {
      if q != r { assert Txn(q) in s.db.txns; }
    }
    forall q | q in s'.requests && s'.requests[q].phase.Publishing?
      ensures Claims(s', q, s'.requests[q].phase.job, s'.requests[q].phase.number)
    {
      if q != r { ClaimsStay(s, s', q, s.requests[q].phase.job, s.requests[q].phase.number); }
    }
    OneRequestKeepsLog(env, s, s', r);
  }

  lemma OneRequestKeepsLog(env: Env, s: State, s': State, r: nat)
    requires PublishInv(env, s) && OneRequest(env, s, s', r)
    ensures Logged(env, s')
  {
    forall i | 0 <= i < |s'.log| ensures Genuine(env, s', s'.log[i]) {
      var e := s'.log[i];
      if i < |s.log| {
        assert e == s.log[i] && Genuine(env, s, e);
        ClaimsStay(s, s', e.sender, e.job, e.number);
      } else {
        ClaimsStay(s, s', r, e.job, e.number);
      }
    }
    forall i, j | 0 <= i < j < |s'.log| ensures s'.log[i].sender != s'.log[j].sender {
      assert s'.log[i] == s.log[i] && Genuine(env, s, s.log[i]);
      if j < |s.log| { assert s'.log[j] == s.log[j]; }
    }
  }

  /** A step inside the process, before publishing or after it. */
  lemma QuietIsOneRequest(env: Env, s: State, s': State, r: nat)
    requires Txns(s) && In(s, r) && In(s', r) && s'.db == s.db && s'.log == s.log
    requires s'.requests == s.requests[r := s'.requests[r]]
    requires BeforeDb(s'.requests[r].phase) ==> BeforeDb(s.requests[r].phase)
    requires PastSend(s.requests[r].phase) ==> PastSend(s'.requests[r].phase)
    requires !BeforeDb(s.requests[r].phase) || !BeforeDb(s'.requests[r].phase) ==>
               s'.requests[r].agency == s.requests[r].agency && s'.requests[r].key == s.requests[r].key
    requires s'.requests[r].phase.Publishing? ==> Claims(s', r, s'.requests[r].phase.job, s'.requests[r].phase.number)
    ensures OneRequest(env, s, s', r)
  {
    if BeforeDb(s.requests[r].phase) { assert Txn(r) !in s.db.txns; }
  }

  lemma OwnIsOneRequest(env: Env, s: State, a: Action)
    requires PublishInv(env, s) && !a.Db? && !a.Arrive? && !a.Register? && !a.Resume? && !a.Send? && In(s, a.r)
    ensures OneRequest(env, s, Step(env, s, a), a.r)
  {
    var s' := Step(env, s, a);
    assert s'.db == s.db && s'.log == s.log && s'.requests == s.requests[a.r := s'.requests[a.r]];
    if s'.requests[a.r].phase.Publishing? { assert s' == s; }
    QuietIsOneRequest(env, s, s', a.r);
  }

  lemma SendIsOneRequest(env: Env, s: State, r: nat, sending: Sending)
    requires PublishInv(env, s) && In(s, r)
    ensures OneRequest(env, s, Step(env, s, Send(r, sending)), r)
  {
    if BeforeDb(s.requests[r].phase) { assert Txn(r) !in s.db.txns; }
  }

  lemma ResumeIsOneRequest(env: Env, s: State, r: nat)
    requires PublishInv(env, s) && In(s, r)
    ensures OneRequest(env, s, Step(env, s, Resume(r)), r)
  {
    var s' := Step(env, s, Resume(r));
    assert s'.db == s.db && s'.log == s.log && s'.requests == s.requests[r := s'.requests[r]];
    QuietIsOneRequest(env, s, s', r);
  }

  lemma RegisterIsOneRequest(env: Env, s: State, r: nat)
    requires PublishInv(env, s) && In(s, r)
    ensures OneRequest(env, s, Step(env, s, Register(r)), r)
  {
    if BeforeDb(s.requests[r].phase) { assert Txn(r) !in s.db.txns; }
    if s.requests[r].phase.Stored? && env.pool {
      var begin := Intake.Begin(Txn(r), s.requests[r].key, s.requests[r].agency);
      DbStep(env, s.db, begin);
      DbStepKeys(env, s.db, begin);
    }
  }

  lemma ArriveKeepsInv(env: Env, s: State, r: nat)
    requires PublishInv(env, s)
    ensures PublishInv(env, Step(env, s, Arrive(r)))
  {
    var s' := Step(env, s, Arrive(r));
    if s' != s {
      assert Txn(r) !in s.db.txns;
      assert forall q, job, number :: Claims(s', q, job, number) <==> Claims(s, q, job, number);
      forall i | 0 <= i < |s'.log| ensures Genuine(env, s', s'.log[i]) {
        assert Genuine(env, s, s.log[i]);
      }
    }
  }

  lemma DbKeepsInv(env: Env, s: State, b: Intake.Action)
    requires PublishInv(env, s) && !(b.Begin? && b.t % 2 == 0)
    ensures PublishInv(env, Step(env, s, Db(b)))
  {
    var s' := Step(env, s, Db(b));
    DbStep(env, s.db, b);
    DbStepKeys(env, s.db, b);
    assert forall r: nat :: Txn(r) in s'.db.txns ==> Txn(r) in s.db.txns;
    forall r | r in s'.requests && s'.requests[r].phase.Publishing?
      ensures Claims(s', r, s'.requests[r].phase.job, s'.requests[r].phase.number)
    {
      ClaimsStay(s, s', r, s.requests[r].phase.job, s.requests[r].phase.number);
    }
    forall i | 0 <= i < |s'.log| ensures Genuine(env, s', s'.log[i]) {
      assert Genuine(env, s, s.log[i]);
      ClaimsStay(s, s', s.log[i].sender, s.log[i].job, s.log[i].number);
    }
  }

  lemma StepKeepsPublishing(env: Env, s: State, a: Action)
    requires PublishInv(env, s)
    ensures PublishInv(env, Step(env, s, a))
  {
    if a.Arrive? {
      ArriveKeepsInv(env, s, a.r);
    } else if a.Db? {
      if !(a.a.Begin? && a.a.t % 2 == 0) { DbKeepsInv(env, s, a.a); }
    } else if In(s, a.r) {
      if a.Register? {
        RegisterIsOneRequest(env, s, a.r);
      } else if a.Resume? {
        ResumeIsOneRequest(env, s, a.r);
      } else if a.Send? {
        SendIsOneRequest(env, s, a.r, a.sending);
      } else {
        OwnIsOneRequest(env, s, a);
      }
      OneRequestKeepsInv(env, s, Step(env, s, a), a.r);
    }
  }

  lemma {:induction false} StepKeepsInv(env: Env, s: State, a: Action)
    requires Inv(env, s)
    ensures Inv(env, Step(env, s, a))
  {
    StepKeepsPublishing(env, s, a);
    if a.Db? {
      Intake.StepKeepsInv(env.hash, s.db, a.a);
    } else if a.Register? && In(s, a.r) {
      Intake.StepKeepsInv(env.hash, s.db, Intake.Begin(Txn(a.r), s.requests[a.r].key, s.requests[a.r].agency));
    }
  }

  lemma {:induction false} RunKeepsInv(env: Env, actions: seq<Action>)
    ensures Inv(env, Run(env, Init(env), actions))
  {
    if actions != [] {
      RunKeepsInv(env, actions[..|actions| - 1]);
      StepKeepsInv(env, Run(env, Init(env), actions[..|actions| - 1]), actions[|actions| - 1]);
    }
  }

  // ---------------------------------------------------------------- the endpoint

  /** What a request brings along, and what its environment decides for it. */
  datatype Input = Input(agency: string, client: string, sha: string, size: nat, allowed: bool, sending: Sending)

  /** The endpoint's own steps in order. */
  function Script(env: Env, r: nat, x: Input): seq<Action> {
    [Arrive(r), Parse(r, x.agency, x.client, x.sha, x.size), CheckAgency(r, x.allowed), Store(r), Register(r)]
    + (if env.pool then [Resume(r)] else []) + [Send(r, x.sending), Finish(r)]
  }

  /** The same with an exception in place of step `failAt`, if it is one after the admission. */
  function Plan(env: Env, r: nat, x: Input, failAt: nat): seq<Action> {
    var script := Script(env, r, x);
    if 0 < failAt < |script| then script[failAt := Raise(r)] else script
  }

  lemma {:induction false} WeaveNext(env: Env, s: State, others: seq<seq<Action>>, own: seq<Action>, a: Action)
    requires |own| < |others|
    ensures Run(env, s, Weave(others, own + [a])) ==
            Step(env, Run(env, Run(env, s, Weave(others, own)), others[|own|]), a)
  {
    WeaveSnoc(others, own, a);
    RunConcat(env, s, Weave(others, own), others[|own|]);
    RunSnoc(env, s, Weave(others, own) + others[|own|], a);
  }

  predicate Of(a: Action, r: nat) { !a.Db? && a.r == r }

  ghost predicate Foreign(others: seq<seq<Action>>, r: nat) {
    forall i, j :: 0 <= i < |others| && 0 <= j < |others[i]| ==> !Of(others[i][j], r)
  }

  /** Where a step of its own takes a request. */
  ghost predicate Leads(env: Env, p: Request, a: Action, q: Request) {
    match a
    case Parse(_, agency, client, sha, size) =>
      p.phase.Reading? ==>
        q.agency == agency && q.size == size && q.phase.Parsed? && q.key == if client != "" then client else sha
    case CheckAgency(_, allowed) =>
      p.phase.Parsed? ==>
        q == p.(phase := if !allowed then Leaving(Throttled)
                         else if p.size > Storage.MAX_PAYLOAD_BYTES then Leaving(TooLarge) else Permitted)
    case Store(_) => p.phase.Permitted? ==> q == p.(phase := Stored)
    case Register(_) =>
      p.phase.Stored? ==>
        && q == p.(phase := q.phase)
        && if env.pool then q.phase.InDb?
           else q.phase.Publishing? || (q.phase.Leaving? && q.phase.response.Duplicate?)
    case Resume(_) =>
      p.phase.InDb? ==>
        && q == p.(phase := q.phase)
        && (q.phase.Publishing? || (q.phase.Leaving? && (q.phase.response.Duplicate? || q.phase.response.Failed?)))
    case Send(_, sending) =>
      p.phase.Publishing? ==>
        q == p.(phase := if sending.Dropped? || sending.AppendedThenRaised? then Leaving(Failed)
                         else Published(p.phase.job))
    case Finish(_) =>
      p.phase.Published? ==>
        q == p.(phase := Leaving(if env.pool && p.phase.job.Local? then Failed else Accepted(p.phase.job)))
    case Raise(_) => !p.phase.Gone? && !p.phase.Leaving? ==> q == p.(phase := Leaving(Failed))
    case Release(_, _) => p.phase.Leaving? ==> q == p.(phase := Gone(p.phase.response))
    case _ => true
  }

  lemma OwnLeads(env: Env, s: State, a: Action)
    requires !a.Db? && !a.Arrive? && In(s, a.r)
    ensures var s' := Step(env, s, a); In(s', a.r) && Leads(env, s.requests[a.r], a, s'.requests[a.r])
  {}

  /** What a request is about: its agency, its size, and its client's key or, without one, its content's hash. */
  ghost predicate Carries(q: Request, x: Input) {
    q.agency == x.agency && q.size == x.size && q.key == if x.client != "" then x.client else x.sha
  }

  /** A slot is free. */
  ghost predicate HasRoom(s: State) { s.limiter.inFlight < s.limiter.limit.Floor }

  /** Past the token bucket and the size check. */
  ghost predicate Cleared(x: Input) { x.allowed && x.size <= Storage.MAX_PAYLOAD_BYTES }

  function Length(env: Env): nat { if env.pool then 8 else 7 }

  /** With which answer a request can be on its way out after `k` steps, of which step `failAt` is an exception. */
  ghost predicate Answered(env: Env, x: Input, failAt: nat, k: nat, answer: Response) {
    if failAt == k - 1 then answer.Failed? && (k >= 4 ==> Cleared(x))
    else if k == 3 then if x.allowed then answer.TooLarge? && !Cleared(x) else answer.Throttled?
    else
      && Cleared(x)
      && ((k == Length(env) - 2 && (answer.Duplicate? || (env.pool && answer.Failed?)))
          || (k == Length(env) - 1 && answer.Failed? && (x.sending.Dropped? || x.sending.AppendedThenRaised?))
          || (k == Length(env) && (answer.Accepted? || (env.pool && answer.Failed?))
              && (x.sending.Appended? || x.sending.Mocked?)))
  }

  /** Where a request stands after `k` steps of its plan. */
  ghost predicate Stage(env: Env, x: Input, failAt: nat, k: nat, q: Request) {
    && (k >= 2 && failAt != 1 ==> Carries(q, x))
    && if q.phase.Leaving? then k >= 2 && Answered(env, x, failAt, k, q.phase.response)
       else
         && (k >= 2 ==> failAt != 1) && (k >= 3 ==> Cleared(x))
         && (|| (k == 1 && q.phase.Reading?) || (k == 2 && q.phase.Parsed?) || (k == 3 && q.phase.Permitted?)
             || (k == 4 && q.phase.Stored?) || (env.pool && k == 5 && q.phase.InDb?)
             || (k == Length(env) - 2 && q.phase.Publishing?)
             || (k == Length(env) - 1 && q.phase.Published? && (x.sending.Appended? || x.sending.Mocked?)))
  }

  /** What an answered request tells: it is about its agency, its size and its key; it is throttled exactly when the
      token bucket said so, and too large exactly when it is, unless it met an exception before; and it is accepted
      only at the end of its plan, after a `send` that did not raise. */
  ghost predicate Tells(env: Env, x: Input, failAt: nat, k: nat, q: Request, answer: Response) {
    && Answered(env, x, failAt, k, answer)
    && (failAt != 1 ==> Carries(q, x))
    && (!(0 < failAt < 3) ==>
          && (answer.Throttled? <==> !x.allowed)
          && (answer.TooLarge? <==> x.allowed && x.size > Storage.MAX_PAYLOAD_BYTES))
    && (answer.Accepted? ==> k == Length(env) && (x.sending.Appended? || x.sending.Mocked?))
  }

  lemma StageTells(env: Env, x: Input, failAt: nat, k: nat, q: Request, answer: Response)
    requires Stage(env, x, failAt, k, q.(phase := Leaving(answer)))
    ensures Tells(env, x, failAt, k, q, answer)
  {}

  lemma {:induction false} StageNext(env: Env, r: nat, x: Input, failAt: nat, plan: seq<Action>, k: nat, p: Request,
                                     q: Request)
    requires Steps(env, r, x, failAt, plan) && Stage(env, x, failAt, k, p) && !p.phase.Leaving?
    requires k < |plan| && Leads(env, p, plan[k], q)
    ensures Stage(env, x, failAt, k + 1, q)
  {}

  /** An own step that takes a request from stage `k` to the next one. */
  ghost predicate Fits(env: Env, r: nat, x: Input, failAt: nat, a: Action, k: nat) {
    && Of(a, r) && !a.Arrive?
    && forall p, q :: Stage(env, x, failAt, k, p) && !p.phase.Leaving? && Leads(env, p, a, q) ==>
                        Stage(env, x, failAt, k + 1, q)
  }

  /** The steps up to number `last` fit their stages. */
  ghost predicate AllFit(env: Env, r: nat, x: Input, failAt: nat, plan: seq<Action>, last: nat)
    requires last < |plan|
  {
    last == 0 || (Fits(env, r, x, failAt, plan[last], last) && AllFit(env, r, x, failAt, plan, last - 1))
  }

  ghost predicate Planned(env: Env, r: nat, x: Input, failAt: nat, plan: seq<Action>) {
    |plan| == Length(env) && AllFit(env, r, x, failAt, plan, |plan| - 1)
  }

  lemma {:induction false} FitsAt(env: Env, r: nat, x: Input, failAt: nat, plan: seq<Action>, last: nat, k: nat)
    requires last < |plan| && AllFit(env, r, x, failAt, plan, last) && 0 < k <= last
    ensures Fits(env, r, x, failAt, plan[k], k)
  {
    if k < last { FitsAt(env, r, x, failAt, plan, last - 1, k); }
  }

  lemma {:induction false} OwnStep(env: Env, r: nat, x: Input, failAt: nat, plan: seq<Action>, k: nat)
    requires Planned(env, r, x, failAt, plan) && 0 < k < |plan|
    ensures Of(plan[k], r) && !plan[k].Arrive?
  {
    FitsAt(env, r, x, failAt, plan, |plan| - 1, k);
  }

  lemma {:induction false} Prefixes(plan: seq<Action>, k: nat)
    requires k < |plan|
    ensures plan[..k + 1] == plan[..k] + [plan[k]]
  {}

  lemma {:induction false} FitsStep(env: Env, r: nat, x: Input, failAt: nat, plan: seq<Action>, k: nat, p: Request,
                                    q: Request)
    requires Planned(env, r, x, failAt, plan) && 0 < k < |plan| && Stage(env, x, failAt, k, p) && !p.phase.Leaving?
    requires Leads(env, p, plan[k], q)
    ensures Stage(env, x, failAt, k + 1, q)
  {
    FitsAt(env, r, x, failAt, plan, |plan| - 1, k);
  }

  lemma {:induction false} AllFitUpTo(env: Env, r: nat, x: Input, failAt: nat, plan: seq<Action>, last: nat)
    requires last < |plan| && forall k :: 1 <= k < |plan| ==> Fits(env, r, x, failAt, plan[k], k)
    ensures AllFit(env, r, x, failAt, plan, last)
  {
    if last > 0 { AllFitUpTo(env, r, x, failAt, plan, last - 1); }
  }

  /** The steps of a plan, with an exception instead of step `failAt`. */
  predicate Steps(env: Env, r: nat, x: Input, failAt: nat, plan: seq<Action>) {
    && |plan| == Length(env) && plan[0] == Arrive(r)
    && plan[1] == (if failAt == 1 then Raise(r) else Parse(r, x.agency, x.client, x.sha, x.size))
    && plan[2] == (if failAt == 2 then Raise(r) else CheckAgency(r, x.allowed))
    && plan[3] == (if failAt == 3 then Raise(r) else Store(r))
    && plan[4] == (if failAt == 4 then Raise(r) else Register(r))
    && (env.pool ==> plan[5] == if failAt == 5 then Raise(r) else Resume(r))
    && plan[|plan| - 2] == (if failAt == |plan| - 2 then Raise(r) else Send(r, x.sending))
    && plan[|plan| - 1] == (if failAt == |plan| - 1 then Raise(r) else Finish(r))
  }

  lemma PlanIsPlanned(env: Env, r: nat, x: Input, failAt: nat)
    ensures Planned(env, r, x, failAt, Plan(env, r, x, failAt)) && Plan(env, r, x, failAt)[0] == Arrive(r)
  {
    var plan := Plan(env, r, x, failAt);
    PlanIsSteps(env, r, x, failAt);
    forall k | 1 <= k < |plan| ensures Fits(env, r, x, failAt, plan[k], k) { StepFits(env, r, x, failAt, plan, k); }
    AllFitUpTo(env, r, x, failAt, plan, |plan| - 1);
  }

  lemma PlanIsSteps(env: Env, r: nat, x: Input, failAt: nat)
    ensures Steps(env, r, x, failAt, Plan(env, r, x, failAt))
  {}

  lemma {:induction false} StepFits(env: Env, r: nat, x: Input, failAt: nat, plan: seq<Action>, k: nat)
    requires Steps(env, r, x, failAt, plan) && 1 <= k < |plan|
    ensures Fits(env, r, x, failAt, plan[k], k)
  {
    forall p, q | Stage(env, x, failAt, k, p) && !p.phase.Leaving? && Leads(env, p, plan[k], q)
      ensures Stage(env, x, failAt, k + 1, q)
    {
      StageNext(env, r, x, failAt, plan, k, p, q);
    }
  }

  lemma StepSpares(env: Env, s: State, a: Action, r: nat)
    requires !Of(a, r)
    ensures var s' := Step(env, s, a); (In(s', r) <==> In(s, r)) && (In(s, r) ==> s'.requests[r] == s.requests[r])
  {}

  /** One process of the API: its limiter, its requests and its cache, with the database and the broker's log. */
  class IngestApi {
    const env: Env
    var limiter: Aimd.Limiter
    var requests: map<nat, Request>
    var db: Intake.State
    var cache: map<string, Job>
    var log: seq<Record>

    function View(): State reads this { State(limiter, requests, db, cache, log) }

    constructor (env: Env)
      ensures this.env == env && View() == Init(env)
    {
      this.env := env;
      limiter, requests, db, cache, log := Aimd.Initial(env.cfg), map[], Intake.EMPTY, map[], [];
    }

    /** The branch without a database, and the one after a database error. */
    method TakeFromCache(r: nat)
      requires r in requests
      modifies this`requests, this`cache
      ensures View() == Fallback(old(View()), r)
    {
      var x := requests[r];
      if x.key in cache {
        requests := requests[r := x.(phase := Leaving(Duplicate(cache[x.key])))];
      } else {
        cache := cache[x.key := Local(r)];
        requests := requests[r := x.(phase := Publishing(Local(r), 0))];
      }
    }

    method TakeOutcome(r: nat)
      requires r in requests
      modifies this`requests, this`cache
      ensures View() == Outcome(old(View()), r)
    {
      var x := requests[r];
      var failed := x.(phase := Leaving(Failed));
      if Txn(r) !in db.txns {
        requests := requests[r := failed];
        return;
      }
      match db.txns[Txn(r)].phase {
        case Created(row) => requests := requests[r := x.(phase := Publishing(Document(row.id), row.number))];
        case Found(row) => requests := requests[r := x.(phase := Leaving(Duplicate(Document(row.id))))];
        case Raised => TakeFromCache(r);
        case _ => requests := requests[r := failed];
      }
    }

    /** `send_audit_event`. */
    method SendAuditEvent(r: nat, sending: Sending)
      requires r in requests && requests[r].phase.Publishing?
      modifies this`requests, this`log
      ensures View() == Sent(env, old(View()), r, old(requests[r].phase.job), old(requests[r].phase.number), sending)
    {
      var x := requests[r];
      if sending.Appended? || sending.AppendedThenRaised? {
        log := log + [Record(env.partition(x.agency), x.phase.job, x.agency, x.key, x.phase.number, r)];
      }
      var raises := sending.Dropped? || sending.AppendedThenRaised?;
      requests := requests[r := x.(phase := if raises then Leaving(Failed) else Published(x.phase.job))];
    }

    method ExecuteOwn(a: Action)
      requires !a.Db? && !a.Arrive? && a.r in requests
      modifies this
      ensures View() == Own(env, old(View()), a)
    {
      var x := requests[a.r];
      match a {
        case Parse(r, agency, client, sha, size) =>
          if x.phase.Reading? {
            requests := requests[r := Request(agency, if client == "" then sha else client, size, Parsed)];
          }
        case CheckAgency(r, allowed) =>
          if x.phase.Parsed? {
            requests := requests[r := x.(phase := Verdict(allowed, x.size))];
          }
        case Store(r) =>
          if x.phase.Permitted? { requests := requests[r := x.(phase := Stored)]; }
        case Register(r) =>
          if x.phase.Stored? {
            if env.pool {
              db := Intake.Step(env.hash, db, Intake.Begin(Txn(r), x.key, x.agency));
              requests := requests[r := x.(phase := InDb)];
            } else {
              TakeFromCache(r);
            }
          }
        case Resume(r) =>
          if x.phase.InDb? { TakeOutcome(r); }
        case Send(r, sending) =>
          if x.phase.Publishing? { SendAuditEvent(r, sending); }
        case Finish(r) =>
          if x.phase.Published? {
            var fails := env.pool && x.phase.job.Local?;
            requests := requests[r := x.(phase := Leaving(if fails then Failed else Accepted(x.phase.job)))];
          }
        case Raise(r) =>
          if !x.phase.Gone? && !x.phase.Leaving? { requests := requests[r := x.(phase := Leaving(Failed))]; }
        case Release(r, rtt) =>
          if x.phase.Leaving? {
            limiter := Aimd.Released(env.cfg, limiter, rtt);
            requests := requests[r := x.(phase := Gone(x.phase.response))];
          }
      }
    }

    /** One step, of any request or of the database. */
    method Execute(a: Action)
      modifies this
      ensures View() == Step(env, old(View()), a)
    {
      if a.Arrive? {
        if a.r !in requests {
          var admitted := Aimd.Admits(limiter);
          limiter := Aimd.Acquired(limiter);
          requests := requests[a.r := Request("", "", 0, if admitted then Reading else Gone(Saturated))];
        }
      } else if a.Db? {
        if !(a.a.Begin? && a.a.t % 2 == 0) { db := Intake.Step(env.hash, db, a.a); }
      } else if a.r in requests {
        ExecuteOwn(a);
      }
    }

    /** What everybody else does while request `r` waits. */
    method Others(r: nat, others: seq<Action>)
      requires forall j :: 0 <= j < |others| ==> !Of(others[j], r)
      modifies this
      ensures View() == Run(env, old(View()), others)
      ensures (r in requests <==> r in old(requests)) && (r in requests ==> requests[r] == old(requests[r]))
    {
      for i := 0 to |others|
        invariant View() == Run(env, old(View()), others[..i])
        invariant (r in requests <==> r in old(requests)) && (r in requests ==> requests[r] == old(requests[r]))
      {
        assert others[..i + 1] == others[..i] + [others[i]];
        RunSnoc(env, old(View()), others[..i], others[i]);
        StepSpares(env, View(), others[i], r);
        Execute(others[i]);
      }
      assert others[..|others|] == others;
    }

    /** One own step of a request under way, after what the others did before it. */
    method Await(r: nat, others: seq<seq<Action>>, own: seq<Action>, a: Action, ghost s0: State) returns (ph: Phase)
      requires |own| < |others| && Foreign(others, r) && Of(a, r) && !a.Arrive?
      requires View() == Run(env, s0, Weave(others, own)) && r in requests
      modifies this
      ensures View() == Run(env, s0, Weave(others, own + [a]))
      ensures r in requests && requests[r].phase == ph && Leads(env, old(requests[r]), a, requests[r])
    {
      Others(r, others[|own|]);
      WeaveNext(env, s0, others, own, a);
      OwnLeads(env, View(), a);
      Execute(a);
      ph := requests[r].phase;
    }

    /** `Await` for step `k` of a plan. */
    method Advance(r: nat, others: seq<seq<Action>>, plan: seq<Action>, k: nat, x: Input, ghost failAt: nat,
                   ghost s0: State)
      returns (ph: Phase, next: nat)
      requires 0 < k < |plan| < |others| && Foreign(others, r) && Planned(env, r, x, failAt, plan)
      requires View() == Run(env, s0, Weave(others, plan[..k])) && r in requests
      requires Stage(env, x, failAt, k, requests[r]) && !requests[r].phase.Leaving?
      modifies this
      ensures next == k + 1 && View() == Run(env, s0, Weave(others, plan[..next]))
      ensures r in requests && requests[r].phase == ph && Stage(env, x, failAt, next, requests[r])
    {
      ghost var p := requests[r];
      OwnStep(env, r, x, failAt, plan, k);
      Prefixes(plan, k);
      ph := Await(r, others, plan[..k], plan[k], s0);
      FitsStep(env, r, x, failAt, plan, k, p, requests[r]);
      next := k + 1;
    }

    /** `acquire`: the request is admitted or turned away. */
    method Admit(r: nat, others: seq<seq<Action>>) returns (admitted: bool)
      requires |others| > 0 && Foreign(others, r) && r !in requests
      modifies this
      ensures View() == Run(env, old(View()), Weave(others, [Arrive(r)]))
      ensures r in requests && requests[r].phase == if admitted then Reading else Gone(Saturated)
      ensures admitted <==> HasRoom(Run(env, old(View()), others[0]))
    {
      ghost var s0 := View();
      Others(r, others[0]);
      assert [] + [Arrive(r)] == [Arrive(r)];
      WeaveNext(env, s0, others, [], Arrive(r));
      admitted := Aimd.Admits(limiter);
      Execute(Arrive(r));
    }

    /** The body, the token bucket, the size check and the storage. */
    method Receive(r: nat, others: seq<seq<Action>>, plan: seq<Action>, x: Input, ghost failAt: nat, ghost s0: State)
      returns (ph: Phase, k: nat)
      requires Planned(env, r, x, failAt, plan) && |plan| < |others| == 10 && Foreign(others, r)
      requires View() == Run(env, s0, Weave(others, plan[..1])) && r in requests && requests[r].phase.Reading?
      modifies this
      ensures k <= 4 && View() == Run(env, s0, Weave(others, plan[..k]))
      ensures r in requests && requests[r].phase == ph && Stage(env, x, failAt, k, requests[r])
      ensures ph.Leaving? || k == 4
    {
      ph, k := Advance(r, others, plan, 1, x, failAt, s0);
      if ph.Leaving? { return; }
      ph, k := Advance(r, others, plan, 2, x, failAt, s0);
      if ph.Leaving? { return; }
      ph, k := Advance(r, others, plan, 3, x, failAt, s0);
    }

    /** `create_or_get`, or the process's own cache. */
    method CreateOrGet(r: nat, others: seq<seq<Action>>, plan: seq<Action>, x: Input, ghost failAt: nat,
                       ghost s0: State)
      returns (ph: Phase, k: nat)
      requires Planned(env, r, x, failAt, plan) && |plan| < |others| == 10 && Foreign(others, r)
      requires View() == Run(env, s0, Weave(others, plan[..4])) && r in requests && requests[r].phase.Stored?
      requires Stage(env, x, failAt, 4, requests[r])
      modifies this
      ensures k <= |plan| - 2 && View() == Run(env, s0, Weave(others, plan[..k]))
      ensures r in requests && requests[r].phase == ph && Stage(env, x, failAt, k, requests[r])
      ensures ph.Leaving? || k == |plan| - 2
    {
      ph, k := Advance(r, others, plan, 4, x, failAt, s0);
      if ph.InDb? { ph, k := Advance(r, others, plan, k, x, failAt, s0); }
    }

    /** The broker, and what follows publishing. */
    method Dispatch(r: nat, others: seq<seq<Action>>, plan: seq<Action>, x: Input, ghost failAt: nat, ghost s0: State)
      returns (ph: Phase, k: nat)
      requires Planned(env, r, x, failAt, plan) && |plan| < |others| == 10 && Foreign(others, r)
      requires View() == Run(env, s0, Weave(others, plan[..|plan| - 2])) && r in requests
      requires requests[r].phase.Publishing? && Stage(env, x, failAt, |plan| - 2, requests[r])
      modifies this
      ensures k <= |plan| && View() == Run(env, s0, Weave(others, plan[..k]))
      ensures r in requests && requests[r].phase == ph && Stage(env, x, failAt, k, requests[r]) && ph.Leaving?
    {
      ph, k := Advance(r, others, plan, |plan| - 2, x, failAt, s0);
      if ph.Published? { ph, k := Advance(r, others, plan, k, x, failAt, s0); }
    }

    /** An admitted request up to its `finally` block. */
    method Serve(r: nat, others: seq<seq<Action>>, plan: seq<Action>, x: Input, ghost failAt: nat, ghost s0: State)
      returns (ph: Phase, k: nat)
      requires Planned(env, r, x, failAt, plan) && |plan| < |others| == 10 && Foreign(others, r)
      requires View() == Run(env, s0, Weave(others, plan[..1])) && r in requests && requests[r].phase.Reading?
      modifies this
      ensures k <= |plan| && View() == Run(env, s0, Weave(others, plan[..k]))
      ensures r in requests && requests[r].phase == ph && Stage(env, x, failAt, k, requests[r]) && ph.Leaving?
    {
      ph, k := Receive(r, others, plan, x, failAt, s0);
      if ph.Stored? { ph, k := CreateOrGet(r, others, plan, x, failAt, s0); }
      if ph.Publishing? { ph, k := Dispatch(r, others, plan, x, failAt, s0); }
    }

    /** A request's plan from its arrival to its `finally` block. */
    method Handle(r: nat, others: seq<seq<Action>>, plan: seq<Action>, x: Input, ghost failAt: nat, rtt: real)
      returns (response: Response, k: nat)
      requires r !in requests && |plan| < |others| == 10 && Foreign(others, r)
      requires Planned(env, r, x, failAt, plan) && plan[0] == Arrive(r)
      modifies this
      ensures r in requests && requests[r].phase == Gone(response) && k <= |plan|
      ensures View() == Run(env, old(View()),
                            Weave(others, plan[..k] + if response.Saturated? then [] else [Release(r, rtt)]))
      ensures response.Saturated? <==> !HasRoom(Run(env, old(View()), others[0]))
      ensures !response.Saturated? ==> Stage(env, x, failAt, k, requests[r].(phase := Leaving(response)))
    {
      ghost var s0 := View();
      assert plan[..1] == [Arrive(r)];
      var admitted := Admit(r, others);
      if !admitted {
        assert plan[..1] + [] == [Arrive(r)];
        return Saturated, 1;
      }
      var ph;
      ph, k := Serve(r, others, plan, x, failAt, s0);
      response := ph.response;
      ghost var q := requests[r];
      ph := Await(r, others, plan[..k], Release(r, rtt), s0);
      assert requests[r].(phase := Leaving(response)) == q;
    }

    /** `ingest_audit_report`, with whatever everybody else does before each of its steps and an exception at step
        `failAt`: exactly the run of its first `k` steps in order and, unless it was turned away at once, of its
        `finally` block. However it ends, it has answered and given its slot back. It is turned away exactly when no
        slot is free as it arrives; `Tells` says what it is about, and with which answer it ends where. */
    method IngestAuditReport(r: nat, x: Input, failAt: nat, rtt: real, others: seq<seq<Action>>)
      returns (response: Response, k: nat)
      requires r !in requests && |others| == 10 && Foreign(others, r)
      modifies this
      ensures r in requests && requests[r].phase == Gone(response)
      ensures k <= |Plan(env, r, x, failAt)| < 9
      ensures View() == Run(env, old(View()),
                            Weave(others, Plan(env, r, x, failAt)[..k]
                                          + if response.Saturated? then [] else [Release(r, rtt)]))
      ensures response.Saturated? <==> !HasRoom(Run(env, old(View()), others[0]))
      ensures !response.Saturated? ==> Tells(env, x, failAt, k, requests[r], response)
    {
      var plan := Plan(env, r, x, failAt);
      PlanIsPlanned(env, r, x, failAt);
      response, k := Handle(r, others, plan, x, failAt, rtt);
      if !response.Saturated? { StageTells(env, x, failAt, k, requests[r], response); }
    }
  }
}
