/** From the log to the results: `Pipeline` with a worker's batch consumer that polls the partitions of the endpoint's
    log and calls `process_event` for each record. */
module EndToEnd {

  import Intake
  import Ingest
  import Publication
  import Lifecycle
  import Pipeline
  import Consumer

  /** `calls` gives the handler of `Lifecycle` that a task of the consumer has called. */
  datatype State = State(pipe: Pipeline.State, worker: Consumer.State, calls: map<nat, nat>)

  datatype Action =
    | Pipe(a: Pipeline.Action)
    | Call(i: nat, h: nat, retry: int, host: nat)
    | Loop(c: Consumer.Action)

  function Init(env: Ingest.Env, w: nat, start: map<nat, nat>): State {
    State(Pipeline.Init(env), Consumer.Init(w, start), map[])
  }

  /** A job id as a record's payload carries it: a document's id is even, a random one is odd. */
  function Name(job: Ingest.Job): nat {
    match job
    case Document(id) => 2 * id
    case Local(r) => 2 * r + 1
  }

  /** The records of one partition; an offset is an index into them. */
  function PartitionLog(log: seq<Ingest.Record>, p: nat): seq<Ingest.Record> {
    if log == [] then []
    else
      var rest, last := PartitionLog(log[..|log| - 1], p), log[|log| - 1];
      if last.partition == p then rest + [last] else rest
  }

  /** Offset `o` of partition `p` holds a record of the job that is called `doc`. */
  predicate Holds(log: seq<Ingest.Record>, p: nat, o: nat, doc: nat) {
    o < |PartitionLog(log, p)| && Name(PartitionLog(log, p)[o].job) == doc
  }

  /** The answer to a poll is what the log holds from the positions on. */
  predicate Reads(log: seq<Ingest.Record>, position: map<nat, nat>, answer: seq<Consumer.Messages>)
    decreases |answer|
  {
    answer == []
    || (var m := answer[0];
        && (forall j :: 0 <= j < |m.docs| ==>
              Holds(log, m.partition, Consumer.At(position, m.partition) + j, m.docs[j]))
        && Reads(log, Consumer.Past(position, m), answer[1..]))
  }

  /** Task `i` is in its `try`, has called nobody yet and has the id of a document: with any other, `process_event`
      raises before its first statement. */
  predicate MayCall(s: State, i: nat, h: nat) {
    Consumer.Is(s.worker, i, Consumer.Active) && i !in s.calls && s.worker.tasks[i].doc % 2 == 0
    && h !in s.pipe.work.handlers
  }

  /** Task `i`'s call of `process_event` has come to `ph`. */
  predicate CallIs(s: State, i: nat, ph: Lifecycle.Phase) {
    i in s.calls && s.calls[i] in s.pipe.work.handlers && s.pipe.work.handlers[s.calls[i]].phase == ph
  }

  /** A poll answers with what the log holds; a task succeeds when its call has returned, and fails when it could not
      make its call or the call has raised. Results are stored by nobody but the handlers. */
  predicate May(s: State, c: Consumer.Action) {
    match c
    case Poll(answer) => Reads(s.pipe.api.log, s.worker.position, answer)
    case Save(_) => false
    case Succeed(i) => CallIs(s, i, Lifecycle.Returned)
    case Fail(i, _) => i !in s.calls || CallIs(s, i, Lifecycle.Raised)
    case _ => true
  }

  /** The consumer's step; a task that succeeds has seen the result of its document stored. */
  function Looped(t: Consumer.State, c: Consumer.Action): Consumer.State {
    if c.Succeed? && c.i < |t.tasks| then Consumer.Step(Consumer.Step(t, Consumer.Save(t.tasks[c.i].doc)), c)
    else Consumer.Step(t, c)
  }

  function Made(s: State, a: Action): Lifecycle.Delivery
    requires a.Call? && a.i < |s.worker.tasks|
  {
    var t := s.worker.tasks[a.i];
    Lifecycle.Delivery(t.doc / 2, a.retry, a.host, t.offset, true)
  }

  function Step(env: Ingest.Env, s: State, a: Action): State {
    match a
    case Pipe(a) => s.(pipe := Pipeline.Step(env, s.pipe, a))
    case Call(i, h, _, _) =>
      if !MayCall(s, i, h) then s
      else
        s.(pipe := Pipeline.Step(env, s.pipe, Pipeline.Work(Lifecycle.Deliver(h, Made(s, a)))),
           calls := s.calls[i := h])
    case Loop(c) => if May(s, c) then s.(worker := Looped(s.worker, c)) else s
  }

  function Run(env: Ingest.Env, s: State, actions: seq<Action>): State {
    if actions == [] then s else Step(env, Run(env, s, actions[..|actions| - 1]), actions[|actions| - 1])
  }

  // ---------------------------------------------------------------- what links the parts

  /** Every task carries the record at its offset. */
  ghost predicate Carried(log: seq<Ingest.Record>, tasks: seq<Consumer.Task>) {
    forall k :: 0 <= k < |tasks| ==> Holds(log, tasks[k].partition, tasks[k].offset, tasks[k].doc)
  }

  /** Every call is one of a task's own document, with a connection. */
  ghost predicate Called(s: State, i: nat) {
    && i < |s.worker.tasks| && i in s.calls && s.calls[i] in s.pipe.work.handlers
    && s.pipe.work.handlers[s.calls[i]].what.pool
    && 2 * s.pipe.work.handlers[s.calls[i]].what.doc == s.worker.tasks[i].doc
  }

  ghost predicate Calls(s: State) { forall i :: i in s.calls ==> Called(s, i) }

  /** What the consumer takes for a stored result is one. */
  ghost predicate Stored(t: Lifecycle.Tables, doc: nat) { doc % 2 == 0 && Lifecycle.HasResult(t, doc / 2) }

  ghost predicate AllStored(t: Lifecycle.Tables, results: set<nat>) {
    forall doc :: doc in results ==> Stored(t, doc)
  }

  predicate HasFailed(ph: Consumer.Phase) { Consumer.Fails(ph) == 1 }

  /** A task that failed could not make its call, or the call raised. */
  ghost predicate RealFailure(s: State, k: nat) { k !in s.calls || CallIs(s, k, Lifecycle.Raised) }

  ghost predicate RealFailures(s: State) {
    forall k :: 0 <= k < |s.worker.tasks| && HasFailed(s.worker.tasks[k].phase) ==> RealFailure(s, k)
  }

  ghost predicate Linked(s: State) {
    && Carried(s.pipe.api.log, s.worker.tasks) && Calls(s) && RealFailures(s)
    && AllStored(s.pipe.work.tables, s.worker.results)
  }

  ghost predicate Inv(env: Ingest.Env, w: nat, start: map<nat, nat>, s: State) {
    Pipeline.Inv(env, s.pipe) && Consumer.Inv(w, start, s.worker) && Linked(s)
  }

  // ---------------------------------------------------------------- steps of the endpoint and the handlers

  lemma {:induction false} PartitionSnoc(log: seq<Ingest.Record>, e: Ingest.Record, p: nat)
    ensures PartitionLog(log + [e], p) == PartitionLog(log, p) + if e.partition == p then [e] else []
  {
    assert (log + [e])[..|log|] == log;
  }

  lemma {:induction false} AppendKeepsCarried(log: seq<Ingest.Record>, e: Ingest.Record, tasks: seq<Consumer.Task>)
    requires Carried(log, tasks)
    ensures Carried(log + [e], tasks)
  {
    forall k | 0 <= k < |tasks| ensures Holds(log + [e], tasks[k].partition, tasks[k].offset, tasks[k].doc) {
      assert Holds(log, tasks[k].partition, tasks[k].offset, tasks[k].doc);
      PartitionSnoc(log, e, tasks[k].partition);
    }
  }

  lemma ApiKeepsCarried(env: Ingest.Env, s: Ingest.State, a: Ingest.Action, tasks: seq<Consumer.Task>)
    requires Carried(s.log, tasks)
    ensures Carried(Ingest.Step(env, s, a).log, tasks)
  {
    Publication.LogGrows(env, s, a);
    if Ingest.Step(env, s, a).log != s.log { AppendKeepsCarried(s.log, Ingest.RecordOf(env, s, a.r), tasks); }
  }

  /** Handlers stay what they are, and a final phase stays; results stay. */
  ghost predicate Later(s: Lifecycle.State, s': Lifecycle.State) {
    && (forall h :: h in s.handlers ==>
          && h in s'.handlers && s'.handlers[h].what == s.handlers[h].what
          && (Lifecycle.Final(s.handlers[h].phase) ==> s'.handlers[h].phase == s.handlers[h].phase))
    && (forall doc :: Lifecycle.HasResult(s.tables, doc) ==> Lifecycle.HasResult(s'.tables, doc))
  }

  lemma WorkIsLater(s: Lifecycle.State, b: Lifecycle.Action)
    requires Lifecycle.Inv(s)
    ensures Later(s, Lifecycle.Step(s, b))
  {
    Lifecycle.StepKeepsInv(s, b);
    forall doc | Lifecycle.HasResult(s.tables, doc) ensures Lifecycle.HasResult(Lifecycle.Step(s, b).tables, doc) {
      Lifecycle.GrowsKeepsResults(s.tables, Lifecycle.Step(s, b).tables, doc);
    }
  }

  lemma PipeIsLater(env: Ingest.Env, s: Pipeline.State, a: Pipeline.Action)
    requires Pipeline.Inv(env, s)
    ensures Later(s.work, Pipeline.Step(env, s, a).work)
  {
    match a
    case Api(a) =>
      var rows, rows' := s.api.db.rows, Ingest.Step(env, s.api, a).db.rows;
      if |rows'| > |rows| { WorkIsLater(s.work, Lifecycle.Create(rows'[|rows|].id)); }
    case Work(b) => if !b.Create? { WorkIsLater(s.work, b); }
  }

  lemma LaterKeepsLinks(s: State, s': State)
    requires Linked(s) && Later(s.pipe.work, s'.pipe.work) && Carried(s'.pipe.api.log, s'.worker.tasks)
    requires s'.worker == s.worker && s'.calls == s.calls
    ensures Linked(s')
  {
    forall i | i in s'.calls ensures Called(s', i) { assert Called(s, i); }
    forall k | 0 <= k < |s'.worker.tasks| && HasFailed(s'.worker.tasks[k].phase) ensures RealFailure(s', k) {
      assert RealFailure(s, k);
    }
    forall doc | doc in s'.worker.results ensures Stored(s'.pipe.work.tables, doc) {
      assert Stored(s.pipe.work.tables, doc);
    }
  }

  lemma PipeKeepsInv(env: Ingest.Env, w: nat, start: map<nat, nat>, s: State, a: Pipeline.Action)
    requires Inv(env, w, start, s)
    ensures Inv(env, w, start, Step(env, s, Pipe(a)))
  {
    Pipeline.StepKeepsInv(env, s.pipe, a);
    PipeIsLater(env, s.pipe, a);
    if a.Api? { ApiKeepsCarried(env, s.pipe.api, a.a, s.worker.tasks); }
    LaterKeepsLinks(s, Step(env, s, Pipe(a)));
  }

  lemma CallKeepsInv(env: Ingest.Env, w: nat, start: map<nat, nat>, s: State, a: Action)
    requires Inv(env, w, start, s) && a.Call? && MayCall(s, a.i, a.h)
    ensures Inv(env, w, start, Step(env, s, a))
  {
    var deliver := Pipeline.Work(Lifecycle.Deliver(a.h, Made(s, a)));
    var mid := Step(env, s, Pipe(deliver));
    PipeKeepsInv(env, w, start, s, deliver);
    CallLinks(mid, Step(env, s, a), a.i, a.h);
  }

  lemma CallLinks(s: State, s': State, i: nat, h: nat)
    requires Linked(s) && i !in s.calls && s' == s.(calls := s.calls[i := h])
    requires Called(s', i) && !HasFailed(s.worker.tasks[i].phase)
    ensures Linked(s')
  {
    forall k | k in s'.calls ensures Called(s', k) {
      if k != i { assert Called(s, k); }
    }
    forall k | 0 <= k < |s'.worker.tasks| && HasFailed(s'.worker.tasks[k].phase) ensures RealFailure(s', k) {
      assert RealFailure(s, k);
    }
  }

  // ---------------------------------------------------------------- steps of the consumer

  lemma {:induction false} CreatedCarried(log: seq<Ingest.Record>, position: map<nat, nat>,
                                          answer: seq<Consumer.Messages>, number: nat)
    requires Reads(log, position, answer)
    ensures Carried(log, Consumer.Created(position, answer, number))
    decreases |answer|
  {
    if answer != [] {
      CreatedCarried(log, Consumer.Past(position, answer[0]), answer[1..], number);
    }
  }

  /** A step of the consumer that is no poll changes at most the phase of task `i`. */
  ghost predicate Moves(t: Consumer.State, t': Consumer.State, c: Consumer.Action, i: nat) {
    && i < |t.tasks| == |t'.tasks| && t'.tasks == t.tasks[i := t.tasks[i].(phase := t'.tasks[i].phase)]
    && (HasFailed(t'.tasks[i].phase) ==> HasFailed(t.tasks[i].phase) || (c.Fail? && c.i == i))
  }

  lemma FinishMoves(t: Consumer.State, c: Consumer.Action, i: nat, ph: Consumer.Phase)
    requires i < |t.tasks| && Consumer.Step(t, c).tasks == Consumer.Finish(t, i, ph).tasks
    requires HasFailed(ph) ==> HasFailed(t.tasks[i].phase) || (c.Fail? && c.i == i)
    ensures Moves(t, Consumer.Step(t, c), c, i)
  {}

  lemma HandlerMoves(t: Consumer.State, c: Consumer.Action)
    requires Consumer.OfHandler(c) && Consumer.Step(t, c) != t
    ensures Moves(t, Consumer.Step(t, c), c, c.i)
  {
    match c
    case Succeed(i) => FinishMoves(t, c, i, Consumer.Done);
    case Fail(i, noted) => if !noted { FinishMoves(t, c, i, Consumer.Counted); }
    case Note(i) => FinishMoves(t, c, i, Consumer.Counted);
    case Escape(i) => FinishMoves(t, c, i, Consumer.Escaped(t.tasks[i].phase.Failing?));
  }

  lemma BeginMoves(t: Consumer.State)
    requires Consumer.Step(t, Consumer.Begin) != t
    ensures Moves(t, Consumer.Step(t, Consumer.Begin), Consumer.Begin, t.queue[0])
  {}

  lemma OthersMoveNone(t: Consumer.State, c: Consumer.Action)
    requires !c.Poll? && !c.Begin? && !Consumer.OfHandler(c)
    ensures Consumer.Step(t, c).tasks == t.tasks
  {}

  lemma LoopMoves(t: Consumer.State, c: Consumer.Action)
    requires !c.Poll? && Consumer.Step(t, c).tasks != t.tasks
    ensures exists i :: Moves(t, Consumer.Step(t, c), c, i)
  {
    if c.Begin? {
      BeginMoves(t);
    } else if Consumer.OfHandler(c) {
      HandlerMoves(t, c);
    } else {
      OthersMoveNone(t, c);
    }
  }

  lemma PollTasks(t: Consumer.State, answer: seq<Consumer.Messages>)
    ensures var t' := Consumer.Step(t, Consumer.Poll(answer));
            && t'.results == t.results
            && (t'.tasks == t.tasks || t'.tasks == t.tasks + Consumer.Created(t.position, answer, t.batch + 1))
  {}

  lemma PollLinks(s: State, answer: seq<Consumer.Messages>)
    requires Linked(s) && Reads(s.pipe.api.log, s.worker.position, answer)
    ensures Linked(s.(worker := Consumer.Step(s.worker, Consumer.Poll(answer))))
  {
    var t, t' := s.worker, Consumer.Step(s.worker, Consumer.Poll(answer));
    var s' := s.(worker := t');
    CreatedCarried(s.pipe.api.log, t.position, answer, t.batch + 1);
    Consumer.CreatedWaits(t.position, answer, t.batch + 1);
    PollTasks(t, answer);
    forall i | i in s'.calls ensures Called(s', i) { assert Called(s, i); }
    forall k | 0 <= k < |t'.tasks| && HasFailed(t'.tasks[k].phase) ensures RealFailure(s', k) {
      assert k < |t.tasks| && RealFailure(s, k);
    }
  }

  lemma MovesLink(s: State, s': State, c: Consumer.Action, i: nat)
    requires Linked(s) && s' == s.(worker := s'.worker) && Moves(s.worker, s'.worker, c, i)
    requires c.Fail? ==> May(s, c)
    requires AllStored(s.pipe.work.tables, s'.worker.results)
    ensures Linked(s')
  {
    forall k | k in s'.calls ensures Called(s', k) { assert Called(s, k); }
    forall k | 0 <= k < |s'.worker.tasks| && HasFailed(s'.worker.tasks[k].phase) ensures RealFailure(s', k) {
      if HasFailed(s.worker.tasks[k].phase) { assert RealFailure(s, k); }
    }
  }

  lemma SameTasksLink(s: State, s': State)
    requires Linked(s) && s' == s.(worker := s'.worker) && s'.worker.tasks == s.worker.tasks
    requires AllStored(s.pipe.work.tables, s'.worker.results)
    ensures Linked(s')
  {
    forall k | k in s'.calls ensures Called(s', k) { assert Called(s, k); }
    forall k | 0 <= k < |s'.worker.tasks| && HasFailed(s'.worker.tasks[k].phase) ensures RealFailure(s', k) {
      assert RealFailure(s, k);
    }
  }

  lemma OwnLinks(s: State, s': State, c: Consumer.Action)
    requires Linked(s) && !c.Poll? && (c.Fail? ==> May(s, c)) && s' == s.(worker := Consumer.Step(s.worker, c))
    requires AllStored(s.pipe.work.tables, s'.worker.results)
    ensures Linked(s')
  {
    if s'.worker.tasks == s.worker.tasks {
      SameTasksLink(s, s');
    } else {
      LoopMoves(s.worker, c);
      var i :| Moves(s.worker, s'.worker, c, i);
      MovesLink(s, s', c, i);
    }
  }

  lemma ResultsGrow(t: Consumer.State, c: Consumer.Action)
    ensures Consumer.Step(t, c).results == t.results + if c.Save? then {c.doc} else {}
  {}

  /** The call of a task that succeeds has stored its document's result. */
  lemma ReturnedIsStored(s: State, i: nat)
    requires Calls(s) && Lifecycle.Finished(s.pipe.work) && CallIs(s, i, Lifecycle.Returned)
    ensures i < |s.worker.tasks| && Stored(s.pipe.work.tables, s.worker.tasks[i].doc)
  {
    assert Called(s, i);
  }

  lemma SucceedLinks(w: nat, start: map<nat, nat>, s: State, i: nat)
    requires Consumer.Inv(w, start, s.worker) && Linked(s) && Lifecycle.Finished(s.pipe.work)
    requires CallIs(s, i, Lifecycle.Returned)
    ensures var t' := Looped(s.worker, Consumer.Succeed(i));
            Consumer.Inv(w, start, t') && Linked(s.(worker := t'))
  {
    ReturnedIsStored(s, i);
    var save := Consumer.Save(s.worker.tasks[i].doc);
    StepLinks(w, start, s, save);
    StepLinks(w, start, s.(worker := Consumer.Step(s.worker, save)), Consumer.Succeed(i));
  }

  lemma LoopLinks(w: nat, start: map<nat, nat>, s: State, c: Consumer.Action)
    requires Consumer.Inv(w, start, s.worker) && Linked(s) && Lifecycle.Finished(s.pipe.work) && May(s, c)
    ensures var t' := Looped(s.worker, c); Consumer.Inv(w, start, t') && Linked(s.(worker := t'))
  {
    if c.Poll? {
      Consumer.StepKeepsInv(w, start, s.worker, c);
      PollLinks(s, c.batch);
    } else if c.Succeed? {
      SucceedLinks(w, start, s, c.i);
    } else {
      StepLinks(w, start, s, c);
    }
  }

  lemma StepLinks(w: nat, start: map<nat, nat>, s: State, c: Consumer.Action)
    requires Consumer.Inv(w, start, s.worker) && Linked(s) && !c.Poll? && (c.Fail? ==> May(s, c))
    requires c.Save? ==> Stored(s.pipe.work.tables, c.doc)
    ensures var s' := s.(worker := Consumer.Step(s.worker, c)); Consumer.Inv(w, start, s'.worker) && Linked(s')
  {
    Consumer.StepKeepsInv(w, start, s.worker, c);
    ResultsGrow(s.worker, c);
    OwnLinks(s, s.(worker := Consumer.Step(s.worker, c)), c);
  }

  lemma {:induction false} RunKeepsInv(env: Ingest.Env, w: nat, start: map<nat, nat>, actions: seq<Action>)
    ensures Inv(env, w, start, Run(env, Init(env, w, start), actions))
  {
    if actions == [] {
      Pipeline.RunKeepsInv(env, []);
      Consumer.RunKeepsInv(w, start, []);
    } else {
      var before, a := actions[..|actions| - 1], actions[|actions| - 1];
      var s := Run(env, Init(env, w, start), before);
      RunKeepsInv(env, w, start, before);
      match a
      case Pipe(b) => PipeKeepsInv(env, w, start, s, b);
      case Call(i, h, _, _) => if MayCall(s, i, h) { CallKeepsInv(env, w, start, s, a); }
      case Loop(c) => if May(s, c) { LoopLinks(w, start, s, c); }
    }
  }

  // ---------------------------------------------------------------- from the log to the results

  /** What became of the record that task `k` carries: its document's result is stored; or it is counted in
      `failed_jobs`, and then its call raised or could not be made; or an exception escaped from a handler of its
      batch. */
  ghost predicate Told(s: State, k: nat, e: Ingest.Record)
    requires k < |s.worker.tasks|
  {
    match s.worker.tasks[k].phase
    case Done => e.job.Document? && Lifecycle.HasResult(s.pipe.work.tables, e.job.id)
    case Counted => RealFailure(s, k)
    case _ => Consumer.BatchEscaped(s.worker.tasks, s.worker.tasks[k].batch)
  }

  ghost predicate Carries(s: State, k: nat, p: nat, o: nat) {
    k < |s.worker.tasks| && s.worker.tasks[k].partition == p && s.worker.tasks[k].offset == o
  }

  /** A record that the group's committed offset has passed is one of the log. */
  ghost predicate Passed(s: State, start: map<nat, nat>, p: nat, o: nat) {
    Consumer.At(start, p) <= o < Consumer.At(s.worker.committed, p)
  }

  /** End to end, over every interleaving of requests, transactions, tasks, handlers, errors, crashes and redeliveries:
      what lies below a committed offset is a record of the log, a task carried it, and what became of it is known. */
  lemma {:induction false} CommittedIsTold(env: Ingest.Env, w: nat, start: map<nat, nat>, actions: seq<Action>, p: nat,
                                           o: nat)
    requires Passed(Run(env, Init(env, w, start), actions), start, p, o)
    ensures var s := Run(env, Init(env, w, start), actions);
            && o < |PartitionLog(s.pipe.api.log, p)|
            && exists k :: Carries(s, k, p, o) && Told(s, k, PartitionLog(s.pipe.api.log, p)[o])
  {
    RunKeepsInv(env, w, start, actions);
    PassedIsTold(w, start, Run(env, Init(env, w, start), actions), p, o);
  }

  lemma PassedIsTold(w: nat, start: map<nat, nat>, s: State, p: nat, o: nat)
    requires Consumer.Inv(w, start, s.worker) && Linked(s) && Passed(s, start, p, o)
    ensures o < |PartitionLog(s.pipe.api.log, p)|
    ensures exists k :: Carries(s, k, p, o) && Told(s, k, PartitionLog(s.pipe.api.log, p)[o])
  {
    var k := Consumer.PassedIsAccounted(w, start, s.worker, p, o);
    var t := s.worker.tasks[k];
    assert Holds(s.pipe.api.log, p, o, t.doc);
    TaskIsTold(s, k, PartitionLog(s.pipe.api.log, p)[o]);
    assert Carries(s, k, p, o);
  }

  lemma TaskIsTold(s: State, k: nat, e: Ingest.Record)
    requires Linked(s) && Consumer.Accounted(s.worker, k) && s.worker.tasks[k].doc == Name(e.job)
    ensures Told(s, k, e)
  {
    if s.worker.tasks[k].phase.Done? {
      assert Stored(s.pipe.work.tables, s.worker.tasks[k].doc);
    }
  }

  lemma {:induction false} FailureCounts(tasks: seq<Consumer.Task>, k: nat)
    requires k < |tasks| && HasFailed(tasks[k].phase)
    ensures Consumer.Tally(tasks, Consumer.Fails) > 0
  {
    if k < |tasks| - 1 { FailureCounts(tasks[..|tasks| - 1], k); }
  }

  /** The row of a published document. */
  ghost predicate Published(s: State, e: Ingest.Record) {
    e.job.Document? && Intake.Row(e.job.id, e.key, e.agency, e.number) in s.pipe.api.db.rows
  }

  /** No failure was counted, and no exception escaped. */
  ghost predicate Faultless(t: Consumer.State) { t.failedJobs == 0 && Consumer.NoneEscaped(t) }

  /** A worker whose `failed_jobs` is zero and none of whose handlers let an exception escape has stored the result of
      every record below its committed offsets, and each of them is a document with a committed row. */
  lemma {:induction false} FaultlessStoresAll(env: Ingest.Env, w: nat, start: map<nat, nat>, actions: seq<Action>,
                                              p: nat, o: nat)
    requires var s := Run(env, Init(env, w, start), actions);
             Passed(s, start, p, o) && Faultless(s.worker)
    ensures var s := Run(env, Init(env, w, start), actions);
            && o < |PartitionLog(s.pipe.api.log, p)|
            && var e := PartitionLog(s.pipe.api.log, p)[o];
               Published(s, e) && Lifecycle.HasResult(s.pipe.work.tables, e.job.id)
  {
    var s := Run(env, Init(env, w, start), actions);
    RunKeepsInv(env, w, start, actions);
    PassedIsTold(w, start, s, p, o);
    var e := PartitionLog(s.pipe.api.log, p)[o];
    var k :| Carries(s, k, p, o) && Told(s, k, e);
    ToldIsStored(s, k, e);
    DocumentHasRow(env, s, e, p, o);
  }

  lemma ToldIsStored(s: State, k: nat, e: Ingest.Record)
    requires k < |s.worker.tasks| && Told(s, k, e) && Consumer.Counters(s.worker) && Faultless(s.worker)
    ensures e.job.Document? && Lifecycle.HasResult(s.pipe.work.tables, e.job.id)
  {
    if HasFailed(s.worker.tasks[k].phase) { FailureCounts(s.worker.tasks, k); }
  }

  lemma DocumentHasRow(env: Ingest.Env, s: State, e: Ingest.Record, p: nat, o: nat)
    requires Ingest.Inv(env, s.pipe.api) && e.job.Document?
    requires o < |PartitionLog(s.pipe.api.log, p)| && PartitionLog(s.pipe.api.log, p)[o] == e
    ensures Published(s, e)
  {
    PartitionIsLog(s.pipe.api.log, p, o);
    var i :| 0 <= i < |s.pipe.api.log| && s.pipe.api.log[i] == e;
    Publication.RecordIsRow(env, s.pipe.api, i);
  }

  lemma {:induction false} PartitionIsLog(log: seq<Ingest.Record>, p: nat, o: nat)
    requires o < |PartitionLog(log, p)|
    ensures exists i :: 0 <= i < |log| && log[i] == PartitionLog(log, p)[o]
  {
    var n := |log| - 1;
    if o < |PartitionLog(log[..n], p)| {
      PartitionIsLog(log[..n], p, o);
      var i :| 0 <= i < n && log[..n][i] == PartitionLog(log[..n], p)[o];
      assert log[i] == PartitionLog(log, p)[o];
    }
  }
}
