/** The worker's batch consumer: `WorkerBatchConsumer._consume_loop` and its `handle_record` tasks on one event loop.
    Code between two awaits is one atomic step. Tasks start in creation order and the semaphore serves its waiters in
    order. A step that is not enabled leaves the state as it is. */
module Consumer {

  /** One call of `handle_record`: `Waiting` for the semaphore, `Active` in the `try`, `Failing` in front of the
      PROCESSING_FAILED event. The last three are over: the record was processed, it was counted in `failed_jobs`, or
      an exception escaped from the handler, before or after counting. */
  datatype Phase =
    | Waiting
    | Active
    | Failing
    | Done
    | Counted
    | Escaped(counted: bool)

  datatype Task = Task(partition: nat, offset: nat, doc: nat, batch: nat, phase: Phase)

  datatype Loop = Polling | Gathering | Committing | Stopped

  /** The records of one partition in the answer to a poll, by their document ids. */
  datatype Messages = Messages(partition: nat, docs: seq<nat>)

  datatype State = State(
    tasks: seq<Task>,
    queue: seq<nat>,
    permits: nat,
    activeJobs: int,
    processedJobs: int,
    failedJobs: int,
    busy: bool,
    loop: Loop,
    batch: nat,
    position: map<nat, nat>,
    committed: map<nat, nat>,
    results: set<nat>)

  datatype Action =
    | Poll(batch: seq<Messages>)
    | Begin
    | Save(doc: nat)
    | Succeed(i: nat)
    | Fail(i: nat, noted: bool)
    | Note(i: nat)
    | Escape(i: nat)
    | GatherReturns
    | GatherRaises
    | Commit(ok: bool)
    | Stop

  predicate Over(ph: Phase) { ph.Done? || ph.Counted? || ph.Escaped? }

  function At(m: map<nat, nat>, p: nat): nat { if p in m then m[p] else 0 }

  function Interval(lo: nat, hi: nat): seq<nat> {
    if lo >= hi then [] else seq(hi - lo, i requires 0 <= i < hi - lo => lo + i)
  }

  function MaxZero(x: int): int { if x < 0 then 0 else x }

  function Init(w: nat, start: map<nat, nat>): State {
    State([], [], w, 0, 0, 0, false, Polling, 0, start, start, {})
  }

  function TasksOf(p: nat, offset: nat, docs: seq<nat>, batch: nat): seq<Task> {
    seq(|docs|, i requires 0 <= i < |docs| => Task(p, offset + i, docs[i], batch, Waiting))
  }

  /** The positions after a partition's records. */
  function Past(position: map<nat, nat>, m: Messages): map<nat, nat> {
    position[m.partition := At(position, m.partition) + |m.docs|]
  }

  lemma PastAt(position: map<nat, nat>, m: Messages, p: nat)
    ensures At(Past(position, m), p) == At(position, p) + if p == m.partition then |m.docs| else 0
  {}

  /** One task per record, partition by partition in the order of the answer. */
  function Created(position: map<nat, nat>, batch: seq<Messages>, number: nat): seq<Task>
    decreases |batch|
  {
    if batch == [] then []
    else
      var m := batch[0];
      TasksOf(m.partition, At(position, m.partition), m.docs, number)
      + Created(Past(position, m), batch[1..], number)
  }

  function Advanced(position: map<nat, nat>, batch: seq<Messages>): map<nat, nat>
    decreases |batch|
  {
    if batch == [] then position
    else
      var m := batch[0];
      Advanced(Past(position, m), batch[1..])
  }

  function SetPhase(s: State, i: nat, ph: Phase): State
    requires i < |s.tasks|
  {
    s.(tasks := s.tasks[i := s.tasks[i].(phase := ph)])
  }

  /** The `finally` block and the release of the semaphore. */
  function Finish(s: State, i: nat, ph: Phase): State
    requires i < |s.tasks|
  {
    SetPhase(s, i, ph).(activeJobs := MaxZero(s.activeJobs - 1), busy := false, permits := s.permits + 1)
  }

  predicate Is(s: State, i: nat, ph: Phase) { i < |s.tasks| && s.tasks[i].phase == ph }

  /** `asyncio.gather` returns when every task of the batch is over without an exception ... */
  predicate Clean(tasks: seq<Task>, batch: nat) {
    tasks == []
    || (var last := tasks[|tasks| - 1];
        (last.batch == batch ==> last.phase.Done? || last.phase.Counted?) && Clean(tasks[..|tasks| - 1], batch))
  }

  /** ... and raises as soon as one of them has raised, while the others go on. */
  predicate Escapes(tasks: seq<Task>, batch: nat) {
    tasks != []
    && (var last := tasks[|tasks| - 1];
        (last.batch == batch && last.phase.Escaped?) || Escapes(tasks[..|tasks| - 1], batch))
  }

  ghost predicate BatchEscaped(tasks: seq<Task>, batch: nat) {
    exists i :: 0 <= i < |tasks| && tasks[i].batch == batch && tasks[i].phase.Escaped?
  }

  /** Whether `gather` has returned or raised. */
  predicate Resolves(tasks: seq<Task>, batch: nat) { Clean(tasks, batch) || Escapes(tasks, batch) }

  lemma {:induction false} CleanMeans(tasks: seq<Task>, batch: nat, i: nat)
    requires Clean(tasks, batch) && i < |tasks| && tasks[i].batch == batch
    ensures tasks[i].phase.Done? || tasks[i].phase.Counted?
  {
    if i < |tasks| - 1 { CleanMeans(tasks[..|tasks| - 1], batch, i); }
  }

  /** Every task of the batch was processed or counted as failed. */
  ghost predicate BatchDone(tasks: seq<Task>, batch: nat) {
    forall i :: 0 <= i < |tasks| && tasks[i].batch == batch ==> tasks[i].phase.Done? || tasks[i].phase.Counted?
  }

  lemma {:induction false} CleanIffDone(tasks: seq<Task>, batch: nat)
    ensures Clean(tasks, batch) <==> BatchDone(tasks, batch)
  {
    if tasks != [] {
      var n := |tasks| - 1;
      CleanIffDone(tasks[..n], batch);
      assert forall i :: 0 <= i < n ==> tasks[..n][i] == tasks[i];
    }
  }

  lemma {:induction false} EscapesMeans(tasks: seq<Task>, batch: nat)
    ensures Escapes(tasks, batch) <==> BatchEscaped(tasks, batch)
  {
    if tasks != [] {
      var n := |tasks| - 1;
      EscapesMeans(tasks[..n], batch);
      if BatchEscaped(tasks[..n], batch) {
        var i :| 0 <= i < n && tasks[..n][i].batch == batch && tasks[..n][i].phase.Escaped?;
        assert tasks[i].phase.Escaped?;
      }
      if i :| 0 <= i < |tasks| && tasks[i].batch == batch && tasks[i].phase.Escaped? && i < n {
        assert tasks[..n][i].phase.Escaped?;
      }
    }
  }

  function Step(s: State, a: Action): State {
    match a
    case Poll(batch) =>
      if !s.loop.Polling? || batch == [] then s
      else
        var created := Created(s.position, batch, s.batch + 1);
        s.(tasks := s.tasks + created,
           queue := s.queue + Interval(|s.tasks|, |s.tasks| + |created|),
           position := Advanced(s.position, batch),
           batch := s.batch + 1,
           loop := if created == [] then Committing else Gathering)
    case Begin =>
      if s.queue == [] || s.permits == 0 || s.queue[0] >= |s.tasks| then s
      else
        SetPhase(s, s.queue[0], Active)
        .(queue := s.queue[1..], permits := s.permits - 1, activeJobs := s.activeJobs + 1, busy := true)
    case Save(doc) => s.(results := s.results + {doc})
    case Succeed(i) =>
      if !Is(s, i, Active) || s.tasks[i].doc !in s.results then s
      else Finish(s, i, Done).(processedJobs := s.processedJobs + 1)
    case Fail(i, noted) =>
      if !Is(s, i, Active) then s
      else if noted then SetPhase(s, i, Failing).(failedJobs := s.failedJobs + 1)
      else Finish(s, i, Counted).(failedJobs := s.failedJobs + 1)
    case Note(i) => if !Is(s, i, Failing) then s else Finish(s, i, Counted)
    case Escape(i) =>
      if Is(s, i, Active) then Finish(s, i, Escaped(false))
      else if Is(s, i, Failing) then Finish(s, i, Escaped(true))
      else s
    case GatherReturns => if s.loop.Gathering? && Clean(s.tasks, s.batch) then s.(loop := Committing) else s
    case GatherRaises => if s.loop.Gathering? && Escapes(s.tasks, s.batch) then s.(loop := Polling) else s
    case Commit(ok) =>
      if !s.loop.Committing? then s else s.(loop := Polling, committed := if ok then s.position else s.committed)
    case Stop => s.(loop := Stopped)
  }

  function Run(s: State, actions: seq<Action>): State {
    if actions == [] then s else Step(Run(s, actions[..|actions| - 1]), actions[|actions| - 1])
  }

  lemma {:induction false} RunSnoc(s: State, xs: seq<Action>, a: Action)
    ensures Run(s, xs + [a]) == Step(Run(s, xs), a)
  {
    assert (xs + [a])[..|xs|] == xs;
  }

  lemma {:induction false} RunConcat(s: State, xs: seq<Action>, ys: seq<Action>)
    ensures Run(s, xs + ys) == Run(Run(s, xs), ys)
  {
    if ys == [] {
      assert xs + ys == xs;
    } else {
      var init, last := ys[..|ys| - 1], ys[|ys| - 1];
      assert xs + ys == (xs + init) + [last] && ys == init + [last];
      RunSnoc(s, xs + init, last);
      RunSnoc(Run(s, xs), init, last);
      RunConcat(s, xs, init);
    }
  }

  // ---------------------------------------------------------------- tallies

  function Tally(tasks: seq<Task>, weight: Phase -> nat): nat {
    if tasks == [] then 0 else Tally(tasks[..|tasks| - 1], weight) + weight(tasks[|tasks| - 1].phase)
  }

  function Runs(ph: Phase): nat { if ph.Active? || ph.Failing? then 1 else 0 }
  function Dones(ph: Phase): nat { if ph.Done? then 1 else 0 }
  function Fails(ph: Phase): nat { if ph.Failing? || ph.Counted? || ph == Escaped(true) then 1 else 0 }
  function Opens(ph: Phase): nat { if Over(ph) then 0 else 1 }

  lemma {:induction false} TallyUpdate(tasks: seq<Task>, weight: Phase -> nat, i: nat, ph: Phase)
    requires i < |tasks|
    ensures Tally(tasks[i := tasks[i].(phase := ph)], weight) + weight(tasks[i].phase) ==
            Tally(tasks, weight) + weight(ph)
  {
    var n := |tasks| - 1;
    var changed := tasks[i := tasks[i].(phase := ph)];
    if i == n {
      assert changed[..n] == tasks[..n];
    } else {
      assert changed[..n] == tasks[..n][i := tasks[i].(phase := ph)];
      TallyUpdate(tasks[..n], weight, i, ph);
    }
  }

  lemma {:induction false} TallyConcat(xs: seq<Task>, ys: seq<Task>, weight: Phase -> nat)
    ensures Tally(xs + ys, weight) == Tally(xs, weight) + Tally(ys, weight)
  {
    if ys == [] {
      assert xs + ys == xs;
    } else {
      var zs := xs + ys;
      assert zs[..|zs| - 1] == xs + ys[..|ys| - 1];
      TallyConcat(xs, ys[..|ys| - 1], weight);
    }
  }

  lemma {:induction false} TallyAll(tasks: seq<Task>, weight: Phase -> nat, v: nat)
    requires v <= 1 && forall i :: 0 <= i < |tasks| ==> weight(tasks[i].phase) == v
    ensures Tally(tasks, weight) == v * |tasks|
  {
    if tasks != [] { TallyAll(tasks[..|tasks| - 1], weight, v); }
  }

  /** Sum of two tallies, weight by weight. */
  lemma {:induction false} TallySum(tasks: seq<Task>, f: Phase -> nat, g: Phase -> nat, h: Phase -> nat)
    requires forall i :: 0 <= i < |tasks| ==> f(tasks[i].phase) + g(tasks[i].phase) == h(tasks[i].phase)
    ensures Tally(tasks, f) + Tally(tasks, g) == Tally(tasks, h)
  {
    if tasks != [] { TallySum(tasks[..|tasks| - 1], f, g, h); }
  }

  // ---------------------------------------------------------------- what a poll creates

  /** Tasks that wait, of batch `number`, at or past the given positions. */
  ghost predicate AllNew(created: seq<Task>, position: map<nat, nat>, number: nat) {
    forall i :: 0 <= i < |created| ==>
      created[i].phase.Waiting? && created[i].batch == number && created[i].offset >= At(position, created[i].partition)
  }

  lemma {:induction false} CreatedWaits(position: map<nat, nat>, batch: seq<Messages>, number: nat)
    ensures AllNew(Created(position, batch, number), position, number)
    decreases |batch|
  {
    if batch != [] {
      var m := batch[0];
      var first := TasksOf(m.partition, At(position, m.partition), m.docs, number);
      var rest := Created(Past(position, m), batch[1..], number);
      CreatedWaits(Past(position, m), batch[1..], number);
      NewAlsoBefore(rest, position, m, number);
      assert AllNew(first, position, number);
    }
  }

  lemma {:induction false} NewAlsoBefore(rest: seq<Task>, position: map<nat, nat>, m: Messages, number: nat)
    requires AllNew(rest, Past(position, m), number)
    ensures AllNew(rest, position, number)
  {
    forall i | 0 <= i < |rest| ensures rest[i].offset >= At(position, rest[i].partition) {
      PastAt(position, m, rest[i].partition);
    }
  }

  /** The offsets of one partition's records, in task order. */
  function OffsetsOf(tasks: seq<Task>, p: nat): seq<nat> {
    if tasks == [] then []
    else
      var rest := OffsetsOf(tasks[..|tasks| - 1], p);
      if tasks[|tasks| - 1].partition == p then rest + [tasks[|tasks| - 1].offset] else rest
  }

  lemma {:induction false} OffsetsConcat(xs: seq<Task>, ys: seq<Task>, p: nat)
    ensures OffsetsOf(xs + ys, p) == OffsetsOf(xs, p) + OffsetsOf(ys, p)
  {
    if ys == [] {
      assert xs + ys == xs;
    } else {
      var zs := xs + ys;
      assert zs[..|zs| - 1] == xs + ys[..|ys| - 1];
      OffsetsConcat(xs, ys[..|ys| - 1], p);
    }
  }

  lemma {:induction false} OffsetsOfTasks(q: nat, offset: nat, docs: seq<nat>, number: nat, p: nat)
    ensures OffsetsOf(TasksOf(q, offset, docs, number), p) == if p == q then Interval(offset, offset + |docs|) else []
  {
    if docs != [] {
      var n := |docs| - 1;
      assert TasksOf(q, offset, docs, number)[..n] == TasksOf(q, offset, docs[..n], number);
      OffsetsOfTasks(q, offset, docs[..n], number, p);
    }
  }

  lemma IntervalJoin(lo: nat, mid: nat, hi: nat)
    requires lo <= mid <= hi
    ensures Interval(lo, mid) + Interval(mid, hi) == Interval(lo, hi)
  {}

  lemma {:induction false} CreatedOffsets(position: map<nat, nat>, batch: seq<Messages>, number: nat, p: nat)
    ensures At(position, p) <= At(Advanced(position, batch), p)
    ensures OffsetsOf(Created(position, batch, number), p) ==
            Interval(At(position, p), At(Advanced(position, batch), p))
    decreases |batch|
  {
    if batch != [] {
      var m := batch[0];
      var first := TasksOf(m.partition, At(position, m.partition), m.docs, number);
      var rest := Created(Past(position, m), batch[1..], number);
      CreatedOffsets(Past(position, m), batch[1..], number, p);
      OffsetsConcat(first, rest, p);
      OffsetsOfTasks(m.partition, At(position, m.partition), m.docs, number, p);
      PastAt(position, m, p);
      IntervalJoin(At(position, p), At(Past(position, m), p), At(Advanced(position, batch), p));
    }
  }

  lemma {:induction false} OffsetsKeepPhase(tasks: seq<Task>, i: nat, ph: Phase, p: nat)
    requires i < |tasks|
    ensures OffsetsOf(tasks[i := tasks[i].(phase := ph)], p) == OffsetsOf(tasks, p)
  {
    var n := |tasks| - 1;
    var changed := tasks[i := tasks[i].(phase := ph)];
    if i == n {
      assert changed[..n] == tasks[..n];
    } else {
      assert changed[..n] == tasks[..n][i := tasks[i].(phase := ph)];
      OffsetsKeepPhase(tasks[..n], i, ph, p);
    }
  }

  lemma {:induction false} OffsetIsTask(tasks: seq<Task>, p: nat, o: nat)
    requires o in OffsetsOf(tasks, p)
    ensures exists k :: 0 <= k < |tasks| && tasks[k].partition == p && tasks[k].offset == o
  {
    var n := |tasks| - 1;
    if !(tasks[n].partition == p && tasks[n].offset == o) {
      OffsetIsTask(tasks[..n], p, o);
      var k :| 0 <= k < n && tasks[..n][k].partition == p && tasks[..n][k].offset == o;
      assert tasks[k].offset == o;
    }
  }

  lemma {:induction false} TaskIsOffset(tasks: seq<Task>, k: nat)
    requires k < |tasks|
    ensures tasks[k].offset in OffsetsOf(tasks, tasks[k].partition)
  {
    if k < |tasks| - 1 { TaskIsOffset(tasks[..|tasks| - 1], k); }
  }

  // ---------------------------------------------------------------- the invariant

  /** Semaphore slots are conserved, and `active_jobs` counts exactly the running handlers. */
  ghost predicate Slots(w: nat, s: State) {
    && s.permits + Tally(s.tasks, Runs) == w
    && s.activeJobs == Tally(s.tasks, Runs)
    && (s.busy ==> s.activeJobs > 0)
  }

  /** The queue holds exactly the tasks not started yet, in order: the started tasks are a prefix. */
  ghost predicate Fifo(s: State) {
    && |s.queue| <= |s.tasks|
    && s.queue == Interval(|s.tasks| - |s.queue|, |s.tasks|)
    && forall k :: 0 <= k < |s.tasks| ==> (s.tasks[k].phase.Waiting? <==> k >= |s.tasks| - |s.queue|)
  }

  ghost predicate Counters(s: State) {
    s.processedJobs == Tally(s.tasks, Dones) && s.failedJobs == Tally(s.tasks, Fails)
  }

  /** Every polled record has exactly one task, in offset order. */
  ghost predicate Placed(start: map<nat, nat>, s: State) {
    forall p :: At(start, p) <= At(s.committed, p) <= At(s.position, p)
                && OffsetsOf(s.tasks, p) == Interval(At(start, p), At(s.position, p))
  }

  ghost predicate Saved(s: State) {
    forall k :: 0 <= k < |s.tasks| && s.tasks[k].phase.Done? ==> s.tasks[k].doc in s.results
  }

  /** Task `k` is over, or shares its batch with a task whose exception escaped. */
  ghost predicate Settled(tasks: seq<Task>, k: nat)
    requires k < |tasks|
  {
    Over(tasks[k].phase) || BatchEscaped(tasks, tasks[k].batch)
  }

  ghost predicate Below(s: State, k: nat)
    requires k < |s.tasks|
  {
    s.tasks[k].offset < At(s.committed, s.tasks[k].partition)
  }

  /** The batches the loop has left, and everything below a committed offset. */
  ghost predicate Batches(s: State) {
    forall k :: 0 <= k < |s.tasks| ==>
                  && s.tasks[k].batch <= s.batch
                  && (s.tasks[k].batch < s.batch || s.loop.Polling? || s.loop.Committing? || Below(s, k) ==>
                        Settled(s.tasks, k))
  }

  /** Once the last task is over there is a free slot. */
  ghost predicate Freed(s: State) {
    s.queue == [] && s.tasks != [] && Over(s.tasks[|s.tasks| - 1].phase) ==> s.permits > 0
  }

  /** A batch being committed has left nothing in the queue. */
  ghost predicate Drained(s: State) {
    s.loop.Committing? && s.tasks != [] && s.tasks[|s.tasks| - 1].batch == s.batch ==>
      Over(s.tasks[|s.tasks| - 1].phase)
  }

  ghost predicate Inv(w: nat, start: map<nat, nat>, s: State) {
    Slots(w, s) && Fifo(s) && Counters(s) && Placed(start, s) && Saved(s) && Batches(s) && Freed(s) && Drained(s)
  }

  lemma {:induction false} RunningCounts(tasks: seq<Task>, i: nat)
    requires i < |tasks| && Runs(tasks[i].phase) == 1
    ensures Tally(tasks, Runs) > 0
  {
    if i < |tasks| - 1 { RunningCounts(tasks[..|tasks| - 1], i); }
  }

  /** How one task may change phase: it begins, fails, or ends. */
  ghost predicate Progress(s: State, s': State, i: nat) {
    && i < |s.tasks| == |s'.tasks| && s'.tasks == s.tasks[i := s.tasks[i].(phase := s'.tasks[i].phase)]
    && !Over(s.tasks[i].phase) && !s'.tasks[i].phase.Waiting?
    && s'.loop == s.loop && s'.batch == s.batch && s'.position == s.position && s'.committed == s.committed
    && s.results <= s'.results && (s'.tasks[i].phase.Done? ==> s.tasks[i].doc in s'.results)
  }

  lemma ProgressKeeps(start: map<nat, nat>, s: State, s': State, i: nat)
    requires Progress(s, s', i) && Placed(start, s) && Saved(s) && Batches(s)
    ensures Placed(start, s') && Saved(s') && Batches(s')
  {
    forall p ensures OffsetsOf(s'.tasks, p) == OffsetsOf(s.tasks, p) {
      OffsetsKeepPhase(s.tasks, i, s'.tasks[i].phase, p);
    }
    forall k | 0 <= k < |s.tasks| && Settled(s.tasks, k) ensures Settled(s'.tasks, k) {
      if !Over(s.tasks[k].phase) {
        var j :| 0 <= j < |s.tasks| && s.tasks[j].batch == s.tasks[k].batch && s.tasks[j].phase.Escaped?;
        assert s'.tasks[j] == s.tasks[j];
      }
    }
    assert forall k :: 0 <= k < |s.tasks| ==> (Below(s', k) <==> Below(s, k));
  }

  lemma TalliesMove(s: State, s': State, i: nat)
    requires Progress(s, s', i)
    ensures Tally(s'.tasks, Runs) + Runs(s.tasks[i].phase) == Tally(s.tasks, Runs) + Runs(s'.tasks[i].phase)
    ensures Tally(s'.tasks, Dones) + Dones(s.tasks[i].phase) == Tally(s.tasks, Dones) + Dones(s'.tasks[i].phase)
    ensures Tally(s'.tasks, Fails) + Fails(s.tasks[i].phase) == Tally(s.tasks, Fails) + Fails(s'.tasks[i].phase)
  {
    var ph := s'.tasks[i].phase;
    TallyUpdate(s.tasks, Runs, i, ph);
    TallyUpdate(s.tasks, Dones, i, ph);
    TallyUpdate(s.tasks, Fails, i, ph);
  }

  lemma BeginKeepsInv(w: nat, start: map<nat, nat>, s: State)
    requires Inv(w, start, s)
    ensures Inv(w, start, Step(s, Begin))
  {
    var s' := Step(s, Begin);
    if s' != s {
      var i := s.queue[0];
      BeginProgress(s);
      ProgressKeeps(start, s, s', i);
      BeginKeepsSlots(w, s, s', i);
      BeginKeepsFifo(s, s', i);
    }
  }

  lemma BeginProgress(s: State)
    requires Fifo(s) && Step(s, Begin) != s
    ensures var s', i := Step(s, Begin), s.queue[0];
            && Progress(s, s', i) && s.tasks[i].phase.Waiting? && s'.tasks[i].phase.Active?
            && s.queue != [] && s'.queue == s.queue[1..] && i == |s.tasks| - |s.queue|
            && s.permits == s'.permits + 1 && s'.activeJobs == s.activeJobs + 1
            && s'.processedJobs == s.processedJobs && s'.failedJobs == s.failedJobs
  {}

  lemma BeginKeepsSlots(w: nat, s: State, s': State, i: nat)
    requires Slots(w, s) && Counters(s) && Progress(s, s', i) && s.tasks[i].phase.Waiting? && s'.tasks[i].phase.Active?
    requires s.permits == s'.permits + 1 && s'.activeJobs == s.activeJobs + 1
    requires s'.processedJobs == s.processedJobs && s'.failedJobs == s.failedJobs
    ensures Slots(w, s') && Counters(s')
  {
    TalliesMove(s, s', i);
  }

  lemma BeginKeepsFifo(s: State, s': State, i: nat)
    requires Fifo(s) && Freed(s) && Drained(s) && Progress(s, s', i) && s'.tasks[i].phase.Active?
    requires s.queue != [] && s'.queue == s.queue[1..] && i == |s.tasks| - |s.queue|
    ensures Fifo(s') && Freed(s') && Drained(s')
  {
    assert s'.queue == Interval(|s'.tasks| - |s'.queue|, |s'.tasks|);
  }

  /** The steps of one running handler. */
  predicate OfHandler(a: Action) { a.Succeed? || a.Fail? || a.Note? || a.Escape? }

  lemma HandlerKeepsInv(w: nat, start: map<nat, nat>, s: State, a: Action)
    requires Inv(w, start, s) && OfHandler(a)
    ensures Inv(w, start, Step(s, a))
  {
    var s' := Step(s, a);
    if s' != s {
      HandlerProgress(w, s, a);
      ProgressKeeps(start, s, s', a.i);
      HandlerKeepsQueue(s, s', a.i);
    }
  }

  lemma HandlerProgress(w: nat, s: State, a: Action)
    requires Slots(w, s) && Counters(s) && OfHandler(a) && Step(s, a) != s
    ensures var s' := Step(s, a);
            && Progress(s, s', a.i) && s'.queue == s.queue && !s.tasks[a.i].phase.Waiting?
            && Slots(w, s') && Counters(s') && (Over(s'.tasks[a.i].phase) ==> s'.permits > 0) && s'.permits >= s.permits
  {
    HandlerStep(s, a);
    RunningCounts(s.tasks, a.i);
    TalliesMove(s, Step(s, a), a.i);
  }

  /** What a running handler's own step leaves: it goes on running, or ends and gives its slot back. */
  ghost predicate Ran(s: State, s': State, i: nat) {
    && Progress(s, s', i) && s'.queue == s.queue && Runs(s.tasks[i].phase) == 1
    && (if Over(s'.tasks[i].phase)
        then s'.permits == s.permits + 1 && s'.activeJobs == MaxZero(s.activeJobs - 1) && !s'.busy
        else s'.permits == s.permits && s'.activeJobs == s.activeJobs && s'.busy == s.busy)
  }

  lemma FinishRan(s: State, s': State, i: nat, ph: Phase)
    requires i < |s.tasks| && Runs(s.tasks[i].phase) == 1 && Over(ph) && (ph.Done? ==> s.tasks[i].doc in s.results)
    requires var f := Finish(s, i, ph); s' == f.(processedJobs := s'.processedJobs, failedJobs := s'.failedJobs)
    ensures Ran(s, s', i) && s'.tasks[i].phase == ph
  {}

  lemma HandlerStep(s: State, a: Action)
    requires OfHandler(a) && Step(s, a) != s
    ensures var s' := Step(s, a);
            && Ran(s, s', a.i)
            && s'.processedJobs - s.processedJobs == Dones(s'.tasks[a.i].phase)
            && s'.failedJobs - s.failedJobs == Fails(s'.tasks[a.i].phase) - Fails(s.tasks[a.i].phase)
  {
    var s' := Step(s, a);
    match a
    case Succeed(i) => FinishRan(s, s', i, Done);
    case Fail(i, noted) => if !noted { FinishRan(s, s', i, Counted); }
    case Note(i) => FinishRan(s, s', i, Counted);
    case Escape(i) => FinishRan(s, s', i, Escaped(s.tasks[i].phase.Failing?));
  }

  lemma HandlerKeepsQueue(s: State, s': State, i: nat)
    requires Progress(s, s', i) && !s.tasks[i].phase.Waiting? && s'.queue == s.queue
    requires (Over(s'.tasks[i].phase) ==> s'.permits > 0) && s'.permits >= s.permits
    requires Fifo(s) && Freed(s) && Drained(s)
    ensures Fifo(s') && Freed(s') && Drained(s')
  {}

  lemma {:induction false} PollKeepsInv(w: nat, start: map<nat, nat>, s: State, batch: seq<Messages>)
    requires Inv(w, start, s)
    ensures Inv(w, start, Step(s, Poll(batch)))
  {
    var s' := Step(s, Poll(batch));
    if s' != s {
      var created := Created(s.position, batch, s.batch + 1);
      CreatedWaits(s.position, batch, s.batch + 1);
      PollKeepsTallies(s.tasks, created);
      PollKeepsFifo(s, s', created);
      PollKeepsPlaced(start, s, batch);
      PollKeepsBatches(s, s', created);
      PollKeepsRest(s, s', created);
    }
  }

  lemma {:induction false} PollKeepsRest(s: State, s': State, created: seq<Task>)
    requires Saved(s) && Freed(s) && Batches(s) && s'.tasks == s.tasks + created && s'.results == s.results
    requires s'.permits == s.permits
    requires AllNew(created, s.position, s.batch + 1) && s'.batch == s.batch + 1
    requires (created == [] <==> s'.loop == Committing)
    requires s'.queue == s.queue + Interval(|s.tasks|, |s.tasks| + |created|)
    ensures Saved(s') && Freed(s') && Drained(s')
  {
    if created == [] { assert s'.tasks == s.tasks; }
  }

  lemma {:induction false} PollKeepsTallies(tasks: seq<Task>, created: seq<Task>)
    requires forall i :: 0 <= i < |created| ==> created[i].phase.Waiting?
    ensures Tally(tasks + created, Runs) == Tally(tasks, Runs)
    ensures Tally(tasks + created, Dones) == Tally(tasks, Dones)
    ensures Tally(tasks + created, Fails) == Tally(tasks, Fails)
  {
    TallyConcat(tasks, created, Runs);
    TallyConcat(tasks, created, Dones);
    TallyConcat(tasks, created, Fails);
    TallyAll(created, Runs, 0);
    TallyAll(created, Dones, 0);
    TallyAll(created, Fails, 0);
  }

  lemma {:induction false} PollKeepsFifo(s: State, s': State, created: seq<Task>)
    requires Fifo(s) && s'.tasks == s.tasks + created
    requires s'.queue == s.queue + Interval(|s.tasks|, |s.tasks| + |created|)
    requires forall i :: 0 <= i < |created| ==> created[i].phase.Waiting?
    ensures Fifo(s')
  {}

  lemma {:induction false} PollKeepsPlaced(start: map<nat, nat>, s: State, batch: seq<Messages>)
    requires Placed(start, s) && s.loop.Polling? && batch != []
    ensures Placed(start, Step(s, Poll(batch)))
  {
    var s' := Step(s, Poll(batch));
    forall p ensures At(start, p) <= At(s'.committed, p) <= At(s'.position, p)
                && OffsetsOf(s'.tasks, p) == Interval(At(start, p), At(s'.position, p))
    {
      CreatedOffsets(s.position, batch, s.batch + 1, p);
      OffsetsConcat(s.tasks, Created(s.position, batch, s.batch + 1), p);
      IntervalJoin(At(start, p), At(s.position, p), At(s'.position, p));
    }
  }

  lemma {:induction false} PollKeepsBatches(s: State, s': State, created: seq<Task>)
    requires Batches(s) && s.loop.Polling? && s'.batch == s.batch + 1 && s'.tasks == s.tasks + created
    requires s'.committed == s.committed && (s'.loop == if created == [] then Committing else Gathering)
    requires forall p :: At(s.committed, p) <= At(s.position, p)
    requires AllNew(created, s.position, s.batch + 1)
    ensures Batches(s')
  {
    forall k | 0 <= k < |s.tasks| ensures Settled(s'.tasks, k) {
      assert Settled(s.tasks, k) && s'.tasks[k] == s.tasks[k];
      if !Over(s.tasks[k].phase) {
        var j :| 0 <= j < |s.tasks| && s.tasks[j].batch == s.tasks[k].batch && s.tasks[j].phase.Escaped?;
        assert s'.tasks[j] == s.tasks[j];
      }
    }
    forall k | |s.tasks| <= k < |s'.tasks| ensures s'.tasks[k].batch == s'.batch && !Below(s', k) {
      assert s'.tasks[k] == created[k - |s.tasks|];
    }
  }

  /** The loop's own steps leave the tasks alone. */
  ghost predicate Spares(s: State, s': State) {
    && s'.tasks == s.tasks && s'.queue == s.queue && s'.permits == s.permits && s'.activeJobs == s.activeJobs
    && s'.busy == s.busy && s'.processedJobs == s.processedJobs && s'.failedJobs == s.failedJobs
    && s.results <= s'.results
  }

  lemma LoopSpares(s: State, a: Action)
    requires a.Save? || a.GatherReturns? || a.GatherRaises? || a.Commit? || a.Stop?
    ensures Spares(s, Step(s, a))
  {}

  lemma LoopKeepsInv(w: nat, start: map<nat, nat>, s: State, a: Action)
    requires Inv(w, start, s) && (a.Save? || a.GatherReturns? || a.GatherRaises? || a.Commit? || a.Stop?)
    ensures Inv(w, start, Step(s, a))
  {
    var s' := Step(s, a);
    LoopKeepsBatches(s, a);
    LoopKeepsPlaced(start, s, a);
    LoopKeepsDrained(s, a);
    LoopSpares(s, a);
    SameTasks(w, s, s');
  }

  lemma LoopKeepsDrained(s: State, a: Action)
    requires Drained(s) && (a.Save? || a.GatherReturns? || a.GatherRaises? || a.Commit? || a.Stop?)
    ensures Drained(Step(s, a))
  {
    var s' := Step(s, a);
    assert s'.tasks == s.tasks && s'.batch == s.batch;
    if a.GatherReturns? && s' != s && s.tasks != [] && s.tasks[|s.tasks| - 1].batch == s.batch {
      CleanMeans(s.tasks, s.batch, |s.tasks| - 1);
    }
  }

  lemma SameTasks(w: nat, s: State, s': State)
    requires Slots(w, s) && Fifo(s) && Counters(s) && Saved(s) && Freed(s)
    requires Spares(s, s')
    ensures Slots(w, s') && Fifo(s') && Counters(s') && Saved(s') && Freed(s')
  {}

  lemma LoopKeepsPlaced(start: map<nat, nat>, s: State, a: Action)
    requires Placed(start, s) && (a.Save? || a.GatherReturns? || a.GatherRaises? || a.Commit? || a.Stop?)
    ensures Placed(start, Step(s, a))
  {
    var s' := Step(s, a);
    assert s'.tasks == s.tasks && s'.position == s.position;
    assert s'.committed == s.committed || s'.committed == s.position;
  }

  lemma LoopKeepsBatches(s: State, a: Action)
    requires Batches(s) && (a.Save? || a.GatherReturns? || a.GatherRaises? || a.Commit? || a.Stop?)
    ensures Batches(Step(s, a))
  {
    var s' := Step(s, a);
    forall k | && 0 <= k < |s.tasks|
               && (s'.tasks[k].batch < s'.batch || s'.loop.Polling? || s'.loop.Committing? || Below(s', k))
      ensures Settled(s'.tasks, k)
    {
      if s.tasks[k].batch < s.batch || s.loop.Polling? || s.loop.Committing? || Below(s, k) {
        assert Settled(s.tasks, k);
      } else {
        assert s.tasks[k].batch == s.batch && (a.GatherReturns? || a.GatherRaises?);
        if a.GatherReturns? { CleanMeans(s.tasks, s.batch, k); } else { EscapesMeans(s.tasks, s.batch); }
      }
    }
  }

  lemma StepKeepsInv(w: nat, start: map<nat, nat>, s: State, a: Action)
    requires Inv(w, start, s)
    ensures Inv(w, start, Step(s, a))
  {
    if a.Poll? {
      PollKeepsInv(w, start, s, a.batch);
    } else if a.Begin? {
      BeginKeepsInv(w, start, s);
    } else if OfHandler(a) {
      HandlerKeepsInv(w, start, s, a);
    } else {
      LoopKeepsInv(w, start, s, a);
    }
  }

  lemma {:induction false} RunKeepsInv(w: nat, start: map<nat, nat>, actions: seq<Action>)
    ensures Inv(w, start, Run(Init(w, start), actions))
  {
    if actions != [] {
      RunKeepsInv(w, start, actions[..|actions| - 1]);
      StepKeepsInv(w, start, Run(Init(w, start), actions[..|actions| - 1]), actions[|actions| - 1]);
    }
  }

  // ---------------------------------------------------------------- every run

  /** Semaphore slots are conserved over every run, across all batches and after every kind of ending; `active_jobs`
      is the number of running handlers and never exceeds the concurrency. */
  lemma {:induction false} SlotsAreConserved(w: nat, start: map<nat, nat>, actions: seq<Action>)
    ensures var s := Run(Init(w, start), actions);
            && s.permits + Tally(s.tasks, Runs) == w
            && s.activeJobs == Tally(s.tasks, Runs) <= w
            && s.processedJobs == Tally(s.tasks, Dones) && s.failedJobs == Tally(s.tasks, Fails)
  {
    RunKeepsInv(w, start, actions);
  }

  /** The `max(0, ...)` of the `finally` block never takes effect. */
  lemma {:induction false} NeverClamps(w: nat, start: map<nat, nat>, actions: seq<Action>, a: Action)
    requires OfHandler(a)
    ensures var s := Run(Init(w, start), actions);
            var s' := Step(s, a);
            s' != s && Over(s'.tasks[a.i].phase) ==> s'.activeJobs == s.activeJobs - 1
  {
    var s := Run(Init(w, start), actions);
    RunKeepsInv(w, start, actions);
    if Step(s, a) != s {
      HandlerStep(s, a);
      RunningCounts(s.tasks, a.i);
    }
  }

  /** Handlers start in the order of their records. */
  lemma {:induction false} StartedIsPrefix(w: nat, start: map<nat, nat>, actions: seq<Action>, j: nat, k: nat)
    requires var s := Run(Init(w, start), actions); j < k < |s.tasks| && !s.tasks[k].phase.Waiting?
    ensures !Run(Init(w, start), actions).tasks[j].phase.Waiting?
  {
    RunKeepsInv(w, start, actions);
  }

  lemma {:induction false} TallyPrefix(tasks: seq<Task>, weight: Phase -> nat, i: nat)
    requires i <= |tasks|
    ensures Tally(tasks[..i], weight) <= Tally(tasks, weight)
  {
    assert tasks == tasks[..i] + tasks[i..];
    TallyConcat(tasks[..i], tasks[i..], weight);
  }

  /** The record that starts next overtakes at most `w - 1` earlier ones that are not over, whatever batch they are
      of. */
  lemma {:induction false} StartOvertakesFew(w: nat, start: map<nat, nat>, actions: seq<Action>)
    requires var s := Run(Init(w, start), actions); s.queue != [] && s.permits > 0
    ensures var s := Run(Init(w, start), actions);
            && s.queue[0] < |s.tasks| && s.tasks[s.queue[0]].phase.Waiting?
            && Tally(s.tasks[..s.queue[0]], Opens) <= w - 1
  {
    RunKeepsInv(w, start, actions);
    NextOvertakesFew(w, Run(Init(w, start), actions));
  }

  lemma NextOvertakesFew(w: nat, s: State)
    requires Slots(w, s) && Fifo(s) && s.queue != [] && s.permits > 0
    ensures s.queue[0] < |s.tasks| && s.tasks[s.queue[0]].phase.Waiting?
    ensures Tally(s.tasks[..s.queue[0]], Opens) <= w - 1
  {
    var i := |s.tasks| - |s.queue|;
    SameTally(s.tasks[..i], Opens, Runs);
    TallyPrefix(s.tasks, Runs, i);
  }

  lemma {:induction false} SameTally(tasks: seq<Task>, f: Phase -> nat, g: Phase -> nat)
    requires forall i :: 0 <= i < |tasks| ==> f(tasks[i].phase) == g(tasks[i].phase)
    ensures Tally(tasks, f) == Tally(tasks, g)
  {
    if tasks != [] { SameTally(tasks[..|tasks| - 1], f, g); }
  }

  /** Two tasks never carry the same record, and a partition's records are in offset order. */
  lemma {:induction false} RecordsAreInOrder(w: nat, start: map<nat, nat>, actions: seq<Action>, j: nat, k: nat)
    requires var s := Run(Init(w, start), actions); j < k < |s.tasks| && s.tasks[j].partition == s.tasks[k].partition
    ensures var s := Run(Init(w, start), actions); s.tasks[j].offset < s.tasks[k].offset
  {
    var s := Run(Init(w, start), actions);
    RunKeepsInv(w, start, actions);
    var p := s.tasks[j].partition;
    OrderedOffsets(s.tasks, p, At(start, p), At(s.position, p), j, k);
  }

  lemma {:induction false} OrderedOffsets(tasks: seq<Task>, p: nat, lo: nat, hi: nat, j: nat, k: nat)
    requires j < k < |tasks| && tasks[j].partition == tasks[k].partition == p
    requires OffsetsOf(tasks, p) == Interval(lo, hi)
    ensures tasks[j].offset < tasks[k].offset
  {
    var n := |tasks| - 1;
    var rest := OffsetsOf(tasks[..n], p);
    if tasks[n].partition == p {
      assert rest == OffsetsOf(tasks, p)[..|rest|] == Interval(lo, hi - 1);
      if k == n {
        TaskIsOffset(tasks[..n], j);
        assert tasks[n].offset == OffsetsOf(tasks, p)[|rest|];
      } else {
        OrderedOffsets(tasks[..n], p, lo, hi - 1, j, k);
      }
    } else {
      OrderedOffsets(tasks[..n], p, lo, hi, j, k);
    }
  }

  /** How a record below a committed offset stands: its result row is there, or it is counted in `failed_jobs`, or
      an exception escaped from a handler of the very same batch. */
  ghost predicate Accounted(s: State, k: nat) {
    k < |s.tasks| && match s.tasks[k].phase
                     case Done => s.tasks[k].doc in s.results
                     case Counted => true
                     case _ => BatchEscaped(s.tasks, s.tasks[k].batch)
  }

  /** Every record below a committed offset is accounted for. */
  lemma {:induction false} CommitsAreAccounted(w: nat, start: map<nat, nat>, actions: seq<Action>, p: nat, o: nat)
    requires var s := Run(Init(w, start), actions); At(start, p) <= o < At(s.committed, p)
    ensures var s := Run(Init(w, start), actions);
            exists k :: 0 <= k < |s.tasks| && s.tasks[k].partition == p && s.tasks[k].offset == o && Accounted(s, k)
  {
    RunKeepsInv(w, start, actions);
    var k := PassedIsAccounted(w, start, Run(Init(w, start), actions), p, o);
  }

  lemma PassedIsAccounted(w: nat, start: map<nat, nat>, s: State, p: nat, o: nat) returns (k: nat)
    requires Inv(w, start, s) && At(start, p) <= o < At(s.committed, p)
    ensures k < |s.tasks| && s.tasks[k].partition == p && s.tasks[k].offset == o && Accounted(s, k)
  {
    assert At(s.committed, p) <= At(s.position, p);
    var placed := Interval(At(start, p), At(s.position, p));
    assert placed[o - At(start, p)] == o && OffsetsOf(s.tasks, p) == placed;
    OffsetIsTask(s.tasks, p, o);
    k :| 0 <= k < |s.tasks| && s.tasks[k].partition == p && s.tasks[k].offset == o;
    assert Below(s, k) && Settled(s.tasks, k);
    assert Accounted(s, k);
  }

  ghost predicate NoneEscaped(s: State) {
    forall k :: 0 <= k < |s.tasks| ==> !s.tasks[k].phase.Escaped?
  }

  /** Without an escaping exception no record is skipped: below a committed offset each one has its result row or is
      counted in `failed_jobs`. */
  lemma {:induction false} CleanRunsSkipNothing(w: nat, start: map<nat, nat>, actions: seq<Action>, p: nat, o: nat)
    requires var s := Run(Init(w, start), actions); NoneEscaped(s) && At(start, p) <= o < At(s.committed, p)
    ensures var s := Run(Init(w, start), actions);
            exists k :: 0 <= k < |s.tasks| && s.tasks[k].partition == p && s.tasks[k].offset == o
                        && (if s.tasks[k].phase.Done? then s.tasks[k].doc in s.results else s.tasks[k].phase.Counted?)
  {
    CommitsAreAccounted(w, start, actions, p, o);
  }

  /** ... and whenever the loop has left a batch, the two counters add up to the records polled. */
  lemma {:induction false} CleanCountersAddUp(w: nat, start: map<nat, nat>, actions: seq<Action>)
    requires var s := Run(Init(w, start), actions); NoneEscaped(s) && (s.loop.Polling? || s.loop.Committing?)
    ensures var s := Run(Init(w, start), actions); s.processedJobs + s.failedJobs == |s.tasks|
  {
    var s := Run(Init(w, start), actions);
    RunKeepsInv(w, start, actions);
    forall k | 0 <= k < |s.tasks| ensures Dones(s.tasks[k].phase) + Fails(s.tasks[k].phase) == One(s.tasks[k].phase) {
      assert Settled(s.tasks, k);
    }
    TallySum(s.tasks, Dones, Fails, One);
    TallyAll(s.tasks, One, 1);
  }

  function One(ph: Phase): nat { 1 }

  /** A batch that held records is about to be committed. */
  ghost predicate CommitsRecords(s: State) {
    s.loop.Committing? && s.tasks != [] && s.tasks[|s.tasks| - 1].batch == s.batch
  }

  /** Even after escaped exceptions, a commit that follows a batch with records passes over at most `w - 1` records
      that are not over: those still running. With one slot it passes over none. */
  lemma {:induction false} CommitSkipsFew(w: nat, start: map<nat, nat>, actions: seq<Action>)
    requires CommitsRecords(Run(Init(w, start), actions))
    ensures Tally(Run(Init(w, start), actions).tasks, Opens) <= w - 1
  {
    var s := Run(Init(w, start), actions);
    RunKeepsInv(w, start, actions);
    assert s.queue == [];
    SameTally(s.tasks, Opens, Runs);
  }

  /** Committed offsets never move back. */
  lemma {:induction false} CommitsGrow(w: nat, start: map<nat, nat>, actions: seq<Action>, a: Action, p: nat)
    ensures var s := Run(Init(w, start), actions);
            At(s.committed, p) <= At(Step(s, a).committed, p) <= At(Step(s, a).position, p)
  {
    var s := Run(Init(w, start), actions);
    RunKeepsInv(w, start, actions);
    StepKeepsInv(w, start, s, a);
  }

  /** The skip that the bound allows does happen: with two slots, a batch of two records whose first handler lets an
      exception escape, and a next batch that is committed while the second record is still running. */
  lemma {:induction false} EscapeLetsACommitSkip() returns (actions: seq<Action>)
    ensures var s := Run(Init(2, map[]), actions);
            && At(s.committed, 0) == 3 && |s.tasks| == 3 && s.tasks[1] == Task(0, 1, 11, 1, Active)
  {
    var s0 := Init(2, map[]);
    actions := Extend(s0, [], Poll([Messages(0, [10, 11])]));
    SkipBegins();
    actions := Extend(s0, actions, Begin);
    actions := Extend(s0, actions, Begin);
    SkipEscapes();
    actions := Extend(s0, actions, Fail(0, true));
    actions := Extend(s0, actions, Escape(0));
    actions := Extend(s0, actions, GatherRaises);
    SkipPolls();
    actions := Extend(s0, actions, Poll([Messages(0, [12])]));
    actions := Extend(s0, actions, Begin);
    SkipCommits();
    actions := Extend(s0, actions, Save(12));
    actions := Extend(s0, actions, Succeed(2));
    actions := Extend(s0, actions, GatherReturns);
    actions := Extend(s0, actions, Commit(true));
  }

  const SKIP1 := State([Task(0, 0, 10, 1, Active), Task(0, 1, 11, 1, Active)], [], 0, 2, 0, 0, true, Gathering, 1,
                       map[0 := 2], map[], {})
  const SKIP2 := State([Task(0, 0, 10, 1, Escaped(true)), Task(0, 1, 11, 1, Active)], [], 1, 1, 0, 1, false, Polling, 1,
                       map[0 := 2], map[], {})
  const SKIP3 := State([Task(0, 0, 10, 1, Escaped(true)), Task(0, 1, 11, 1, Active), Task(0, 2, 12, 2, Active)],
                       [], 0, 2, 0, 1, true, Gathering, 2, map[0 := 3], map[], {})

  lemma SkipBegins()
    ensures Step(Step(Step(Init(2, map[]), Poll([Messages(0, [10, 11])])), Begin), Begin) == SKIP1
  {
    var s0 := Init(2, map[]);
    OnePoll(s0, [10, 11]);
    var s1 := Step(s0, Poll([Messages(0, [10, 11])]));
    assert s1.tasks == [Task(0, 0, 10, 1, Waiting), Task(0, 1, 11, 1, Waiting)];
    assert s1.queue == [0, 1];
    var s2 := Step(s1, Begin);
    assert s2.tasks == [Task(0, 0, 10, 1, Active), Task(0, 1, 11, 1, Waiting)] && s2.queue == [1];
    assert Step(s2, Begin).tasks == SKIP1.tasks;
  }

  lemma SkipEscapes()
    ensures Step(Step(Step(SKIP1, Fail(0, true)), Escape(0)), GatherRaises) == SKIP2
  {
    var s1 := Step(SKIP1, Fail(0, true));
    assert s1.tasks == [Task(0, 0, 10, 1, Failing), Task(0, 1, 11, 1, Active)];
    var s2 := Step(s1, Escape(0));
    assert s2.tasks == SKIP2.tasks;
    assert s2.tasks[0].batch == 1 && s2.tasks[0].phase.Escaped?;
    assert Escapes(s2.tasks, 1);
  }

  lemma SkipPolls()
    ensures Step(Step(SKIP2, Poll([Messages(0, [12])])), Begin) == SKIP3
  {
    OnePoll(SKIP2, [12]);
    var s1 := Step(SKIP2, Poll([Messages(0, [12])]));
    assert s1.tasks == [Task(0, 0, 10, 1, Escaped(true)), Task(0, 1, 11, 1, Active), Task(0, 2, 12, 2, Waiting)];
    assert s1.queue == [2];
    assert Step(s1, Begin).tasks == SKIP3.tasks;
  }

  lemma {:induction false} OlderAreClean(tasks: seq<Task>, batch: nat)
    requires forall i :: 0 <= i < |tasks| ==> tasks[i].batch != batch
    ensures Clean(tasks, batch)
  {
    if tasks != [] { OlderAreClean(tasks[..|tasks| - 1], batch); }
  }

  lemma SkipCommits()
    ensures var s := Step(Step(Step(Step(SKIP3, Save(12)), Succeed(2)), GatherReturns), Commit(true));
            At(s.committed, 0) == 3 && |s.tasks| == 3 && s.tasks[1] == Task(0, 1, 11, 1, Active)
  {
    var s2 := Step(Step(SKIP3, Save(12)), Succeed(2));
    var done := Task(0, 2, 12, 2, Done);
    assert s2.tasks == [Task(0, 0, 10, 1, Escaped(true)), Task(0, 1, 11, 1, Active), done];
    OlderAreClean([Task(0, 0, 10, 1, Escaped(true)), Task(0, 1, 11, 1, Active)], 2);
    assert s2.tasks[..2] == [Task(0, 0, 10, 1, Escaped(true)), Task(0, 1, 11, 1, Active)];
  }

  lemma {:induction false} Extend(s0: State, actions: seq<Action>, a: Action) returns (longer: seq<Action>)
    ensures longer == actions + [a] && Run(s0, longer) == Step(Run(s0, actions), a)
  {
    RunSnoc(s0, actions, a);
    longer := actions + [a];
  }

  lemma {:induction false} OnePoll(s: State, docs: seq<nat>)
    requires s.loop.Polling? && docs != []
    ensures var s' := Step(s, Poll([Messages(0, docs)]));
            s' == s.(tasks := s.tasks + TasksOf(0, At(s.position, 0), docs, s.batch + 1),
                     queue := s.queue + Interval(|s.tasks|, |s.tasks| + |docs|),
                     position := s.position[0 := At(s.position, 0) + |docs|],
                     batch := s.batch + 1, loop := Gathering)
  {
    var batch := [Messages(0, docs)];
    assert batch[1..] == [];
    assert Created(s.position, batch, s.batch + 1) == TasksOf(0, At(s.position, 0), docs, s.batch + 1);
    assert Advanced(s.position, batch) == Past(s.position, batch[0]);
  }

  // ---------------------------------------------------------------- turns of the loop

  /** How far a turn got: how many of its script's steps, and its end. */
  datatype Halt = Halt(k: nat, end: TurnEnd)

  /** The answer is empty or holds records, and the script is made of handlers' steps. */
  ghost predicate Plain(turn: Turn) {
    && (turn.answer == [] || HasRecords(turn.answer))
    && (forall j :: 0 <= j < |turn.script| ==> OfTasks(turn.script[j]))
  }

  ghost predicate AllPlain(turns: seq<Turn>) { forall i :: 0 <= i < |turns| ==> Plain(turns[i]) }

  predicate ValidStops(turns: seq<Turn>, stops: seq<Halt>) {
    |stops| <= |turns| && forall i :: 0 <= i < |stops| ==> stops[i].k <= |turns[i].script|
  }

  /** The steps of one turn; an empty answer makes none. */
  function Steps(turn: Turn, stop: Halt): seq<Action>
    requires stop.k <= |turn.script|
  {
    if turn.answer == [] then [] else [Poll(turn.answer)] + turn.script[..stop.k] + Closing(stop.end)
  }

  /** The steps of the turns so far. */
  function Trace(turns: seq<Turn>, stops: seq<Halt>): seq<Action>
    requires ValidStops(turns, stops)
  {
    if stops == [] then []
    else
      var n := |stops| - 1;
      Trace(turns, stops[..n]) + Steps(turns[n], stops[n])
  }

  lemma {:induction false} TraceSnoc(turns: seq<Turn>, stops: seq<Halt>, stop: Halt, longer: seq<Halt>)
    requires longer == stops + [stop] && |longer| <= |turns|
    requires ValidStops(turns, stops) && stop.k <= |turns[|stops|].script|
    ensures ValidStops(turns, longer) && Trace(turns, longer) == Trace(turns, stops) + Steps(turns[|stops|], stop)
  {
    assert longer[..|stops|] == stops;
    assert forall i :: 0 <= i < |stops| ==> longer[i] == stops[i];
  }

  lemma {:induction false} TurnExtends(s0: State, turns: seq<Turn>, stops: seq<Halt>, halt: Halt, longer: seq<Halt>,
                                       mid: State)
    requires ValidStops(turns, stops) && |stops| < |turns| && halt.k <= |turns[|stops|].script|
    requires longer == stops + [halt]
    requires mid == Run(s0, Trace(turns, stops))
    ensures ValidStops(turns, longer) && Run(s0, Trace(turns, longer)) == Run(mid, Steps(turns[|stops|], halt))
  {
    TraceSnoc(turns, stops, halt, longer);
    RunConcat(s0, Trace(turns, stops), Steps(turns[|stops|], halt));
  }

  /** One answer of `getmany`, with what happens while its tasks are gathered. */
  datatype Turn = Turn(answer: seq<Messages>, script: seq<Action>, commitWorks: bool)

  predicate HasRecords(answer: seq<Messages>) { exists i :: 0 <= i < |answer| && answer[i].docs != [] }

  lemma {:induction false} RecordsAreCreated(position: map<nat, nat>, answer: seq<Messages>, number: nat)
    requires HasRecords(answer)
    ensures Created(position, answer, number) != []
    decreases |answer|
  {
    if answer[0].docs == [] {
      var i :| 0 <= i < |answer| && answer[i].docs != [];
      assert answer[1..][i - 1] == answer[i];
      RecordsAreCreated(Past(position, answer[0]), answer[1..], number);
    }
  }

  /** Some task of the batch is not over, and no exception has escaped from one. */
  ghost predicate BatchOpen(tasks: seq<Task>, batch: nat) {
    && (exists i :: 0 <= i < |tasks| && tasks[i].batch == batch && !Over(tasks[i].phase))
    && !BatchEscaped(tasks, batch)
  }

  /** What `gather` finds when a turn ends: an escaped exception, tasks still to finish, or all of them processed or
      counted as failed. */
  ghost predicate EndsAs(mid: State, end: TurnEnd) {
    match end
    case Raised => BatchEscaped(mid.tasks, mid.batch)
    case Unfinished => BatchOpen(mid.tasks, mid.batch)
    case _ => BatchDone(mid.tasks, mid.batch)
  }

  /** A batch has a task that is not over, or an exception has escaped, or all its tasks are done: whatever `gather`
      finds, the first of these is all that it waits for. */
  lemma {:induction false} BatchStands(tasks: seq<Task>, batch: nat)
    ensures Clean(tasks, batch) <==> BatchDone(tasks, batch)
    ensures Escapes(tasks, batch) <==> BatchEscaped(tasks, batch)
    ensures !Resolves(tasks, batch) <==> BatchOpen(tasks, batch)
  {
    CleanIffDone(tasks, batch);
    EscapesMeans(tasks, batch);
    if !Clean(tasks, batch) && !Escapes(tasks, batch) {
      var i :| 0 <= i < |tasks| && tasks[i].batch == batch && !(tasks[i].phase.Done? || tasks[i].phase.Counted?);
      assert !tasks[i].phase.Escaped?;
    }
  }

  /** What a step of the loop does to the loop itself. */
  ghost predicate Effect(s: State, a: Action, s': State) {
    match a
    case Poll(answer) =>
      s.loop.Polling? && Created(s.position, answer, s.batch + 1) != [] ==>
        && s'.loop.Gathering? && s'.committed == s.committed
        && s'.position == Advanced(s.position, answer) && s'.batch == s.batch + 1
    case GatherReturns =>
      && s'.committed == s.committed && s'.position == s.position
      && (s.loop.Gathering? && BatchDone(s.tasks, s.batch) ==> s'.loop.Committing?)
    case GatherRaises =>
      && s'.committed == s.committed && s'.position == s.position
      && (s.loop.Gathering? && BatchEscaped(s.tasks, s.batch) ==> s'.loop.Polling?)
    case Commit(ok) =>
      s.loop.Committing? ==>
        && s'.loop.Polling? && s'.position == s.position
        && s'.committed == if ok then s.position else s.committed
    case Stop => true
    case _ => s'.loop == s.loop && s'.committed == s.committed && s'.position == s.position && s'.batch == s.batch
  }

  lemma StepEffect(s: State, a: Action)
    ensures Effect(s, a, Step(s, a))
  {
    if a.GatherReturns? || a.GatherRaises? {
      GatherEffect(s, a);
    } else {
      OtherEffect(s, a);
    }
  }

  lemma GatherEffect(s: State, a: Action)
    requires a.GatherReturns? || a.GatherRaises?
    ensures Effect(s, a, Step(s, a))
  {
    BatchStands(s.tasks, s.batch);
  }

  lemma OtherEffect(s: State, a: Action)
    requires !a.GatherReturns? && !a.GatherRaises?
    ensures Effect(s, a, Step(s, a))
  {}

  lemma {:induction false} JoinQueue(queue: seq<nat>, lo: nat, mid: nat, hi: nat)
    requires lo <= mid <= hi
    ensures queue + Interval(lo, mid) + Interval(mid, hi) == queue + Interval(lo, hi)
  {}

  lemma IntervalSnoc(lo: nat, hi: nat)
    requires lo <= hi
    ensures Interval(lo, hi + 1) == Interval(lo, hi) + [hi]
  {}

  lemma {:induction false} TasksSnoc(tasks: seq<Task>, m: Messages, first: nat, j: nat, number: nat)
    requires j < |m.docs|
    ensures tasks + TasksOf(m.partition, first, m.docs[..j + 1], number) ==
            tasks + TasksOf(m.partition, first, m.docs[..j], number)
            + [Task(m.partition, first + j, m.docs[j], number, Waiting)]
  {}

  lemma {:induction false} Prefixes(before: seq<Action>, script: seq<Action>, k: nat)
    requires k < |script|
    ensures before + script[..k + 1] == before + script[..k] + [script[k]]
  {
    assert script[..k + 1] == script[..k] + [script[k]];
  }

  lemma {:induction false} CreateOne(tasks: seq<Task>, position: map<nat, nat>, answer: seq<Messages>, i: nat,
                                     number: nat)
    requires i < |answer|
    ensures var m := answer[i];
            && tasks + Created(position, answer[i..], number) ==
               (tasks + TasksOf(m.partition, At(position, m.partition), m.docs, number))
               + Created(Past(position, m), answer[i + 1..], number)
            && Advanced(position, answer[i..]) == Advanced(Past(position, m), answer[i + 1..])
  {
    assert answer[i..][0] == answer[i] && answer[i..][1..] == answer[i + 1..];
  }

  /** How a turn of the loop ends: tasks still running, an exception out of `gather`, or a commit that fails or
      works. */
  datatype TurnEnd = Unfinished | Raised | Uncommitted | Committed

  predicate OfTasks(a: Action) { a.Begin? || a.Save? || OfHandler(a) }

  function Closing(end: TurnEnd): seq<Action> {
    match end
    case Raised => [GatherRaises]
    case Uncommitted => [GatherReturns, Commit(false)]
    case Committed => [GatherReturns, Commit(true)]
    case _ => []
  }

  // ---------------------------------------------------------------- the consumer

  /** The consumer's fields, with the tasks it created and what the broker and the tables hold for it. */
  class WorkerBatchConsumer {
    var tasks: seq<Task>
    var queue: seq<nat>
    var permits: nat
    var active_jobs: int
    var processed_jobs: int
    var failed_jobs: int
    var processing: bool
    var loop: Loop
    var batch: nat
    var position: map<nat, nat>
    var committed: map<nat, nat>
    var results: set<nat>

    function View(): State reads this {
      State(tasks, queue, permits, active_jobs, processed_jobs, failed_jobs, processing, loop, batch, position,
            committed, results)
    }

    constructor (concurrency: nat, start: map<nat, nat>)
      ensures View() == Init(concurrency, start)
    {
      tasks, queue, permits, active_jobs, processed_jobs, failed_jobs := [], [], concurrency, 0, 0, 0;
      processing, loop, batch, position, committed, results := false, Polling, 0, start, start, {};
    }

    /** The `finally` block of `handle_record`, and leaving the semaphore. */
    method End(i: nat, ph: Phase)
      requires i < |tasks|
      modifies this`tasks, this`active_jobs, this`processing, this`permits
      ensures View() == Finish(old(View()), i, ph)
    {
      tasks := tasks[i := tasks[i].(phase := ph)];
      active_jobs := if active_jobs - 1 < 0 then 0 else active_jobs - 1;
      processing, permits := false, permits + 1;
    }

    /** One task per record of a partition, each queued for the semaphore. */
    method CreatePartition(m: Messages)
      modifies this`tasks, this`queue, this`position
      ensures tasks == old(tasks) + TasksOf(m.partition, At(old(position), m.partition), m.docs, batch)
      ensures queue == old(queue) + Interval(|old(tasks)|, |tasks|)
      ensures position == Past(old(position), m)
    {
      var first := At(position, m.partition);
      for j := 0 to |m.docs|
        invariant tasks == old(tasks) + TasksOf(m.partition, first, m.docs[..j], batch)
        invariant queue == old(queue) + Interval(|old(tasks)|, |tasks|)
        invariant position == old(position)
      {
        TasksSnoc(old(tasks), m, first, j, batch);
        IntervalSnoc(|old(tasks)|, |tasks|);
        queue := queue + [|tasks|];
        tasks := tasks + [Task(m.partition, first + j, m.docs[j], batch, Waiting)];
      }
      assert m.docs[..|m.docs|] == m.docs;
      position := position[m.partition := first + |m.docs|];
    }

    /** One task per polled record, partition by partition. */
    method CreateTasks(answer: seq<Messages>)
      modifies this`tasks, this`queue, this`position
      ensures tasks == old(tasks) + Created(old(position), answer, batch)
      ensures queue == old(queue) + Interval(|old(tasks)|, |tasks|)
      ensures position == Advanced(old(position), answer)
    {
      ghost var n0, queue0 := |tasks|, queue;
      ghost var goal, last := tasks + Created(position, answer, batch), Advanced(position, answer);
      var i := 0;
      assert answer[0..] == answer;
      while i < |answer|
        invariant i <= |answer| && n0 <= |tasks|
        invariant tasks + Created(position, answer[i..], batch) == goal
        invariant queue == queue0 + Interval(n0, |tasks|)
        invariant Advanced(position, answer[i..]) == last
      {
        ghost var n, tasks1, position1 := |tasks|, tasks, position;
        CreatePartition(answer[i]);
        CreateOne(tasks1, position1, answer, i, batch);
        JoinQueue(queue0, n0, n, |tasks|);
        i := i + 1;
      }
    }

    /** One step of a running handler. */
    method ExecuteHandler(a: Action)
      requires OfHandler(a)
      modifies this
      ensures View() == Step(old(View()), a)
    {
      if a.i >= |tasks| { return; }
      var ph := tasks[a.i].phase;
      match a {
        case Succeed(i) =>
          if ph.Active? && tasks[i].doc in results {
            processed_jobs := processed_jobs + 1;
            End(i, Done);
          }
        case Fail(i, noted) =>
          if ph.Active? {
            failed_jobs := failed_jobs + 1;
            if noted {
              tasks := tasks[i := tasks[i].(phase := Failing)];
            } else {
              End(i, Counted);
            }
          }
        case Note(i) =>
          if ph.Failing? { End(i, Counted); }
        case Escape(i) =>
          if ph.Active? {
            End(i, Escaped(false));
          } else if ph.Failing? {
            End(i, Escaped(true));
          }
      }
    }

    /** The poll's answer becomes tasks. */
    method TakeAnswer(answer: seq<Messages>)
      modifies this
      ensures View() == Step(old(View()), Poll(answer))
    {
      if !loop.Polling? || answer == [] { return; }
      var before := |tasks|;
      batch := batch + 1;
      CreateTasks(answer);
      loop := if |tasks| == before then Committing else Gathering;
    }

    /** The first waiter of the semaphore enters its `try`. */
    method StartNext()
      modifies this
      ensures View() == Step(old(View()), Begin)
    {
      if queue == [] || permits == 0 || queue[0] >= |tasks| { return; }
      tasks := tasks[queue[0] := tasks[queue[0]].(phase := Active)];
      queue, permits := queue[1..], permits - 1;
      active_jobs, processing := active_jobs + 1, true;
    }

    /** One step, of the loop or of a handler. */
    method Execute(a: Action)
      modifies this
      ensures View() == Step(old(View()), a)
    {
      if OfHandler(a) {
        ExecuteHandler(a);
        return;
      }
      match a {
        case Poll(answer) => TakeAnswer(answer);
        case Begin => StartNext();
        case Save(doc) => results := results + {doc};
        case GatherReturns =>
          if loop.Gathering? && Clean(tasks, batch) { loop := Committing; }
        case GatherRaises =>
          if loop.Gathering? && Escapes(tasks, batch) { loop := Polling; }
        case Commit(ok) =>
          if loop.Committing? {
            if ok { committed := position; }
            loop := Polling;
          }
        case Stop => loop := Stopped;
      }
    }

    /** One more step of a run. */
    method Do(a: Action, ghost s0: State, ghost before: seq<Action>)
      requires View() == Run(s0, before)
      modifies this
      ensures View() == Run(s0, before + [a])
      ensures Effect(old(View()), a, View())
    {
      RunSnoc(s0, before, a);
      StepEffect(View(), a);
      Execute(a);
    }

    /** One more step of a run, of a handler. */
    method DoTask(a: Action, ghost s0: State, ghost before: seq<Action>)
      requires View() == Run(s0, before) && OfTasks(a)
      modifies this
      ensures View() == Run(s0, before + [a])
      ensures loop == old(loop) && committed == old(committed) && position == old(position) && batch == old(batch)
    {
      Do(a, s0, before);
    }

    /** Step `k` of a script. */
    method TakeStep(script: seq<Action>, k: nat, ghost s0: State, ghost before: seq<Action>) returns (next: nat)
      requires k < |script| && OfTasks(script[k]) && View() == Run(s0, before + script[..k])
      modifies this
      ensures next == k + 1 && View() == Run(s0, before + script[..next])
      ensures loop == old(loop) && committed == old(committed) && position == old(position) && batch == old(batch)
    {
      ghost var taken := before + script[..k];
      Prefixes(before, script, k);
      DoTask(script[k], s0, taken);
      next := k + 1;
    }

    /** Waiting in `gather`: the handlers' steps in the order of `script`, until it returns or raises. */
    method Gather(script: seq<Action>, ghost s0: State, ghost before: seq<Action>) returns (k: nat)
      requires View() == Run(s0, before) && loop.Gathering?
      requires forall i :: 0 <= i < |script| ==> OfTasks(script[i])
      modifies this
      ensures k <= |script| && View() == Run(s0, before + script[..k])
      ensures loop.Gathering? && committed == old(committed) && position == old(position) && batch == old(batch)
      ensures k < |script| ==> !BatchOpen(tasks, batch)
    {
      k := 0;
      assert before + script[..0] == before;
      while k < |script|
        invariant k <= |script| && View() == Run(s0, before + script[..k])
        invariant loop.Gathering? && committed == old(committed) && position == old(position) && batch == old(batch)
      {
        if Resolves(tasks, batch) {
          BatchStands(tasks, batch);
          return;
        }
        k := TakeStep(script, k, s0, before);
      }
    }

    /** The end of a turn, once `gather` has returned or raised, if it has. */
    method Finalize(commitWorks: bool, ghost s0: State, ghost before: seq<Action>) returns (end: TurnEnd)
      requires View() == Run(s0, before) && loop.Gathering?
      modifies this
      ensures View() == Run(s0, before + Closing(end)) && position == old(position)
      ensures committed == if end.Committed? then position else old(committed)
      ensures loop == if end.Unfinished? then Gathering else Polling
      ensures EndsAs(old(View()), end)
      ensures end.Raised? <==> BatchEscaped(old(tasks), old(batch))
    {
      BatchStands(tasks, batch);
      if Escapes(tasks, batch) {
        Do(GatherRaises, s0, before);
        return Raised;
      }
      if !Clean(tasks, batch) {
        assert before + [] == before;
        return Unfinished;
      }
      CommitOffsets(commitWorks, s0, before);
      end := if commitWorks then Committed else Uncommitted;
    }

    /** `gather` returns, and the consumer commits its positions. */
    method CommitOffsets(commitWorks: bool, ghost s0: State, ghost before: seq<Action>)
      requires View() == Run(s0, before) && loop.Gathering? && BatchDone(tasks, batch)
      modifies this
      ensures View() == Run(s0, before + [GatherReturns, Commit(commitWorks)])
      ensures loop.Polling? && position == old(position)
      ensures committed == if commitWorks then position else old(committed)
    {
      Do(GatherReturns, s0, before);
      ghost var trace := before + [GatherReturns];
      Do(Commit(commitWorks), s0, trace);
      assert trace + [Commit(commitWorks)] == before + [GatherReturns, Commit(commitWorks)];
    }

    /** `await asyncio.gather(...)` and what follows it in the turn; `mid` is the state it resolves in. */
    method GatherAndCommit(script: seq<Action>, commitWorks: bool, ghost s0: State, ghost before: seq<Action>)
      returns (end: TurnEnd, k: nat, ghost mid: State)
      requires View() == Run(s0, before) && loop.Gathering?
      requires forall i :: 0 <= i < |script| ==> OfTasks(script[i])
      modifies this
      ensures k <= |script| && mid == Run(s0, before + script[..k]) && mid.batch == old(batch)
      ensures View() == Run(s0, before + script[..k] + Closing(end))
      ensures EndsAs(mid, end) && loop == (if end.Unfinished? then Gathering else Polling)
      ensures (end.Unfinished? ==> k == |script|)
      ensures committed == (if end.Committed? then position else old(committed)) && position == old(position)
    {
      k := Gather(script, s0, before);
      mid := View();
      end := Finalize(commitWorks, s0, before + script[..k]);
    }

    /** One turn of the `while` loop on an answer that holds records: the handlers' steps until `gather` returns or
        raises, and then the commit. The turn is exactly that run, and commits only when `gather` returned. */
    method ConsumeBatch(answer: seq<Messages>, script: seq<Action>, commitWorks: bool)
      returns (end: TurnEnd, k: nat, ghost mid: State)
      requires loop.Polling? && Created(position, answer, batch + 1) != []
      requires forall i :: 0 <= i < |script| ==> OfTasks(script[i])
      modifies this
      ensures k <= |script| && mid == Run(old(View()), [Poll(answer)] + script[..k]) && mid.batch == old(batch) + 1
      ensures View() == Run(old(View()), [Poll(answer)] + script[..k] + Closing(end))
      ensures EndsAs(mid, end) && loop == (if end.Unfinished? then Gathering else Polling)
      ensures (end.Unfinished? ==> k == |script|)
      ensures committed == if end.Committed? then position else old(committed)
      ensures position == Advanced(old(position), answer)
    {
      ghost var s0 := View();
      assert [] + [Poll(answer)] == [Poll(answer)];
      Do(Poll(answer), s0, []);
      end, k, mid := GatherAndCommit(script, commitWorks, s0, [Poll(answer)]);
    }

    /** `_consume_loop` over the answers of its polls, until a turn is left unfinished: exactly the run of its
        turns, each as long as `stops` says, so that it keeps the invariant: slots, order, counters and committed
        records. */
    method ConsumeLoop(turns: seq<Turn>, ghost w: nat, ghost start: map<nat, nat>) returns (stops: seq<Halt>)
      requires View() == Init(w, start) && AllPlain(turns)
      modifies this
      ensures |stops| <= |turns| && ValidStops(turns, stops)
      ensures View() == Run(Init(w, start), Trace(turns, stops)) && Inv(w, start, View())
      ensures |stops| < |turns| ==> loop.Gathering?
    {
      stops := [];
      while |stops| < |turns| && loop.Polling?
        invariant |stops| <= |turns| && ValidStops(turns, stops) && View() == Run(Init(w, start), Trace(turns, stops))
        invariant loop.Polling? || loop.Gathering?
      {
        stops := NextTurn(turns, stops, Init(w, start));
      }
      RunKeepsInv(w, start, Trace(turns, stops));
    }

    /** One more turn of the loop. */
    method NextTurn(turns: seq<Turn>, stops: seq<Halt>, ghost s0: State) returns (longer: seq<Halt>)
      requires |stops| < |turns| && AllPlain(turns) && ValidStops(turns, stops) && loop.Polling?
      requires View() == Run(s0, Trace(turns, stops))
      modifies this
      ensures |longer| == |stops| + 1 && ValidStops(turns, longer) && View() == Run(s0, Trace(turns, longer))
      ensures loop.Polling? || loop.Gathering?
    {
      var turn := turns[|stops|];
      ghost var before := View();
      var halt := TakeTurn(turn);
      longer := stops + [halt];
      TurnExtends(s0, turns, stops, halt, longer, before);
    }

    /** One turn: nothing for an empty answer, else the batch. */
    method TakeTurn(turn: Turn) returns (halt: Halt)
      requires loop.Polling? && Plain(turn)
      modifies this
      ensures halt.k <= |turn.script| && View() == Run(old(View()), Steps(turn, halt))
      ensures (loop.Polling? || loop.Gathering?)
    {
      if turn.answer == [] { return Halt(0, Unfinished); }
      RecordsAreCreated(position, turn.answer, batch + 1);
      var end, k;
      ghost var mid;
      end, k, mid := ConsumeBatch(turn.answer, turn.script, turn.commitWorks);
      halt := Halt(k, end);
    }
  }
}
