/** What a commit of the batch consumer passes over: how many unfinished records, exactly, and when none. */
module Commits {

  import opened Consumer

  /** No exception escapes from a handler. */
  ghost predicate NoEscape(actions: seq<Action>) { forall i :: 0 <= i < |actions| ==> !actions[i].Escape? }

  /** Some continuation in which no exception escapes brings the loop to the commit of a batch with records while
      exactly `n` records, of any batch, are unfinished. */
  ghost predicate MaySkip(s: State, n: nat) {
    exists actions :: Skips(s, actions, n)
  }

  ghost predicate Skips(s: State, actions: seq<Action>, n: nat) {
    NoEscape(actions) && CommitsRecords(Run(s, actions)) && Tally(Run(s, actions).tasks, Opens) == n
  }

  // ---------------------------------------------------------------- at most what was left open

  /** `s` comes later than `s0`, between two polls: what was open may have ended, and what is newer has not
      escaped. */
  ghost predicate Follows(s0: State, s: State) {
    && |s0.tasks| <= |s.tasks| && s0.batch <= s.batch
    && Tally(s.tasks[..|s0.tasks|], Opens) <= Tally(s0.tasks, Opens)
    && (forall k :: 0 <= k < |s0.tasks| ==> s.tasks[k].batch <= s0.batch)
    && (forall k :: |s0.tasks| <= k < |s.tasks| ==> s.tasks[k].batch > s0.batch && !s.tasks[k].phase.Escaped?)
  }

  lemma OnlyEscapeEscapes(s: State, a: Action)
    requires OfHandler(a) && !a.Escape? && Step(s, a) != s
    ensures a.i < |Step(s, a).tasks| && !Step(s, a).tasks[a.i].phase.Escaped?
  {}

  lemma ProgressFollows(s0: State, s: State, s': State, i: nat)
    requires Follows(s0, s) && Progress(s, s', i) && !s'.tasks[i].phase.Escaped?
    ensures Follows(s0, s')
  {
    var n := |s0.tasks|;
    if i < n {
      var ph := s'.tasks[i].phase;
      assert s'.tasks[..n] == s.tasks[..n][i := s.tasks[..n][i].(phase := ph)];
      TallyUpdate(s.tasks[..n], Opens, i, ph);
    } else {
      assert s'.tasks[..n] == s.tasks[..n];
    }
  }

  lemma PollFollows(s0: State, s: State, batch: seq<Messages>)
    requires Follows(s0, s)
    ensures Follows(s0, Step(s, Poll(batch)))
  {
    CreatedWaits(s.position, batch, s.batch + 1);
    assert (s.tasks + Created(s.position, batch, s.batch + 1))[..|s0.tasks|] == s.tasks[..|s0.tasks|];
  }

  lemma StepFollows(s0: State, s: State, a: Action)
    requires Follows(s0, s) && Fifo(s) && !a.Escape?
    ensures Follows(s0, Step(s, a))
  {
    var s' := Step(s, a);
    if a.Poll? {
      PollFollows(s0, s, a.batch);
    } else if s' != s && a.Begin? {
      BeginProgress(s);
      ProgressFollows(s0, s, s', s.queue[0]);
    } else if s' != s && OfHandler(a) {
      HandlerStep(s, a);
      OnlyEscapeEscapes(s, a);
      ProgressFollows(s0, s, s', a.i);
    } else {
      assert s'.tasks == s.tasks && s'.batch == s.batch;
    }
  }

  lemma {:induction false} RunFollows(w: nat, start: map<nat, nat>, s0: State, actions: seq<Action>)
    requires Inv(w, start, s0) && NoEscape(actions)
    ensures Inv(w, start, Run(s0, actions)) && Follows(s0, Run(s0, actions))
  {
    if actions == [] {
      assert s0.tasks[..|s0.tasks|] == s0.tasks;
    } else {
      var n := |actions| - 1;
      RunFollows(w, start, s0, actions[..n]);
      StepKeepsInv(w, start, Run(s0, actions[..n]), actions[n]);
      StepFollows(s0, Run(s0, actions[..n]), actions[n]);
    }
  }

  lemma NewerIsOver(s0: State, s: State, k: nat)
    requires Follows(s0, s) && Batches(s) && s.loop.Committing? && |s0.tasks| <= k < |s.tasks|
    ensures Over(s.tasks[k].phase)
  {
    assert Settled(s.tasks, k);
  }

  /** At a commit everything newer is over, so what is open was open before. */
  lemma NewerAreOver(s0: State, s: State)
    requires Follows(s0, s) && Batches(s) && s.loop.Committing?
    ensures Tally(s.tasks, Opens) <= Tally(s0.tasks, Opens)
  {
    var n := |s0.tasks|;
    var older, newer := s.tasks[..n], s.tasks[n..];
    forall k | 0 <= k < |newer| ensures Opens(newer[k].phase) == 0 {
      NewerIsOver(s0, s, n + k);
      assert newer[k] == s.tasks[n + k];
    }
    TallyAll(newer, Opens, 0);
    TallyConcat(older, newer, Opens);
    assert older + newer == s.tasks;
  }

  // ---------------------------------------------------------------- every number up to that

  function Cost(ph: Phase): nat {
    match ph
    case Waiting => 3
    case Active => 2
    case Failing => 1
    case _ => 0
  }

  lemma {:induction false} SomeoneRuns(tasks: seq<Task>) returns (i: nat)
    requires Tally(tasks, Runs) > 0
    ensures i < |tasks| && Runs(tasks[i].phase) == 1
  {
    var n := |tasks| - 1;
    if Runs(tasks[n].phase) == 1 { i := n; } else { i := SomeoneRuns(tasks[..n]); }
  }

  lemma {:induction false} RunsAreOpen(tasks: seq<Task>)
    ensures Tally(tasks, Runs) <= Tally(tasks, Opens)
  {
    if tasks != [] { RunsAreOpen(tasks[..|tasks| - 1]); }
  }

  lemma AllStarted(s: State)
    requires Fifo(s) && s.queue == []
    ensures Tally(s.tasks, Opens) == Tally(s.tasks, Runs)
  {
    SameTally(s.tasks, Opens, Runs);
  }

  lemma CheaperBy(s: State, s': State, i: nat)
    requires i < |s.tasks| == |s'.tasks| && s'.tasks == s.tasks[i := s.tasks[i].(phase := s'.tasks[i].phase)]
    ensures Tally(s'.tasks, Cost) + Cost(s.tasks[i].phase) == Tally(s.tasks, Cost) + Cost(s'.tasks[i].phase)
    ensures Tally(s'.tasks, Opens) + Opens(s.tasks[i].phase) == Tally(s.tasks, Opens) + Opens(s'.tasks[i].phase)
  {
    TallyUpdate(s.tasks, Cost, i, s'.tasks[i].phase);
    TallyUpdate(s.tasks, Opens, i, s'.tasks[i].phase);
  }

  /** One handler is a step nearer to its end, at most one record has ended, and the loop stays where it is. */
  ghost predicate Nearer(s: State, s': State) {
    && s'.loop == s.loop && s'.batch == s.batch && s'.position == s.position
    && Tally(s'.tasks, Cost) < Tally(s.tasks, Cost)
    && Tally(s.tasks, Opens) - 1 <= Tally(s'.tasks, Opens) <= Tally(s.tasks, Opens)
  }

  lemma BeginIsNearer(s: State)
    requires Fifo(s) && s.queue != [] && s.permits > 0
    ensures Nearer(s, Step(s, Begin)) && Tally(Step(s, Begin).tasks, Opens) == Tally(s.tasks, Opens)
  {
    BeginProgress(s);
    CheaperBy(s, Step(s, Begin), s.queue[0]);
  }

  /** What a running handler does when its processing fails. */
  function Failure(s: State, i: nat): Action
    requires i < |s.tasks|
  {
    if s.tasks[i].phase.Active? then Fail(i, true) else Note(i)
  }

  lemma FailureIsNearer(s: State, i: nat)
    requires i < |s.tasks| && Runs(s.tasks[i].phase) == 1
    ensures Nearer(s, Step(s, Failure(s, i)))
  {
    CheaperBy(s, Step(s, Failure(s, i)), i);
  }

  /** While a record waits or more than `n < w` are unfinished, a handler can begin, or one that runs can go on to
      be counted as failed. */
  lemma NextDrains(w: nat, s: State, n: nat) returns (a: Action)
    requires Slots(w, s) && Fifo(s) && n < w && n <= Tally(s.tasks, Opens)
    requires s.queue != [] || Tally(s.tasks, Opens) != n
    ensures !a.Escape? && Nearer(s, Step(s, a)) && n <= Tally(Step(s, a).tasks, Opens)
  {
    RunsAreOpen(s.tasks);
    if s.queue != [] && s.permits > 0 {
      a := Begin;
      BeginIsNearer(s);
    } else {
      if s.queue == [] { AllStarted(s); }
      var i := SomeoneRuns(s.tasks);
      a := Failure(s, i);
      FailureIsNearer(s, i);
    }
  }

  /** Handlers go on until nothing waits and exactly `n` records are unfinished; the loop stays where it is. */
  lemma {:induction false} Drains(w: nat, start: map<nat, nat>, s: State, n: nat) returns (actions: seq<Action>)
    requires Inv(w, start, s) && n < w && n <= Tally(s.tasks, Opens)
    ensures NoEscape(actions) && Inv(w, start, Run(s, actions))
    ensures var s' := Run(s, actions);
            && s'.loop == s.loop && s'.batch == s.batch && s'.position == s.position
            && s'.queue == [] && Tally(s'.tasks, Opens) == n
    decreases Tally(s.tasks, Cost)
  {
    if s.queue == [] && Tally(s.tasks, Opens) == n {
      actions := [];
    } else {
      var a := NextDrains(w, s, n);
      StepKeepsInv(w, start, s, a);
      var rest := Drains(w, start, Step(s, a), n);
      RunFirst(s, a, rest);
      actions := [a] + rest;
    }
  }

  lemma {:induction false} RunFirst(s: State, a: Action, rest: seq<Action>)
    ensures Run(s, [a] + rest) == Run(Step(s, a), rest)
  {
    RunConcat(s, [a], rest);
    assert [a][..0] == [];
    assert Run(s, [a]) == Step(Run(s, []), a);
  }

  /** One record more than `s` has, in phase `ph`. */
  ghost predicate OneMore(s: State, s': State, ph: Phase) {
    && s'.tasks == s.tasks + [Task(0, At(s.position, 0), 0, s.batch + 1, ph)]
    && s'.batch == s.batch + 1 && s'.loop.Gathering?
  }

  lemma OneMoreBegins(s: State)
    requires s.loop.Polling? && s.queue == [] && s.permits > 0
    ensures OneMore(s, Step(Step(s, Poll([Messages(0, [0])])), Begin), Active)
  {
    OnePoll(s, [0]);
    var s' := Step(s, Poll([Messages(0, [0])]));
    assert s'.queue == [|s.tasks|] && OneMore(s, s', Waiting);
  }

  lemma OneMoreSucceeds(s: State, s': State)
    requires OneMore(s, s', Active)
    ensures OneMore(s, Step(Step(s', Save(0)), Succeed(|s.tasks|)), Done)
  {}

  lemma OneMoreReturns(s: State, s': State)
    requires OneMore(s, s', Done) && forall k :: 0 <= k < |s.tasks| ==> s.tasks[k].batch <= s.batch
    ensures var done := Step(s', GatherReturns); done.loop.Committing? && done == s'.(loop := Committing)
  {
    OlderAreClean(s.tasks, s'.batch);
    assert s'.tasks[..|s.tasks|] == s.tasks;
  }

  lemma OneMorePasses(s: State) returns (end: State)
    requires s.loop.Polling? && s.queue == [] && s.permits > 0
    requires forall k :: 0 <= k < |s.tasks| ==> s.tasks[k].batch <= s.batch
    ensures end ==
            Step(Step(Step(Step(Step(s, Poll([Messages(0, [0])])), Begin), Save(0)), Succeed(|s.tasks|)), GatherReturns)
    ensures end.loop.Committing? && OneMore(s, end.(loop := Gathering), Done)
  {
    OneMoreBegins(s);
    var begun := Step(Step(s, Poll([Messages(0, [0])])), Begin);
    OneMoreSucceeds(s, begun);
    var done := Step(Step(begun, Save(0)), Succeed(|s.tasks|));
    OneMoreReturns(s, done);
    end := Step(done, GatherReturns);
  }

  lemma OneMoreTally(s: State, end: State)
    requires end.loop.Committing? && OneMore(s, end.(loop := Gathering), Done)
    ensures CommitsRecords(end) && Tally(end.tasks, Opens) == Tally(s.tasks, Opens)
  {
    TallyConcat(s.tasks, [end.tasks[|s.tasks|]], Opens);
  }

  /** With a free slot and nothing waiting, one more record is polled, processed and about to be committed while all
      the others stay as they are. */
  lemma PassesBy(w: nat, start: map<nat, nat>, s: State) returns (actions: seq<Action>)
    requires Inv(w, start, s) && s.loop.Polling? && s.queue == [] && Tally(s.tasks, Opens) < w
    ensures Skips(s, actions, Tally(s.tasks, Opens))
  {
    AllStarted(s);
    var end := OneMorePasses(s);
    OneMoreTally(s, end);
    RunFive(s, Poll([Messages(0, [0])]), Begin, Save(0), Succeed(|s.tasks|), GatherReturns);
    actions := [Poll([Messages(0, [0])]), Begin, Save(0), Succeed(|s.tasks|), GatherReturns];
  }

  lemma RunFive(s: State, a: Action, b: Action, c: Action, d: Action, e: Action)
    ensures Run(s, [a, b, c, d, e]) == Step(Step(Step(Step(Step(s, a), b), c), d), e)
  {
    assert [e] + [] == [e] && [d] + [e] == [d, e] && [c] + [d, e] == [c, d, e] && [b] + [c, d, e] == [b, c, d, e];
    assert [a] + [b, c, d, e] == [a, b, c, d, e];
    RunFirst(s, a, [b, c, d, e]);
    RunFirst(Step(s, a), b, [c, d, e]);
    RunFirst(Step(Step(s, a), b), c, [d, e]);
    RunFirst(Step(Step(Step(s, a), b), c), d, [e]);
    RunFirst(Step(Step(Step(Step(s, a), b), c), d), e, []);
  }

  lemma SkipsThatMany(w: nat, start: map<nat, nat>, s: State, n: nat)
    requires Inv(w, start, s) && s.loop.Polling? && n < w && n <= Tally(s.tasks, Opens)
    ensures MaySkip(s, n)
  {
    var draining := Drains(w, start, s, n);
    var passing := PassesBy(w, start, Run(s, draining));
    RunConcat(s, draining, passing);
    assert Skips(s, draining + passing, n);
  }

  // ---------------------------------------------------------------- gathering

  /** In every reachable state that waits in `gather`: it returns, into the commit, exactly when every task of the batch
      was processed or counted as failed; it raises, into the next poll, exactly when an exception escaped from one; and
      it waits exactly as long as a task of the batch is not over and none has escaped. */
  lemma {:induction false} GatherResolvesIff(w: nat, start: map<nat, nat>, actions: seq<Action>)
    requires Run(Init(w, start), actions).loop.Gathering?
    ensures var s := Run(Init(w, start), actions);
            && (Step(s, GatherReturns).loop.Committing? <==> BatchDone(s.tasks, s.batch))
            && (Step(s, GatherRaises).loop.Polling? <==> BatchEscaped(s.tasks, s.batch))
            && (Step(s, GatherReturns) == s == Step(s, GatherRaises) <==> BatchOpen(s.tasks, s.batch))
  {
    var s := Run(Init(w, start), actions);
    BatchStands(s.tasks, s.batch);
  }

  lemma {:induction false} NothingOpen(tasks: seq<Task>, batch: nat)
    requires Tally(tasks, Opens) == 0
    ensures !BatchOpen(tasks, batch)
  {
    forall i | 0 <= i < |tasks| ensures Over(tasks[i].phase) {
      if !Over(tasks[i].phase) { OpenCounts(tasks, i); }
    }
  }

  lemma {:induction false} OpenCounts(tasks: seq<Task>, i: nat)
    requires i < |tasks| && !Over(tasks[i].phase)
    ensures Tally(tasks, Opens) > 0
  {
    if i < |tasks| - 1 { OpenCounts(tasks[..|tasks| - 1], i); }
  }

  /** No turn has to hang: from every reachable state that waits in `gather`, some continuation in which no further
      exception escapes comes back to the poll, and commits unless one has escaped already. */
  lemma {:induction false} TurnCanEnd(w: nat, start: map<nat, nat>, actions: seq<Action>) returns (later: seq<Action>)
    requires w > 0 && Run(Init(w, start), actions).loop.Gathering?
    ensures var s := Run(Init(w, start), actions);
            var s' := Run(s, later);
            && NoEscape(later) && s'.loop.Polling? && s'.batch == s.batch && s'.position == s.position
            && (s'.committed == s.position || BatchEscaped(s'.tasks, s'.batch))
  {
    var s := Run(Init(w, start), actions);
    RunKeepsInv(w, start, actions);
    var draining := Drains(w, start, s, 0);
    NothingOpen(Run(s, draining).tasks, s.batch);
    var ending := Ending(Run(s, draining));
    RunConcat(s, draining, ending);
    later := draining + ending;
  }

  /** Once nothing of the batch is open, `gather` returns and the positions are committed, or it raises. */
  lemma Ending(s: State) returns (ending: seq<Action>)
    requires s.loop.Gathering? && !BatchOpen(s.tasks, s.batch)
    ensures NoEscape(ending)
    ensures Run(s, ending) == if BatchEscaped(s.tasks, s.batch) then s.(loop := Polling)
                              else s.(loop := Polling, committed := s.position)
  {
    BatchStands(s.tasks, s.batch);
    assert [GatherRaises] + [] == [GatherRaises] && [Commit(true)] + [] == [Commit(true)];
    if BatchEscaped(s.tasks, s.batch) {
      RunFirst(s, GatherRaises, []);
      ending := [GatherRaises];
    } else {
      assert [GatherReturns] + [Commit(true)] == [GatherReturns, Commit(true)];
      RunFirst(s, GatherReturns, [Commit(true)]);
      RunFirst(Step(s, GatherReturns), Commit(true), []);
      ending := [GatherReturns, Commit(true)];
    }
  }

  // ---------------------------------------------------------------- the exact numbers

  /** From any reachable state between two polls: the numbers of unfinished records that a later commit may pass over
      without any further escape are exactly those below the concurrency and up to what is unfinished already. */
  lemma {:induction false} CommitSkipsExactly(w: nat, start: map<nat, nat>, actions: seq<Action>, n: nat)
    requires Run(Init(w, start), actions).loop.Polling?
    ensures var s := Run(Init(w, start), actions); MaySkip(s, n) <==> n < w && n <= Tally(s.tasks, Opens)
  {
    var s := Run(Init(w, start), actions);
    RunKeepsInv(w, start, actions);
    if n < w && n <= Tally(s.tasks, Opens) { SkipsThatMany(w, start, s, n); }
    if MaySkip(s, n) {
      var later :| Skips(s, later, n);
      RunFollows(w, start, s, later);
      NewerAreOver(s, Run(s, later));
      RunConcat(Init(w, start), actions, later);
      CommitSkipsFew(w, start, actions + later);
    }
  }

  /** So from such a state every commit is complete, as long as no exception escapes, exactly when there is one slot
      or nothing unfinished. */
  lemma {:induction false} CommitsSkipNothingIff(w: nat, start: map<nat, nat>, actions: seq<Action>)
    requires Run(Init(w, start), actions).loop.Polling?
    ensures var s := Run(Init(w, start), actions);
            (forall later :: NoEscape(later) && CommitsRecords(Run(s, later)) ==>
               Tally(Run(s, later).tasks, Opens) == 0)
            <==> w <= 1 || Tally(s.tasks, Opens) == 0
  {
    var s := Run(Init(w, start), actions);
    if w <= 1 || Tally(s.tasks, Opens) == 0 {
      forall later | NoEscape(later) && CommitsRecords(Run(s, later))
        ensures Tally(Run(s, later).tasks, Opens) == 0
      {
        var n := Tally(Run(s, later).tasks, Opens);
        assert Skips(s, later, n);
        CommitSkipsExactly(w, start, actions, n);
      }
    } else {
      CommitSkipsExactly(w, start, actions, 1);
      var later :| Skips(s, later, 1);
      assert CommitsRecords(Run(s, later));
    }
  }

  /** What a commit that works passes over: every record polled so far is below its partition's committed offset. */
  lemma {:induction false} CommitCoversAll(w: nat, start: map<nat, nat>, actions: seq<Action>, k: nat)
    requires var s := Run(Init(w, start), actions); s.loop.Committing? && k < |s.tasks|
    ensures var s := Run(Init(w, start), actions);
            s.tasks[k].offset < At(Step(s, Commit(true)).committed, s.tasks[k].partition)
  {
    var s := Run(Init(w, start), actions);
    RunKeepsInv(w, start, actions);
    TaskIsOffset(s.tasks, k);
    var p := s.tasks[k].partition;
    assert OffsetsOf(s.tasks, p) == Interval(At(start, p), At(s.position, p));
  }
}
