/** What an answer of the endpoint says about the log: exactly when an accepted job, and exactly when the job that a
    duplicate is answered with, stands in it. */
module Answers {

  import opened Wrappers
  import Intake
  import opened Ingest
  import opened Publication

  /** In state `s` step `a` is the `send` of request `r` in offline mode: it answers without an append. */
  ghost predicate Mocks(s: State, a: Action, r: nat) {
    a.Send? && a.r == r && a.sending.Mocked? && In(s, r) && s.requests[r].phase.Publishing?
  }

  /** Some step of the run is such a `send`. */
  ghost predicate HasMocked(env: Env, actions: seq<Action>, r: nat) {
    actions != []
    && (var before := actions[..|actions| - 1];
        Mocks(Run(env, Init(env), before), actions[|actions| - 1], r) || HasMocked(env, before, r))
  }

  ghost predicate SentBy(log: seq<Record>, r: nat) { exists e :: e in log && e.sender == r }

  /** The job a request is accepted with, from its `send` to its answer. */
  function AcceptedJob(ph: Phase): Option<Job> {
    match ph
    case Published(job) => Some(job)
    case Leaving(Accepted(job)) => Some(job)
    case Gone(Accepted(job)) => Some(job)
    case _ => None
  }

  predicate FoundAgain(ph: Phase) { (ph.Leaving? || ph.Gone?) && ph.response.Duplicate? }

  /** How request `r` and the log stand to each other, where `mocked` says that its `send` was offline. */
  ghost predicate Fate(s: State, r: nat, mocked: bool) {
    if !In(s, r) then !mocked && !SentBy(s.log, r)
    else
      var ph := s.requests[r].phase;
      && (!PastSend(ph) ==> !mocked && !SentBy(s.log, r))
      && (FoundAgain(ph) ==> !SentBy(s.log, r))
      && (AcceptedJob(ph).Some? ==>
            Owns(s, r, AcceptedJob(ph).value) && (Has(s.log, r, AcceptedJob(ph).value) <==> !mocked))
  }

  /** What a step that is not the request's own `send` does to it. */
  ghost predicate Onwards(p: Phase, q: Phase) {
    && (!PastSend(q) ==> !PastSend(p))
    && (FoundAgain(q) ==> FoundAgain(p) || !PastSend(p))
    && (AcceptedJob(q).Some? ==> AcceptedJob(p) == AcceptedJob(q))
  }

  lemma OwnOnwards(env: Env, s: State, a: Action)
    requires !a.Db? && !a.Arrive? && !a.Send? && In(s, a.r)
    ensures In(Step(env, s, a), a.r) && Onwards(s.requests[a.r].phase, Step(env, s, a).requests[a.r].phase)
  {}

  lemma OthersOnwards(env: Env, s: State, a: Action, r: nat)
    requires a.Db? || a.r != r
    ensures In(Step(env, s, a), r) <==> In(s, r)
    ensures In(s, r) ==> Step(env, s, a).requests[r] == s.requests[r]
  {}

  /** Nobody else's step appends a record of request `r`. */
  lemma OthersLog(env: Env, s: State, a: Action, r: nat)
    requires !a.Send? || a.r != r
    ensures SentBy(Step(env, s, a).log, r) <==> SentBy(s.log, r)
    ensures forall job :: Has(Step(env, s, a).log, r, job) <==> Has(s.log, r, job)
  {
    LogGrows(env, s, a);
    forall job ensures Has(Step(env, s, a).log, r, job) <==> Has(s.log, r, job) { LogStep(env, s, a, r, job); }
    SenderHasJob(s.log, r);
    SenderHasJob(Step(env, s, a).log, r);
  }

  lemma SenderHasJob(log: seq<Record>, r: nat)
    ensures SentBy(log, r) <==> exists job :: Has(log, r, job)
  {
    if e :| e in log && e.sender == r { assert Has(log, r, e.job); }
  }

  lemma OwnershipLasts(env: Env, s: State, a: Action, r: nat, job: Job)
    requires Owns(s, r, job)
    ensures Owns(Step(env, s, a), r, job)
  {
    if a.Db? {
      DbTxns(env, s.db, a.a);
    } else if a.Register? {
      if In(s, a.r) { DbTxns(env, s.db, Intake.Begin(Txn(a.r), s.requests[a.r].key, s.requests[a.r].agency)); }
    } else {
      OthersSpareDb(env, s, a);
    }
  }

  lemma QuietKeepsFate(env: Env, s: State, a: Action, r: nat, mocked: bool)
    requires Fate(s, r, mocked) && (!a.Send? || a.r != r)
    ensures Fate(Step(env, s, a), r, mocked)
  {
    var s' := Step(env, s, a);
    OthersLog(env, s, a, r);
    if a.Db? || a.r != r {
      OthersOnwards(env, s, a, r);
    } else if !a.Arrive? && In(s, r) {
      OwnOnwards(env, s, a);
    }
    if In(s, r) && AcceptedJob(s.requests[r].phase).Some? {
      OwnershipLasts(env, s, a, r, AcceptedJob(s.requests[r].phase).value);
    }
  }

  lemma SendKeepsFate(env: Env, s: State, r: nat, sending: Sending, mocked: bool)
    requires Inv(env, s) && Fate(s, r, mocked)
    ensures Fate(Step(env, s, Send(r, sending)), r, mocked || Mocks(s, Send(r, sending), r))
  {
    if In(s, r) && s.requests[r].phase.Publishing? {
      var job := s.requests[r].phase.job;
      assert Claims(s, r, job, s.requests[r].phase.number);
      SenderHasJob(s.log, r);
      LogStep(env, s, Send(r, sending), r, job);
      OthersSpareDb(env, s, Send(r, sending));
    }
  }

  lemma {:induction false} RunKeepsFate(env: Env, actions: seq<Action>, r: nat)
    ensures Fate(Run(env, Init(env), actions), r, HasMocked(env, actions, r))
  {
    if actions != [] {
      var before, a := actions[..|actions| - 1], actions[|actions| - 1];
      RunKeepsFate(env, before, r);
      RunKeepsInv(env, before);
      var s := Run(env, Init(env), before);
      if a.Send? && a.r == r {
        SendKeepsFate(env, s, r, a.sending, HasMocked(env, before, r));
      } else {
        QuietKeepsFate(env, s, a, r, HasMocked(env, before, r));
      }
    }
  }

  ghost predicate InLog(s: State, job: Job) { exists e :: e in s.log && e.job == job }

  /** For every run: a request answered Accepted has its job in the log, by its own `send`, exactly when that `send` was
      not offline. */
  lemma {:induction false} AcceptedIsLoggedIff(env: Env, actions: seq<Action>, r: nat)
    requires var s := Run(env, Init(env), actions);
             In(s, r) && s.requests[r].phase.Gone? && s.requests[r].phase.response.Accepted?
    ensures var s := Run(env, Init(env), actions);
            var job := s.requests[r].phase.response.job;
            && (InLog(s, job) <==> !HasMocked(env, actions, r))
            && (HasSent(env, actions, r, job) <==> !HasMocked(env, actions, r))
  {
    var job := Run(env, Init(env), actions).requests[r].phase.response.job;
    RunKeepsFate(env, actions, r);
    LoggedIffSent(env, actions, r, job);
    PublishedIffOwnerSent(env, actions, r, job);
  }

  /** For every run: the job a duplicate is answered with is in the log exactly when its owner, which is another
      request, executed a `send` for it that appended; the request so answered has sent nothing. */
  lemma {:induction false} DuplicateIsLoggedIff(env: Env, actions: seq<Action>, q: nat)
    requires var s := Run(env, Init(env), actions);
             In(s, q) && s.requests[q].phase.Gone? && s.requests[q].phase.response.Duplicate?
    ensures var s := Run(env, Init(env), actions);
            var job := s.requests[q].phase.response.job;
            && !SentBy(s.log, q)
            && (InLog(s, job) <==> exists r :: r != q && Owns(s, r, job) && HasSent(env, actions, r, job))
  {
    var s := Run(env, Init(env), actions);
    var job := s.requests[q].phase.response.job;
    RunKeepsFate(env, actions, q);
    RunKeepsInv(env, actions);
    if e :| e in s.log && e.job == job {
      assert Genuine(env, s, e) && Owns(s, e.sender, job) && Has(s.log, e.sender, job);
      LoggedIffSent(env, actions, e.sender, job);
      assert e.sender != q;
    }
    if r :| r != q && Owns(s, r, job) && HasSent(env, actions, r, job) { LoggedIffSent(env, actions, r, job); }
  }
}
