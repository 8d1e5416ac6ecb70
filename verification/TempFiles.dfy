/** The temporary files of `save_document`: which of them are there, in any run, with write errors and crashes. */
module TempFiles {

  import opened Wrappers
  import opened Storage

  /** The file that a step leaves behind for good: its process crashes, or its clean-up fails. */
  function LeftBehind(s: State, a: Action): set<nat> {
    match OwnedBy(s, a.p)
    case Some(tmp) =>
      if a.Crash? || (a.CleanUp? && !a.works && s.savers[a.p].phase.Failed?) then {tmp} else {}
    case None => {}
  }

  /** The files left behind in a run. */
  function Leaked(sha: Bytes -> string, actions: seq<Action>): set<nat> {
    if actions == [] then {}
    else
      var before := actions[..|actions| - 1];
      Leaked(sha, before) + LeftBehind(Run(sha, EMPTY, before), actions[|actions| - 1])
  }

  ghost predicate Owned(s: State, tmp: nat) { exists p :: OwnedBy(s, p) == Some(tmp) }

  /** The temporary files are exactly those that an unfinished call owns and those left behind. */
  ghost predicate Accounted(s: State, leaked: set<nat>) {
    && (forall tmp :: tmp in s.tmps <==> tmp in leaked || Owned(s, tmp))
    && (forall tmp :: tmp in leaked ==> !Owned(s, tmp))
  }

  /** What a step does to the files of its own call. */
  ghost predicate OwnFile(s: State, s': State, a: Action) {
    var o, o' := OwnedBy(s, a.p), OwnedBy(s', a.p);
    if o == o' then s'.tmps.Keys == s.tmps.Keys && LeftBehind(s, a) == {}
    else if o'.Some? then o.None? && o'.value !in s.tmps && s'.tmps.Keys == s.tmps.Keys + {o'.value}
    else s'.tmps.Keys == s.tmps.Keys - ({o.value} - LeftBehind(s, a))
  }

  lemma StepOwnFile(sha: Bytes -> string, s: State, a: Action)
    requires Inv(sha, s)
    ensures OwnFile(s, Step(sha, s, a), a)
  {
    assert OwnedBy(s, a.p).Some? ==> OwnedBy(s, a.p).value in s.tmps;
    var s' := Step(sha, s, a);
    match a
    case Open(p, tmp) => OpenOwnFile(sha, s, p, tmp);
    case Rename(p) => RenameOwnFile(sha, s, p);
    case CleanUp(p, works) => CleanUpOwnFile(sha, s, p, works);
    case Write(p, upTo) => assert s'.tmps.Keys == s.tmps.Keys;
    case _ => assert s'.tmps == s.tmps;
  }

  lemma OpenOwnFile(sha: Bytes -> string, s: State, p: nat, tmp: nat)
    ensures OwnFile(s, Step(sha, s, Open(p, tmp)), Open(p, tmp))
  {
    if p in s.savers && s.savers[p].phase.Missing? && tmp !in s.tmps {
      assert Step(sha, s, Open(p, tmp)).tmps.Keys == s.tmps.Keys + {tmp};
    }
  }

  lemma RenameOwnFile(sha: Bytes -> string, s: State, p: nat)
    requires OwnedBy(s, p).Some? ==> OwnedBy(s, p).value in s.tmps
    ensures OwnFile(s, Step(sha, s, Rename(p)), Rename(p))
  {
    if Step(sha, s, Rename(p)) != s {
      var tmp := s.savers[p].phase.tmp;
      assert Step(sha, s, Rename(p)).tmps.Keys == s.tmps.Keys - {tmp};
    }
  }

  lemma CleanUpOwnFile(sha: Bytes -> string, s: State, p: nat, works: bool)
    ensures OwnFile(s, Step(sha, s, CleanUp(p, works)), CleanUp(p, works))
  {
    if p in s.savers && s.savers[p].phase.Failed? && s.savers[p].phase.left.Some? {
      var tmp := s.savers[p].phase.left.value;
      assert (s.tmps - {tmp}).Keys == s.tmps.Keys - {tmp};
      assert LeftBehind(s, CleanUp(p, works)) == if works then {} else {tmp};
    }
  }

  lemma OthersKeepFiles(sha: Bytes -> string, s: State, a: Action, p: nat)
    requires p != a.p
    ensures OwnedBy(Step(sha, s, a), p) == OwnedBy(s, p)
  {}

  /** Who owns a file after a step: its call's new file is nobody else's, and its old one was nobody else's. */
  lemma OwnedAfter(sha: Bytes -> string, s: State, a: Action, tmp: nat)
    requires Owners(s)
    ensures var s' := Step(sha, s, a);
            Owned(s', tmp) <==>
            OwnedBy(s', a.p) == Some(tmp) || (Owned(s, tmp) && OwnedBy(s, a.p) != Some(tmp))
  {
    var s' := Step(sha, s, a);
    if p :| OwnedBy(s', p) == Some(tmp) {
      if p != a.p { OthersKeepFiles(sha, s, a, p); }
    }
    if p :| OwnedBy(s, p) == Some(tmp) && OwnedBy(s, a.p) != Some(tmp) {
      OthersKeepFiles(sha, s, a, p);
    }
  }

  lemma StepAccounts(sha: Bytes -> string, s: State, a: Action, leaked: set<nat>)
    requires Inv(sha, s) && Accounted(s, leaked)
    ensures Accounted(Step(sha, s, a), leaked + LeftBehind(s, a))
  {
    var s' := Step(sha, s, a);
    StepOwnFile(sha, s, a);
    forall tmp
      ensures tmp in s'.tmps <==> tmp in leaked + LeftBehind(s, a) || Owned(s', tmp)
      ensures tmp in leaked + LeftBehind(s, a) ==> !Owned(s', tmp)
    {
      OwnedAfter(sha, s, a, tmp);
      assert OwnedBy(s, a.p) == Some(tmp) ==> Owned(s, tmp);
      assert tmp in s.tmps <==> tmp in leaked || Owned(s, tmp);
    }
  }

  /** In every run the temporary files are exactly those that an unfinished call still owns, and those that a crash or a
      failed clean-up has left behind: a call that ended otherwise has removed or renamed its own. */
  lemma {:induction false} TempsAreAccounted(sha: Bytes -> string, actions: seq<Action>)
    ensures Accounted(Run(sha, EMPTY, actions), Leaked(sha, actions))
  {
    if actions != [] {
      var before := actions[..|actions| - 1];
      TempsAreAccounted(sha, before);
      RunKeepsInv(sha, EMPTY, before);
      StepAccounts(sha, Run(sha, EMPTY, before), actions[|actions| - 1], Leaked(sha, before));
    }
  }

  lemma {:induction false} NothingLeaked(sha: Bytes -> string, actions: seq<Action>)
    requires forall i :: 0 <= i < |actions| ==> !actions[i].Crash? && !(actions[i].CleanUp? && !actions[i].works)
    ensures Leaked(sha, actions) == {}
  {
    if actions != [] { NothingLeaked(sha, actions[..|actions| - 1]); }
  }

  /** Without crashes and failed clean-ups nothing temporary is left once every call is over. */
  lemma {:induction false} NoTempsRemain(sha: Bytes -> string, actions: seq<Action>)
    requires forall i :: 0 <= i < |actions| ==> !actions[i].Crash? && !(actions[i].CleanUp? && !actions[i].works)
    requires forall p :: p in Run(sha, EMPTY, actions).savers ==> Final(Run(sha, EMPTY, actions).savers[p].phase)
    ensures Run(sha, EMPTY, actions).tmps == map[]
  {
    var s := Run(sha, EMPTY, actions);
    TempsAreAccounted(sha, actions);
    NothingLeaked(sha, actions);
    forall tmp ensures tmp !in s.tmps {
      if p :| OwnedBy(s, p) == Some(tmp) { assert Final(s.savers[p].phase); }
    }
  }
}
