/** Content-addressed storage: `ContentAddressableStorage.save_document` and `read_document` over a file system
    that any number of processes share. Every file-system call is one atomic step; a process can fail at any
    call and crash between any two. A step that is not enabled leaves the state as it is. */
module Storage {

  import opened Wrappers

  type Bytes = seq<int>

  const MAX_PAYLOAD_BYTES := 26214400

  /** Where one call of `save_document` stands. `Writing` owns a temporary file that holds the first `k` bytes;
      `Failed` may still own one. The last five are final for the local files. */
  datatype Phase =
    | Started
    | Missing
    | Writing(tmp: nat, k: nat)
    | Failed(left: Option<nat>)
    | Saved
    | Unsaved
    | Refused
    | Crashed

  datatype Saver = Saver(content: Bytes, phase: Phase)

  /** Published blobs by hash, temporary files by name, and the calls under way. */
  datatype State = State(blobs: map<string, Bytes>, tmps: map<nat, Bytes>, savers: map<nat, Saver>)

  datatype Action =
    | Start(p: nat, content: Bytes)
    | CheckExists(p: nat)
    | Open(p: nat, tmp: nat)
    | Write(p: nat, upTo: nat)
    | Rename(p: nat)
    | Fail(p: nat)
    | CleanUp(p: nat, works: bool)
    | Crash(p: nat)

  const EMPTY := State(map[], map[], map[])

  predicate Final(ph: Phase) { ph.Saved? || ph.Unsaved? || ph.Refused? || ph.Crashed? }

  function Move(s: State, p: nat, ph: Phase): State
    requires p in s.savers
  {
    s.(savers := s.savers[p := s.savers[p].(phase := ph)])
  }

  /** The temporary file a call owns, if any. */
  function Owned(ph: Phase): Option<nat> {
    match ph
    case Writing(tmp, _) => Some(tmp)
    case Failed(left) => left
    case _ => None
  }

  function Step(sha: Bytes -> string, s: State, a: Action): State {
    if a.Start? then
      if a.p in s.savers then s
      else s.(savers := s.savers[a.p := Saver(a.content, if |a.content| > MAX_PAYLOAD_BYTES then Refused else Started)])
    else if a.p !in s.savers then s
    else
      var x := s.savers[a.p];
      match a
      case CheckExists(p) =>
        if !x.phase.Started? then s
        else if sha(x.content) in s.blobs then Move(s, p, Saved)
        else Move(s, p, Missing)
      case Open(p, tmp) =>
        if !x.phase.Missing? then s
        else if tmp in s.tmps then Move(s, p, Failed(None))
        else Move(s.(tmps := s.tmps[tmp := []]), p, Writing(tmp, 0))
      case Write(p, upTo) =>
        if !x.phase.Writing? || !(x.phase.k <= upTo <= |x.content|) then s
        else if x.phase.tmp !in s.tmps then Move(s, p, Failed(None))
        else
          var grown := s.tmps[x.phase.tmp] + x.content[x.phase.k..upTo];
          Move(s.(tmps := s.tmps[x.phase.tmp := grown]), p, Writing(x.phase.tmp, upTo))
      case Rename(p) =>
        if !x.phase.Writing? || x.phase.k != |x.content| then s
        else if x.phase.tmp !in s.tmps then Move(s, p, Failed(None))
        else
          Move(State(s.blobs[sha(x.content) := s.tmps[x.phase.tmp]], s.tmps - {x.phase.tmp}, s.savers), p, Saved)
      case Fail(p) =>
        if x.phase.Missing? then Move(s, p, Failed(None))
        else if x.phase.Writing? then Move(s, p, Failed(Some(x.phase.tmp)))
        else s
      case CleanUp(p, works) =>
        if !x.phase.Failed? then s
        else Move(if works && x.phase.left.Some? then s.(tmps := s.tmps - {x.phase.left.value}) else s, p, Unsaved)
      case Crash(p) =>
        if Final(x.phase) then s else Move(s, p, Crashed)
  }

  function Run(sha: Bytes -> string, s: State, actions: seq<Action>): State {
    if actions == [] then s
    else Step(sha, Run(sha, s, actions[..|actions| - 1]), actions[|actions| - 1])
  }

  lemma {:induction false} RunSnoc(sha: Bytes -> string, s: State, xs: seq<Action>, a: Action)
    ensures Run(sha, s, xs + [a]) == Step(sha, Run(sha, s, xs), a)
  {
    assert (xs + [a])[..|xs|] == xs;
  }

  lemma {:induction false} RunConcat(sha: Bytes -> string, s: State, xs: seq<Action>, ys: seq<Action>)
    ensures Run(sha, s, xs + ys) == Run(sha, Run(sha, s, xs), ys)
  {
    if ys == [] {
      assert xs + ys == xs;
    } else {
      var init, last := ys[..|ys| - 1], ys[|ys| - 1];
      assert xs + ys == (xs + init) + [last] && ys == init + [last];
      RunSnoc(sha, s, xs + init, last);
      RunSnoc(sha, Run(sha, s, xs), init, last);
      RunConcat(sha, s, xs, init);
    }
  }

  /** `read_document`. */
  function Read(s: State, h: string): Option<Bytes> { if h in s.blobs then Some(s.blobs[h]) else None }

  // ---------------------------------------------------------------- the invariant

  /** Every published file holds bytes of its own name's hash, so none is partial. */
  ghost predicate Intact(sha: Bytes -> string, s: State) {
    forall h :: h in s.blobs ==> sha(s.blobs[h]) == h
  }

  /** A temporary file being written holds exactly the bytes written so far. */
  ghost predicate WrittenSoFar(s: State) {
    forall p :: p in s.savers && s.savers[p].phase.Writing? ==>
                  var x := s.savers[p];
                  x.phase.tmp in s.tmps && x.phase.k <= |x.content| && s.tmps[x.phase.tmp] == x.content[..x.phase.k]
  }

  /** No two calls own the same temporary file, and an owned file exists. */
  ghost predicate Owners(s: State) {
    && (forall p, q :: p != q && OwnedBy(s, p).Some? ==> OwnedBy(s, p) != OwnedBy(s, q))
    && (forall p :: OwnedBy(s, p).Some? ==> OwnedBy(s, p).value in s.tmps)
  }

  ghost predicate Published(sha: Bytes -> string, s: State) {
    forall p :: p in s.savers && s.savers[p].phase.Saved? ==> sha(s.savers[p].content) in s.blobs
  }

  /** Every published file holds the content of some call. */
  ghost predicate Sourced(s: State) {
    forall h :: h in s.blobs ==> exists p :: p in s.savers && s.savers[p].content == s.blobs[h]
  }

  ghost predicate Inv(sha: Bytes -> string, s: State) {
    Intact(sha, s) && WrittenSoFar(s) && Owners(s) && Published(sha, s) && Sourced(s)
  }

  /** A rename publishes its call's whole content under the content's hash; no other step publishes anything. */
  lemma StepPublishes(sha: Bytes -> string, s: State, a: Action)
    requires WrittenSoFar(s)
    ensures var s' := Step(sha, s, a);
            || s'.blobs == s.blobs
            || (a.Rename? && a.p in s.savers
                && s'.blobs == s.blobs[sha(s.savers[a.p].content) := s.savers[a.p].content])
  {
    if a.Rename? && a.p in s.savers {
      var x := s.savers[a.p];
      assert x.content[..|x.content|] == x.content;
    }
  }

  /** Calls keep their content. */
  lemma StepKeepsContents(sha: Bytes -> string, s: State, a: Action)
    ensures var s' := Step(sha, s, a);
            forall p :: p in s.savers ==> p in s'.savers && s'.savers[p].content == s.savers[p].content
  {}

  lemma StepKeepsBlobs(sha: Bytes -> string, s: State, a: Action)
    requires WrittenSoFar(s) && Intact(sha, s) && Sourced(s)
    ensures Intact(sha, Step(sha, s, a)) && Sourced(Step(sha, s, a))
  {
    var s' := Step(sha, s, a);
    StepPublishes(sha, s, a);
    StepKeepsContents(sha, s, a);
    forall h | h in s'.blobs ensures exists p :: p in s'.savers && s'.savers[p].content == s'.blobs[h] {
      if h in s.blobs && s'.blobs[h] == s.blobs[h] {
        var p :| p in s.savers && s.savers[p].content == s.blobs[h];
        assert s'.savers[p].content == s'.blobs[h];
      } else {
        assert s'.savers[a.p].content == s'.blobs[h];
      }
    }
  }

  lemma StepKeepsPublished(sha: Bytes -> string, s: State, a: Action)
    requires Published(sha, s)
    ensures Published(sha, Step(sha, s, a))
  {}

  lemma StepKeepsInv(sha: Bytes -> string, s: State, a: Action)
    requires Inv(sha, s)
    ensures Inv(sha, Step(sha, s, a))
  {
    StepKeepsWritten(sha, s, a);
    StepKeepsOwners(sha, s, a);
    StepKeepsBlobs(sha, s, a);
    StepKeepsPublished(sha, s, a);
  }

  lemma StepKeepsWritten(sha: Bytes -> string, s: State, a: Action)
    requires WrittenSoFar(s) && Owners(s)
    ensures WrittenSoFar(Step(sha, s, a))
  {
    var s' := Step(sha, s, a);
    forall p | p in s'.savers && s'.savers[p].phase.Writing?
      ensures var x := s'.savers[p];
              x.phase.tmp in s'.tmps && x.phase.k <= |x.content| && s'.tmps[x.phase.tmp] == x.content[..x.phase.k]
    {
      if p != a.p {
        assert s'.savers[p] == s.savers[p];
        var tmp := s.savers[p].phase.tmp;
        assert OwnedBy(s, p) == Some(tmp) && OwnedBy(s, a.p) != Some(tmp);
        assert tmp in s'.tmps && s'.tmps[tmp] == s.tmps[tmp];
      }
    }
  }

  function OwnedBy(s: State, p: nat): Option<nat> { if p in s.savers then Owned(s.savers[p].phase) else None }

  /** A step gives its call no file but a new one, and removes no file but its call's own. */
  lemma StepMovesOwner(sha: Bytes -> string, s: State, a: Action)
    ensures var s' := Step(sha, s, a);
            && (forall p :: p != a.p ==> OwnedBy(s', p) == OwnedBy(s, p))
            && (var o := OwnedBy(s', a.p);
                o.None? || o == OwnedBy(s, a.p) || (o.value !in s.tmps && o.value in s'.tmps))
            && (forall tmp :: tmp in s.tmps && tmp !in s'.tmps ==>
                                OwnedBy(s, a.p) == Some(tmp) && OwnedBy(s', a.p) == None)
  {}

  lemma StepKeepsOwners(sha: Bytes -> string, s: State, a: Action)
    requires Owners(s)
    ensures Owners(Step(sha, s, a))
  {
    var s' := Step(sha, s, a);
    StepMovesOwner(sha, s, a);
    assert forall p :: OwnedBy(s, p).Some? ==> OwnedBy(s, p).value in s.tmps;
  }

  lemma {:induction false} RunKeepsInv(sha: Bytes -> string, s: State, actions: seq<Action>)
    requires Inv(sha, s)
    ensures Inv(sha, Run(sha, s, actions))
  {
    if actions != [] {
      RunKeepsInv(sha, s, actions[..|actions| - 1]);
      StepKeepsInv(sha, Run(sha, s, actions[..|actions| - 1]), actions[|actions| - 1]);
    }
  }

  // ---------------------------------------------------------------- main results

  /** In every run, with write errors and crashes at any step, every published file has its name's hash. */
  lemma {:induction false} BlobsAreIntact(sha: Bytes -> string, actions: seq<Action>)
    ensures forall h :: h in Run(sha, EMPTY, actions).blobs ==> sha(Run(sha, EMPTY, actions).blobs[h]) == h
  {
    RunKeepsInv(sha, EMPTY, actions);
  }

  /** A published file never disappears, and whatever replaces its bytes has the same hash. */
  lemma {:induction false} BlobsStay(sha: Bytes -> string, s: State, actions: seq<Action>, h: string)
    requires Inv(sha, s) && h in s.blobs
    ensures h in Run(sha, s, actions).blobs && sha(Run(sha, s, actions).blobs[h]) == sha(s.blobs[h]) == h
  {
    RunKeepsInv(sha, s, actions);
    if actions != [] {
      BlobsStay(sha, s, actions[..|actions| - 1], h);
    }
  }

  /** No two calls save different bytes with one hash. */
  ghost predicate NoCollision(sha: Bytes -> string, s: State) {
    forall p, q :: p in s.savers && q in s.savers && sha(s.savers[p].content) == sha(s.savers[q].content) ==>
                     s.savers[p].content == s.savers[q].content
  }

  lemma {:induction false} RunKeepsContents(sha: Bytes -> string, s: State, actions: seq<Action>, p: nat)
    requires p in s.savers
    ensures p in Run(sha, s, actions).savers && Run(sha, s, actions).savers[p].content == s.savers[p].content
  {
    if actions != [] {
      var before := actions[..|actions| - 1];
      RunKeepsContents(sha, s, before, p);
      StepKeepsContents(sha, Run(sha, s, before), actions[|actions| - 1]);
    }
  }

  /** What a file holds is the content of every call with the file's hash, unless two contents of the run collide. */
  lemma BlobIsContent(sha: Bytes -> string, s: State, h: string, p: nat)
    requires Inv(sha, s) && NoCollision(sha, s) && p in s.savers && sha(s.savers[p].content) == h && h in s.blobs
    ensures s.blobs[h] == s.savers[p].content
  {
    var q :| q in s.savers && s.savers[q].content == s.blobs[h];
  }

  /** As long as no two contents saved in the run have one hash, a published file never changes. */
  lemma {:induction false} BlobsNeverRevert(sha: Bytes -> string, s: State, actions: seq<Action>, h: string)
    requires Inv(sha, s) && h in s.blobs && NoCollision(sha, Run(sha, s, actions))
    ensures Read(Run(sha, s, actions), h) == Some(s.blobs[h])
  {
    BlobsStay(sha, s, actions, h);
    RunKeepsInv(sha, s, actions);
    var q :| q in s.savers && s.savers[q].content == s.blobs[h];
    RunKeepsContents(sha, s, actions, q);
    BlobIsContent(sha, Run(sha, s, actions), h, q);
  }

  /** After a save whose local write succeeded, at any later time, reading returns bytes with the saved hash; and the
      saved bytes themselves, as long as no two contents saved in the run have one hash. */
  lemma {:induction false} SavedBytesAreRead(sha: Bytes -> string, s: State, p: nat, actions: seq<Action>)
    requires Inv(sha, s) && p in s.savers && s.savers[p].phase.Saved?
    ensures var content := s.savers[p].content;
            var r := Read(Run(sha, s, actions), sha(content));
            r.Some? && sha(r.value) == sha(content)
    ensures NoCollision(sha, Run(sha, s, actions)) ==>
              Read(Run(sha, s, actions), sha(s.savers[p].content)) == Some(s.savers[p].content)
  {
    var h := sha(s.savers[p].content);
    BlobsStay(sha, s, actions, h);
    RunKeepsInv(sha, s, actions);
    RunKeepsContents(sha, s, actions, p);
    if NoCollision(sha, Run(sha, s, actions)) { BlobIsContent(sha, Run(sha, s, actions), h, p); }
  }

  /** Nothing is published before somebody renames a complete file: a hash that no call saved is not readable. */
  lemma {:induction false} OnlySavesPublish(sha: Bytes -> string, actions: seq<Action>, h: string)
    requires h in Run(sha, EMPTY, actions).blobs
    ensures var s := Run(sha, EMPTY, actions);
            exists p :: p in s.savers && s.savers[p].phase.Saved? && sha(s.savers[p].content) == h
  {
    if actions != [] {
      var before, a := actions[..|actions| - 1], actions[|actions| - 1];
      var s, s' := Run(sha, EMPTY, before), Run(sha, EMPTY, actions);
      if h in s.blobs {
        OnlySavesPublish(sha, before, h);
        var p :| p in s.savers && s.savers[p].phase.Saved? && sha(s.savers[p].content) == h;
        assert s'.savers[p] == s.savers[p];
      } else {
        assert a.Rename? && s'.savers[a.p].phase.Saved? && sha(s'.savers[a.p].content) == h;
      }
    }
  }

  /** Reading succeeds exactly when some call with that hash wrote its file. A call whose own write failed
      returns normally all the same, so its bytes need not be readable. */
  lemma {:induction false} ReadableIffSaved(sha: Bytes -> string, actions: seq<Action>, h: string)
    ensures var s := Run(sha, EMPTY, actions);
            Read(s, h).Some? <==> exists p :: p in s.savers && s.savers[p].phase.Saved? && sha(s.savers[p].content) == h
  {
    RunKeepsInv(sha, EMPTY, actions);
    if Read(Run(sha, EMPTY, actions), h).Some? { OnlySavesPublish(sha, actions, h); }
  }

  // ---------------------------------------------------------------- one call's steps

  /** How many bytes go first. */
  function Part(content: Bytes, chunk: nat): (part: nat)
    ensures part <= |content|
  {
    if chunk < |content| then chunk else |content|
  }

  /** The calls of `save_document` in order, with a write error in place of one of them. */
  function Plan(p: nat, content: Bytes, tmp: nat, chunk: nat, failAt: nat): seq<Action> {
    var script := [Start(p, content), CheckExists(p), Open(p, tmp), Write(p, Part(content, chunk)),
                   Write(p, |content|), Rename(p)];
    if 2 <= failAt < 6 then script[failAt := Fail(p)] else script
  }

  ghost predicate Foreign(others: seq<seq<Action>>, p: nat) {
    forall i, j :: 0 <= i < |others| && 0 <= j < |others[i]| ==> others[i][j].p != p
  }

  lemma {:induction false} WeaveNext(sha: Bytes -> string, s: State, others: seq<seq<Action>>, own: seq<Action>,
                                     a: Action)
    requires |own| < |others|
    ensures Run(sha, s, Weave(others, own + [a])) ==
            Step(sha, Run(sha, Run(sha, s, Weave(others, own)), others[|own|]), a)
  {
    WeaveSnoc(others, own, a);
    RunConcat(sha, s, Weave(others, own), others[|own|]);
    RunSnoc(sha, s, Weave(others, own) + others[|own|], a);
  }

  /** Where a call on `n` bytes stands in front of step `k`. */
  ghost predicate Stage(n: nat, k: nat, ph: Phase) {
    match ph
    case Started => k == 1
    case Missing => k == 2
    case Writing(_, written) => (k == 3 && written == 0) || (k == 4 && written <= n) || (k == 5 && written == n)
    case _ => false
  }

  /** The ways in which a call can be over after `k` steps: the file was there, or it has been published, or an
      error. */
  predicate Ended(k: nat, ph: Phase) { ph.Failed? || (ph.Saved? && (k == 2 || k == 6)) }

  /** An own step that takes a call on `n` bytes from stage `k` to the next one, or to an end. */
  ghost predicate Suits(p: nat, n: nat, a: Action, k: nat) {
    && a.p == p && !a.Start?
    && forall x: Saver, q ::
         |x.content| == n && Stage(n, k, x.phase) && Leads(x, a, q) ==> Ended(k + 1, q) || Stage(n, k + 1, q)
  }

  /** The steps up to number `last` suit their stages. */
  ghost predicate AllSuit(p: nat, n: nat, plan: seq<Action>, last: nat)
    requires last < |plan|
  {
    last == 0 || (Suits(p, n, plan[last], last) && AllSuit(p, n, plan, last - 1))
  }

  lemma {:induction false} SuitsStep(p: nat, n: nat, plan: seq<Action>, last: nat, k: nat, x: Saver, q: Phase)
    requires last < |plan| && AllSuit(p, n, plan, last) && 0 < k <= last
    requires |x.content| == n && Stage(n, k, x.phase) && Leads(x, plan[k], q)
    ensures Ended(k + 1, q) || Stage(n, k + 1, q)
  {
    SuitsAt(p, n, plan, last, k);
  }

  lemma {:induction false} OwnSteps(p: nat, n: nat, plan: seq<Action>, last: nat, k: nat)
    requires last < |plan| && AllSuit(p, n, plan, last) && 0 < k <= last
    ensures plan[k].p == p && !plan[k].Start?
  {
    SuitsAt(p, n, plan, last, k);
  }

  lemma {:induction false} SuitsAt(p: nat, n: nat, plan: seq<Action>, last: nat, k: nat)
    requires last < |plan| && AllSuit(p, n, plan, last) && 0 < k <= last
    ensures Suits(p, n, plan[k], k)
  {
    if k < last { SuitsAt(p, n, plan, last - 1, k); }
  }

  lemma PlanSuits(p: nat, content: Bytes, tmp: nat, chunk: nat, failAt: nat)
    ensures AllSuit(p, |content|, Plan(p, content, tmp, chunk, failAt), 5)
  {
    var n, plan := |content|, Plan(p, content, tmp, chunk, failAt);
    assert Suits(p, n, plan[1], 1) && Suits(p, n, plan[2], 2) && Suits(p, n, plan[3], 3);
    assert Suits(p, n, plan[4], 4) && Suits(p, n, plan[5], 5);
    assert AllSuit(p, n, plan, 2);
    assert AllSuit(p, n, plan, 4);
  }

  /** Where a step of its own can take a call. */
  ghost predicate Leads(x: Saver, a: Action, q: Phase) {
    match a
    case CheckExists(_) => x.phase.Started? ==> q.Saved? || q.Missing?
    case Open(_, tmp) => x.phase.Missing? ==> q == Failed(None) || q == Writing(tmp, 0)
    case Write(_, upTo) =>
      x.phase.Writing? && x.phase.k <= upTo <= |x.content| ==> q.Failed? || q == Writing(x.phase.tmp, upTo)
    case Rename(_) => x.phase.Writing? && x.phase.k == |x.content| ==> q.Failed? || q.Saved?
    case Fail(_) => x.phase.Missing? || x.phase.Writing? ==> q.Failed?
    case CleanUp(_, _) => x.phase.Failed? ==> q.Unsaved?
    case _ => true
  }

  lemma StepLeads(sha: Bytes -> string, s: State, a: Action)
    requires !a.Start? && a.p in s.savers
    ensures var s' := Step(sha, s, a);
            && a.p in s'.savers && s'.savers[a.p] == s.savers[a.p].(phase := s'.savers[a.p].phase)
            && Leads(s.savers[a.p], a, s'.savers[a.p].phase)
  {}

  lemma StepSpares(sha: Bytes -> string, s: State, a: Action, p: nat)
    requires a.p != p
    ensures var s' := Step(sha, s, a);
            (p in s'.savers <==> p in s.savers) && (p in s.savers ==> s'.savers[p] == s.savers[p])
  {}

  // ---------------------------------------------------------------- when a save succeeds

  /** The state after the first `k` steps of a plan. */
  ghost function After(sha: Bytes -> string, s: State, others: seq<seq<Action>>, plan: seq<Action>, k: nat): State
    requires k <= |plan| <= |others|
  {
    Run(sha, s, Weave(others, plan[..k]))
  }

  lemma {:induction false} AfterNext(sha: Bytes -> string, s: State, others: seq<seq<Action>>, plan: seq<Action>,
                                     k: nat)
    requires k < |plan| <= |others|
    ensures After(sha, s, others, plan, k + 1) ==
            Step(sha, Run(sha, After(sha, s, others, plan, k), others[k]), plan[k])
  {
    assert plan[..k + 1] == plan[..k] + [plan[k]];
    WeaveNext(sha, s, others, plan[..k], plan[k]);
  }

  /** A name that exists nowhere and that nobody else is given. */
  ghost predicate FreshName(s: State, others: seq<seq<Action>>, tmp: nat) {
    && tmp !in s.tmps
    && forall i, j :: 0 <= i < |others| && 0 <= j < |others[i]| && others[i][j].Open? ==> others[i][j].tmp != tmp
  }

  /** Call `p` on its way, with its temporary name still free or already its own. */
  ghost predicate OnCourse(s: State, p: nat, content: Bytes, tmp: nat, k: nat) {
    && (p in s.savers <==> k > 0)
    && (k > 0 ==> && s.savers[p].content == content
                  && ((k > 1 && s.savers[p].phase.Saved?) || Stage(|content|, k, s.savers[p].phase)))
    && (k <= 2 ==> tmp !in s.tmps)
  }

  lemma {:induction false} OthersSpare(sha: Bytes -> string, s: State, acts: seq<Action>, p: nat, tmp: nat)
    requires forall j :: 0 <= j < |acts| ==> acts[j].p != p && (acts[j].Open? ==> acts[j].tmp != tmp)
    ensures var s' := Run(sha, s, acts);
            && (p in s'.savers <==> p in s.savers) && (p in s.savers ==> s'.savers[p] == s.savers[p])
            && (tmp !in s.tmps ==> tmp !in s'.tmps)
  {
    if acts != [] {
      var before := acts[..|acts| - 1];
      OthersSpare(sha, s, before, p, tmp);
      StepSpares(sha, Run(sha, s, before), acts[|acts| - 1], p);
      if tmp !in s.tmps { StepNamesOpened(sha, Run(sha, s, before), acts[|acts| - 1], tmp); }
    }
  }

  lemma StepNamesOpened(sha: Bytes -> string, s: State, a: Action, tmp: nat)
    requires tmp !in s.tmps && (a.Open? ==> a.tmp != tmp)
    ensures tmp !in Step(sha, s, a).tmps
  {}

  /** Step `k` of a call that meets no error; `part` bytes go first. */
  function Healthy(p: nat, content: Bytes, tmp: nat, part: nat, k: nat): Action {
    if k == 0 then Start(p, content)
    else if k == 1 then CheckExists(p)
    else if k == 2 then Open(p, tmp)
    else if k == 3 then Write(p, part)
    else if k == 4 then Write(p, |content|)
    else Rename(p)
  }

  /** The call goes on, and between the check and the rename it is not saved. */
  lemma HealthyStep(sha: Bytes -> string, s: State, a: Action, p: nat, content: Bytes, tmp: nat, part: nat, k: nat)
    requires a == Healthy(p, content, tmp, part, k)
    requires k < 6 && |content| <= MAX_PAYLOAD_BYTES && part <= |content|
    requires OnCourse(s, p, content, tmp, k) && WrittenSoFar(s)
    ensures var s' := Step(sha, s, a);
            && OnCourse(s', p, content, tmp, k + 1)
            && (k == 1 ==> (s'.savers[p].phase.Saved? <==> sha(content) in s.blobs))
            && (2 <= k < 5 && !s.savers[p].phase.Saved? ==> !s'.savers[p].phase.Saved?)
  {}

  /** A call by `p` with a name of its own, among calls by others. */
  ghost predicate Alone(s: State, others: seq<seq<Action>>, p: nat, content: Bytes, tmp: nat, part: nat) {
    && p !in s.savers && |content| <= MAX_PAYLOAD_BYTES && part <= |content| && |others| == 7
    && Foreign(others, p) && FreshName(s, others, tmp)
  }

  /** The state in which own step `k` runs. */
  lemma {:induction false} BeforeStep(sha: Bytes -> string, s: State, others: seq<seq<Action>>, plan: seq<Action>,
                                      p: nat, content: Bytes, tmp: nat, k: nat) returns (m: State)
    requires k < |plan| == 6 && |others| == 7 && Foreign(others, p) && FreshName(s, others, tmp) && Inv(sha, s)
    requires OnCourse(After(sha, s, others, plan, k), p, content, tmp, k)
    ensures m == Run(sha, After(sha, s, others, plan, k), others[k]) && WrittenSoFar(m)
    ensures OnCourse(m, p, content, tmp, k) && After(sha, s, others, plan, k + 1) == Step(sha, m, plan[k])
    ensures p in m.savers ==> m.savers[p] == After(sha, s, others, plan, k).savers[p]
  {
    var x := After(sha, s, others, plan, k);
    m := Run(sha, x, others[k]);
    AfterNext(sha, s, others, plan, k);
    OthersSpare(sha, x, others[k], p, tmp);
    RunConcat(sha, s, Weave(others, plan[..k]), others[k]);
    RunKeepsInv(sha, s, Weave(others, plan[..k]) + others[k]);
  }

  lemma {:induction false} CourseStep(sha: Bytes -> string, s: State, others: seq<seq<Action>>, plan: seq<Action>,
                                      p: nat, content: Bytes, tmp: nat, part: nat, k: nat)
    requires k < |plan| == 6 && Alone(s, others, p, content, tmp, part) && plan[k] == Healthy(p, content, tmp, part, k)
    requires Inv(sha, s) && OnCourse(After(sha, s, others, plan, k), p, content, tmp, k)
    ensures OnCourse(After(sha, s, others, plan, k + 1), p, content, tmp, k + 1)
    ensures 2 <= k < 5 && !After(sha, s, others, plan, k).savers[p].phase.Saved? ==>
              !After(sha, s, others, plan, k + 1).savers[p].phase.Saved?
  {
    var m := BeforeStep(sha, s, others, plan, p, content, tmp, k);
    HealthyStep(sha, m, plan[k], p, content, tmp, part, k);
  }

  /** Before its first error a call is on course. */
  lemma {:induction false} StaysOnCourse(sha: Bytes -> string, s: State, others: seq<seq<Action>>, plan: seq<Action>,
                                         p: nat,
                                         content: Bytes, tmp: nat, part: nat, k: nat)
    requires Inv(sha, s) && Alone(s, others, p, content, tmp, part) && k <= |plan| == 6
    requires Unhurt(plan, p, content, tmp, part, k)
    ensures OnCourse(After(sha, s, others, plan, k), p, content, tmp, k)
  {
    if k == 0 {
      assert plan[..0] == [];
    } else {
      StaysOnCourse(sha, s, others, plan, p, content, tmp, part, k - 1);
      CourseStep(sha, s, others, plan, p, content, tmp, part, k - 1);
    }
  }

  /** The plan's first `k` steps meet no error. */
  ghost predicate Unhurt(plan: seq<Action>, p: nat, content: Bytes, tmp: nat, part: nat, k: nat)
    requires k <= |plan|
  {
    k == 0 || (plan[k - 1] == Healthy(p, content, tmp, part, k - 1) && Unhurt(plan, p, content, tmp, part, k - 1))
  }

  /** The file was there when the call looked. */
  ghost predicate FoundAtCheck(sha: Bytes -> string, s: State, others: seq<seq<Action>>, plan: seq<Action>, h: string)
    requires 1 < |plan| <= |others|
  {
    h in Run(sha, After(sha, s, others, plan, 1), others[1]).blobs
  }

  /** After its check a call is saved exactly when it found its file. */
  lemma {:induction false} CheckFinds(sha: Bytes -> string, s: State, others: seq<seq<Action>>, plan: seq<Action>,
                                      p: nat, content: Bytes, tmp: nat, part: nat)
    requires Inv(sha, s) && Alone(s, others, p, content, tmp, part) && |plan| == 6
    requires Unhurt(plan, p, content, tmp, part, 2)
    ensures var x := After(sha, s, others, plan, 2);
            p in x.savers && (x.savers[p].phase.Saved? <==> FoundAtCheck(sha, s, others, plan, sha(content)))
  {
    StaysOnCourse(sha, s, others, plan, p, content, tmp, part, 1);
    var m := BeforeStep(sha, s, others, plan, p, content, tmp, 1);
    HealthyStep(sha, m, plan[1], p, content, tmp, part, 1);
  }

  /** Before its first error and before its rename it is not saved otherwise. */
  lemma {:induction false} NotYetSaved(sha: Bytes -> string, s: State, others: seq<seq<Action>>, plan: seq<Action>,
                                       p: nat,
                                       content: Bytes, tmp: nat, part: nat, k: nat)
    requires Inv(sha, s) && Alone(s, others, p, content, tmp, part) && 2 <= k <= 5 && |plan| == 6
    requires Unhurt(plan, p, content, tmp, part, k)
    requires !FoundAtCheck(sha, s, others, plan, sha(content))
    ensures var x := After(sha, s, others, plan, k); p in x.savers && !x.savers[p].phase.Saved?
  {
    if k == 2 {
      CheckFinds(sha, s, others, plan, p, content, tmp, part);
    } else {
      NotYetSaved(sha, s, others, plan, p, content, tmp, part, k - 1);
      StaysOnCourse(sha, s, others, plan, p, content, tmp, part, k - 1);
      CourseStep(sha, s, others, plan, p, content, tmp, part, k - 1);
    }
  }

  lemma {:induction false} SpareOthers(sha: Bytes -> string, s: State, acts: seq<Action>, p: nat)
    requires p in s.savers && forall j :: 0 <= j < |acts| ==> acts[j].p != p
    ensures p in Run(sha, s, acts).savers && Run(sha, s, acts).savers[p] == s.savers[p]
  {
    if acts != [] {
      var before := acts[..|acts| - 1];
      SpareOthers(sha, s, before, p);
      StepSpares(sha, Run(sha, s, before), acts[|acts| - 1], p);
    }
  }

  lemma OverStays(sha: Bytes -> string, s: State, a: Action)
    requires a.p in s.savers && (s.savers[a.p].phase.Saved? || s.savers[a.p].phase.Failed?) && !a.CleanUp? && !a.Crash?
    ensures a.p in Step(sha, s, a).savers && Step(sha, s, a).savers[a.p] == s.savers[a.p]
  {}

  /** A call that is over stays over for the rest of its plan. */
  lemma {:induction false} EndStays(sha: Bytes -> string, s: State, others: seq<seq<Action>>, plan: seq<Action>, p: nat,
                                    k: nat, j: nat)
    requires |plan| == 6 && |others| == 7 && Foreign(others, p) && k <= j <= 6
    requires forall i :: k <= i < 6 ==> plan[i].p == p && !plan[i].CleanUp? && !plan[i].Crash?
    requires var x := After(sha, s, others, plan, k);
             p in x.savers && (x.savers[p].phase.Saved? || x.savers[p].phase.Failed?)
    ensures var x, y := After(sha, s, others, plan, k), After(sha, s, others, plan, j);
            p in y.savers && y.savers[p] == x.savers[p]
  {
    if k < j {
      EndStays(sha, s, others, plan, p, k, j - 1);
      AfterNext(sha, s, others, plan, j - 1);
      var mid := After(sha, s, others, plan, j - 1);
      SpareOthers(sha, mid, others[j - 1], p);
      OverStays(sha, Run(sha, mid, others[j - 1]), plan[j - 1]);
    }
  }

  /** A write error takes a call that did not find its file out of its plan. */
  lemma {:induction false} ErrorFails(sha: Bytes -> string, s: State, others: seq<seq<Action>>, plan: seq<Action>,
                                      p: nat, content: Bytes, tmp: nat, part: nat, failAt: nat)
    requires Inv(sha, s) && Alone(s, others, p, content, tmp, part) && 2 <= failAt < 6 == |plan|
    requires plan[failAt] == Fail(p)
    requires Unhurt(plan, p, content, tmp, part, failAt)
    requires !FoundAtCheck(sha, s, others, plan, sha(content))
    ensures var x := After(sha, s, others, plan, failAt + 1); p in x.savers && x.savers[p].phase.Failed?
  {
    NotYetSaved(sha, s, others, plan, p, content, tmp, part, failAt);
    StaysOnCourse(sha, s, others, plan, p, content, tmp, part, failAt);
    var m := BeforeStep(sha, s, others, plan, p, content, tmp, failAt);
  }

  /** With a fresh temporary name, a call within the limit has its file at the end of its plan exactly when the file was
      there at the check or no write error struck; otherwise it has failed. */
  lemma {:induction false} PlanOutcome(sha: Bytes -> string, s: State, others: seq<seq<Action>>, plan: seq<Action>,
                                       p: nat, content: Bytes, tmp: nat, part: nat, failAt: nat)
    requires Inv(sha, s) && Alone(s, others, p, content, tmp, part) && IsPlan(plan, p, content, tmp, part, failAt)
    ensures var x := After(sha, s, others, plan, 6);
            && p in x.savers
            && (x.savers[p].phase.Saved? <==> FoundAtCheck(sha, s, others, plan, sha(content)) || !(2 <= failAt < 6))
  {
    FirstError(plan, p, content, tmp, part, failAt, if 2 <= failAt < 6 then failAt else 6);
    FirstError(plan, p, content, tmp, part, failAt, 2);
    CheckFinds(sha, s, others, plan, p, content, tmp, part);
    if FoundAtCheck(sha, s, others, plan, sha(content)) {
      EndStays(sha, s, others, plan, p, 2, 6);
    } else if 2 <= failAt < 6 {
      ErrorFails(sha, s, others, plan, p, content, tmp, part, failAt);
      EndStays(sha, s, others, plan, p, failAt + 1, 6);
    } else {
      StaysOnCourse(sha, s, others, plan, p, content, tmp, part, 6);
    }
  }

  /** A call's steps in order, with a write error in place of step `failAt`, if that is one after the check. */
  ghost predicate IsPlan(plan: seq<Action>, p: nat, content: Bytes, tmp: nat, part: nat, failAt: nat) {
    && |plan| == 6
    && (forall k :: 0 <= k < 6 ==>
          plan[k] == if k == failAt && 2 <= failAt then Fail(p) else Healthy(p, content, tmp, part, k))
  }

  lemma {:induction false} FirstError(plan: seq<Action>, p: nat, content: Bytes, tmp: nat, part: nat, failAt: nat,
                                      k: nat)
    requires IsPlan(plan, p, content, tmp, part, failAt) && k <= 6 && (k <= failAt || failAt < 2)
    ensures Unhurt(plan, p, content, tmp, part, k)
  {
    if k > 0 { FirstError(plan, p, content, tmp, part, failAt, k - 1); }
  }

  /** What a call that ended at step `k` says of its whole plan. */
  lemma {:induction false} EndTells(sha: Bytes -> string, s: State, others: seq<seq<Action>>, plan: seq<Action>,
                                    p: nat, content: Bytes, tmp: nat, part: nat, failAt: nat, k: nat, saved: bool)
    requires Inv(sha, s) && Alone(s, others, p, content, tmp, part) && IsPlan(plan, p, content, tmp, part, failAt)
    requires k <= 6
    requires var x := After(sha, s, others, plan, k);
             p in x.savers && (if saved then x.savers[p].phase.Saved? else x.savers[p].phase.Failed?)
    ensures saved <==> FoundAtCheck(sha, s, others, plan, sha(content)) || !(2 <= failAt < 6)
  {
    EndStays(sha, s, others, plan, p, k, 6);
    PlanOutcome(sha, s, others, plan, p, content, tmp, part, failAt);
  }

  /** A save that fails returns all the same, and its bytes cannot be read. */
  lemma FailedSaveIsUnreadable(sha: Bytes -> string, content: Bytes)
    requires |content| <= MAX_PAYLOAD_BYTES
    ensures var s := Run(sha, EMPTY, [Start(1, content), CheckExists(1), Fail(1), CleanUp(1, true)]);
            1 in s.savers && s.savers[1].phase.Unsaved? && Read(s, sha(content)).None?
  {
    var first := [Start(1, content)];
    assert first[..0] == [];
    RunSnoc(sha, EMPTY, first, CheckExists(1));
    RunSnoc(sha, EMPTY, first + [CheckExists(1)], Fail(1));
    RunSnoc(sha, EMPTY, first + [CheckExists(1)] + [Fail(1)], CleanUp(1, true));
    assert first + [CheckExists(1)] + [Fail(1)] + [CleanUp(1, true)]
        == [Start(1, content), CheckExists(1), Fail(1), CleanUp(1, true)];
  }

  // ---------------------------------------------------------------- the storage

  class ContentAddressableStorage {
    var blobs: map<string, Bytes>
    var tmps: map<nat, Bytes>
    var savers: map<nat, Saver>
    const sha: Bytes -> string

    function View(): State reads this { State(blobs, tmps, savers) }

    constructor (sha: Bytes -> string)
      ensures View() == EMPTY && this.sha == sha
    {
      this.sha := sha;
      blobs, tmps, savers := map[], map[], map[];
    }

    /** One file-system call, of any process. */
    method Execute(a: Action)
      modifies this
      ensures View() == Step(sha, old(View()), a)
    {
      if a.Start? {
        if a.p !in savers {
          savers := savers[a.p := Saver(a.content, if |a.content| > MAX_PAYLOAD_BYTES then Refused else Started)];
        }
        return;
      }
      if a.p !in savers { return; }
      var x := savers[a.p];
      match a {
        case CheckExists(p) =>
          if x.phase.Started? {
            savers := savers[p := x.(phase := if sha(x.content) in blobs then Saved else Missing)];
          }
        case Open(p, tmp) =>
          if x.phase.Missing? {
            savers := savers[p := x.(phase := if tmp in tmps then Failed(None) else Writing(tmp, 0))];
            if tmp !in tmps { tmps := tmps[tmp := []]; }
          }
        case Write(p, upTo) =>
          if x.phase.Writing? && x.phase.k <= upTo <= |x.content| {
            if x.phase.tmp !in tmps {
              savers := savers[p := x.(phase := Failed(None))];
              return;
            }
            tmps := tmps[x.phase.tmp := tmps[x.phase.tmp] + x.content[x.phase.k..upTo]];
            savers := savers[p := x.(phase := Writing(x.phase.tmp, upTo))];
          }
        case Rename(p) =>
          if x.phase.Writing? && x.phase.k == |x.content| {
            if x.phase.tmp !in tmps {
              savers := savers[p := x.(phase := Failed(None))];
              return;
            }
            blobs := blobs[sha(x.content) := tmps[x.phase.tmp]];
            tmps := tmps - {x.phase.tmp};
            savers := savers[p := x.(phase := Saved)];
          }
        case Fail(p) =>
          if x.phase.Missing? {
            savers := savers[p := x.(phase := Failed(None))];
          } else if x.phase.Writing? {
            savers := savers[p := x.(phase := Failed(Some(x.phase.tmp)))];
          }
        case CleanUp(p, works) =>
          if x.phase.Failed? {
            if works && x.phase.left.Some? { tmps := tmps - {x.phase.left.value}; }
            savers := savers[p := x.(phase := Unsaved)];
          }
        case Crash(p) =>
          if !Final(x.phase) { savers := savers[p := x.(phase := Crashed)]; }
        case Start(_, _) =>
      }
    }

    /** What the other processes do between two of this call's steps. */
    method Others(p: nat, others: seq<Action>)
      requires forall i :: 0 <= i < |others| ==> others[i].p != p
      modifies this
      ensures View() == Run(sha, old(View()), others)
      ensures (p in savers <==> p in old(savers)) && (p in savers ==> savers[p] == old(savers[p]))
    {
      for i := 0 to |others|
        invariant View() == Run(sha, old(View()), others[..i])
        invariant (p in savers <==> p in old(savers)) && (p in savers ==> savers[p] == old(savers[p]))
      {
        assert others[..i + 1] == others[..i] + [others[i]];
        RunSnoc(sha, old(View()), others[..i], others[i]);
        StepSpares(sha, View(), others[i], p);
        Execute(others[i]);
      }
      assert others[..|others|] == others;
    }

    /** One file-system call of this call's own, after what the others did before it. */
    method Await(p: nat, others: seq<seq<Action>>, own: seq<Action>, a: Action, ghost s0: State) returns (ph: Phase)
      requires |own| < |others| && Foreign(others, p) && a.p == p && !a.Start?
      requires View() == Run(sha, s0, Weave(others, own)) && p in savers
      modifies this
      ensures View() == Run(sha, s0, Weave(others, own + [a]))
      ensures p in savers && savers[p] == old(savers[p]).(phase := ph) && Leads(old(savers[p]), a, ph)
    {
      Others(p, others[|own|]);
      WeaveNext(sha, s0, others, own, a);
      StepLeads(sha, View(), a);
      Execute(a);
      ph := savers[p].phase;
    }

    /** Step `k` of a plan. */
    method Advance(p: nat, others: seq<seq<Action>>, plan: seq<Action>, k: nat, n: nat, ghost s0: State)
      returns (ph: Phase, next: nat)
      requires 0 < k < |plan| == 6 < |others| && Foreign(others, p) && AllSuit(p, n, plan, 5)
      requires View() == Run(sha, s0, Weave(others, plan[..k])) && p in savers
      requires |savers[p].content| == n && Stage(n, k, savers[p].phase)
      modifies this
      ensures next == k + 1 && View() == Run(sha, s0, Weave(others, plan[..next]))
      ensures p in savers && savers[p] == old(savers[p]).(phase := ph) && (Ended(next, ph) || Stage(n, next, ph))
    {
      ghost var x := savers[p];
      OwnSteps(p, n, plan, 5, k);
      ph := Await(p, others, plan[..k], plan[k], s0);
      SuitsStep(p, n, plan, 5, k, x, ph);
      assert plan[..k + 1] == plan[..k] + [plan[k]];
      next := k + 1;
    }

    /** The call begins with the size check. */
    method Begin(p: nat, content: Bytes, others: seq<seq<Action>>) returns (ph: Phase)
      requires p !in savers && |others| > 0 && Foreign(others, p)
      modifies this
      ensures View() == Run(sha, old(View()), Weave(others, [Start(p, content)]))
      ensures p in savers && savers[p] == Saver(content, ph)
      ensures ph == if |content| > MAX_PAYLOAD_BYTES then Refused else Started
    {
      ghost var s0 := View();
      Others(p, others[0]);
      assert [] + [Start(p, content)] == [Start(p, content)];
      WeaveNext(sha, s0, others, [], Start(p, content));
      Execute(Start(p, content));
      ph := savers[p].phase;
    }

    /** The temporary file and its publication. */
    method WriteFile(p: nat, others: seq<seq<Action>>, plan: seq<Action>, n: nat, ghost s0: State)
      returns (ph: Phase, k: nat)
      requires |plan| == 6 < |others| && Foreign(others, p) && AllSuit(p, n, plan, 5)
      requires View() == Run(sha, s0, Weave(others, plan[..2]))
      requires p in savers && |savers[p].content| == n && savers[p].phase.Missing?
      modifies this
      ensures k <= 6 && View() == Run(sha, s0, Weave(others, plan[..k]))
      ensures p in savers && savers[p] == old(savers[p]).(phase := ph) && (ph.Failed? || (ph.Saved? && k == 6))
    {
      ph, k := Advance(p, others, plan, 2, n, s0);
      if !ph.Writing? { return; }
      ph, k := Advance(p, others, plan, 3, n, s0);
      if !ph.Writing? { return; }
      ph, k := Advance(p, others, plan, 4, n, s0);
      if !ph.Writing? { return; }
      ph, k := Advance(p, others, plan, 5, n, s0);
    }

    /** A plan's steps until the call is refused, has its file, or fails; then the clean-up. */
    method Save(p: nat, content: Bytes, plan: seq<Action>, cleans: bool, others: seq<seq<Action>>)
      returns (out: Phase, k: nat)
      requires p !in savers && |plan| == 6 < |others| && Foreign(others, p)
      requires plan[0] == Start(p, content) && AllSuit(p, |content|, plan, 5)
      modifies this
      ensures 0 < k <= 6
      ensures View() == Run(sha, old(View()),
                            Weave(others, plan[..k] + if out.Unsaved? then [CleanUp(p, cleans)] else []))
      ensures p in savers && savers[p] == Saver(content, out) && (out.Refused? || out.Saved? || out.Unsaved?)
      ensures out.Refused? <==> |content| > MAX_PAYLOAD_BYTES
      ensures out.Saved? ==> k == 2 || k == 6
      ensures var x := After(sha, old(View()), others, plan, k);
              p in x.savers && (out.Saved? ==> x.savers[p].phase.Saved?) && (out.Unsaved? ==> x.savers[p].phase.Failed?)
    {
      ghost var s0 := View();
      assert plan[..1] == [Start(p, content)];
      out := Begin(p, content, others);
      k := 1;
      if !out.Refused? {
        out, k := Advance(p, others, plan, 1, |content|, s0);
        if out.Missing? { out, k := WriteFile(p, others, plan, |content|, s0); }
      }
      if out.Failed? {
        out := Await(p, others, plan[..k], CleanUp(p, cleans), s0);
      } else {
        assert plan[..k] + [] == plan[..k];
      }
    }

    /** `save_document`, with whatever other processes do before each of its calls, the bytes written in two pieces,
        and a write error in place of step `failAt`, if it has one: exactly the run of its first `k` steps in order,
        and of the clean-up after an error. The call returns normally even after a write error; only `Saved`
        promises that the bytes can be read back, and with a fresh temporary name it is reached exactly when no
        write error strikes or the file was there at the check. */
    method SaveDocument(p: nat, content: Bytes, tmp: nat, chunk: nat, failAt: nat, cleans: bool,
                        others: seq<seq<Action>>)
      returns (out: Phase, k: nat)
      requires Inv(sha, View()) && p !in savers && |others| == 7 && Foreign(others, p)
      modifies this
      ensures 0 < k <= 6 && Inv(sha, View())
      ensures View() == Run(sha, old(View()),
                            Weave(others, Plan(p, content, tmp, chunk, failAt)[..k]
                                          + if out.Unsaved? then [CleanUp(p, cleans)] else []))
      ensures p in savers && savers[p] == Saver(content, out) && (out.Refused? || out.Saved? || out.Unsaved?)
      ensures out.Refused? <==> |content| > MAX_PAYLOAD_BYTES
      ensures out.Saved? ==> (k == 2 || k == 6) && sha(content) in blobs && sha(blobs[sha(content)]) == sha(content)
      ensures |content| <= MAX_PAYLOAD_BYTES && FreshName(old(View()), others, tmp) ==>
                (out.Saved? <==> !(2 <= failAt < 6)
                                 || FoundAtCheck(sha, old(View()), others, Plan(p, content, tmp, chunk, failAt),
                                                 sha(content)))
    {
      var plan := Plan(p, content, tmp, chunk, failAt);
      PlanSuits(p, content, tmp, chunk, failAt);
      out, k := Save(p, content, plan, cleans, others);
      RunKeepsInv(sha, old(View()), Weave(others, plan[..k] + if out.Unsaved? then [CleanUp(p, cleans)] else []));
      if |content| <= MAX_PAYLOAD_BYTES && FreshName(old(View()), others, tmp) {
        EndTells(sha, old(View()), others, plan, p, content, tmp, Part(content, chunk), failAt, k, out.Saved?);
      }
    }

    /** `read_document`. */
    method ReadDocument(h: string) returns (r: Option<Bytes>)
      ensures r == Read(View(), h)
    {
      if h !in blobs { return None; }
      return Some(blobs[h]);
    }
  }
}
