/** Sequenced, idempotent intake: `DocumentRepository.create_or_get` as interleaved READ COMMITTED
    transactions over the `documents` and `processing_events` tables.

    A statement is one atomic step. A step that is not enabled, or that blocks, leaves the state as it is,
    so every sequence of actions is an interleaving and every interleaving is a sequence of actions. */
module Intake {

  import opened Wrappers

  /** A committed or pending row of `documents`, reduced to the columns fixed at insertion. */
  datatype Row = Row(id: nat, key: string, agency: string, number: nat)

  /** The DOCUMENT_SUBMITTED row of `processing_events`. */
  datatype Event = Event(id: nat, agency: string, number: nat)

  /** Where one transaction stands. The last three are final: what the call returned, or `Raised` when it ended in an
      exception, rolled back or, if only the answer to its COMMIT was lost, committed. */
  datatype Phase =
    | Opened
    | Missed
    | Locked
    | Numbered(n: nat)
    | Inserted(row: Row)
    | Logged(row: Row)
    | Found(row: Row)
    | Created(row: Row)
    | Raised

  datatype Txn = Txn(key: string, agency: string, phase: Phase)

  /** `rows` and `events` hold what is committed, in commit order; `locks` maps a lock hash to its holder. */
  datatype State = State(rows: seq<Row>, events: seq<Event>, txns: map<nat, Txn>, locks: map<int, nat>)

  datatype Action =
    | Begin(t: nat, key: string, agency: string)
    | CheckKey(t: nat)
    | TakeLock(t: nat)
    | ReadMax(t: nat)
    | InsertRow(t: nat, id: nat)
    | InsertEvent(t: nat)
    | Commit(t: nat, acked: bool)
    | Abort(t: nat)

  const EMPTY := State([], [], map[], map[])

  predicate Holds(p: Phase) { p.Locked? || p.Numbered? || p.Inserted? || p.Logged? }

  predicate Pending(p: Phase) { p.Inserted? || p.Logged? }

  predicate Final(p: Phase) { p.Found? || p.Created? || p.Raised? }

  /** SELECT * FROM documents WHERE idempotency_key = key. */
  function FindKey(rows: seq<Row>, key: string): (r: Option<Row>)
    ensures r.Some? ==> r.value in rows && r.value.key == key
    ensures r.None? ==> forall i | 0 <= i < |rows| :: rows[i].key != key
  {
    if rows == [] then None
    else if rows[0].key == key then Some(rows[0])
    else FindKey(rows[1..], key)
  }

  /** SELECT COALESCE(MAX(sequence_number), 0) FROM documents WHERE agency_id = agency. */
  function MaxNumber(rows: seq<Row>, agency: string): nat {
    if rows == [] then 0
    else
      var m := MaxNumber(rows[..|rows| - 1], agency);
      var last := rows[|rows| - 1];
      if last.agency == agency && last.number > m then last.number else m
  }

  /** The rows of one agency, in commit order. */
  function Of(rows: seq<Row>, agency: string): seq<Row> {
    if rows == [] then []
    else Of(rows[..|rows| - 1], agency) + (if rows[|rows| - 1].agency == agency then [rows[|rows| - 1]] else [])
  }

  /** The three UNIQUE constraints of `documents`. */
  predicate Clash(a: Row, b: Row) {
    a.id == b.id || a.key == b.key || (a.agency == b.agency && a.number == b.number)
  }

  predicate ClashesCommitted(s: State, row: Row) { exists r | r in s.rows :: Clash(r, row) }

  /** An uncommitted row of another transaction makes a clashing insertion wait. */
  predicate ClashesPending(s: State, t: nat, row: Row) {
    exists u | u in s.txns :: u != t && Pending(s.txns[u].phase) && Clash(s.txns[u].phase.row, row)
  }

  predicate In(s: State, t: nat) { t in s.txns }

  function Move(s: State, t: nat, p: Phase): State
    requires In(s, t)
  {
    s.(txns := s.txns[t := s.txns[t].(phase := p)])
  }

  /** The locks without those of one transaction. */
  function Released(locks: map<int, nat>, t: nat): map<int, nat> { map l | l in locks && locks[l] != t :: locks[l] }

  /** Ends a transaction: the advisory lock goes with it. */
  function Finish(s: State, t: nat, p: Phase): State
    requires In(s, t)
  {
    Move(s.(locks := Released(s.locks, t)), t, p)
  }

  function Step(hash: string -> int, s: State, a: Action): State {
    if a.Begin? then
      if In(s, a.t) then s else s.(txns := s.txns[a.t := Txn(a.key, a.agency, Opened)])
    else if !In(s, a.t) then s
    else
      var x := s.txns[a.t];
      match a
      case CheckKey(t) =>
        if !x.phase.Opened? then s
        else (match FindKey(s.rows, x.key)
              case Some(r) => Finish(s, t, Found(r))
              case None => Move(s, t, Missed))
      case TakeLock(t) =>
        if !x.phase.Missed? || hash(x.agency) in s.locks then s
        else Move(s.(locks := s.locks[hash(x.agency) := t]), t, Locked)
      case ReadMax(t) =>
        if !x.phase.Locked? then s else Move(s, t, Numbered(MaxNumber(s.rows, x.agency) + 1))
      case InsertRow(t, id) =>
        if !x.phase.Numbered? then s
        else
          var row := Row(id, x.key, x.agency, x.phase.n);
          if ClashesPending(s, t, row) then s
          else if ClashesCommitted(s, row) then Finish(s, t, Raised)
          else Move(s, t, Inserted(row))
      case InsertEvent(t) =>
        if !x.phase.Inserted? then s else Move(s, t, Logged(x.phase.row))
      case Commit(t, acked) =>
        if !x.phase.Logged? then s
        else
          var row := x.phase.row;
          Finish(s.(rows := s.rows + [row], events := s.events + [Event(row.id, row.agency, row.number)]), t,
                 if acked then Created(row) else Raised)
      case Abort(t) =>
        if Final(x.phase) then s else Finish(s, t, Raised)
  }

  function Run(hash: string -> int, s: State, actions: seq<Action>): State {
    if actions == [] then s
    else Step(hash, Run(hash, s, actions[..|actions| - 1]), actions[|actions| - 1])
  }

  lemma {:induction false} RunSnoc(hash: string -> int, s: State, xs: seq<Action>, a: Action)
    ensures Run(hash, s, xs + [a]) == Step(hash, Run(hash, s, xs), a)
  {
    assert (xs + [a])[..|xs|] == xs;
  }

  lemma {:induction false} RunConcat(hash: string -> int, s: State, xs: seq<Action>, ys: seq<Action>)
    ensures Run(hash, s, xs + ys) == Run(hash, Run(hash, s, xs), ys)
  {
    if ys == [] {
      assert xs + ys == xs;
    } else {
      var init, last := ys[..|ys| - 1], ys[|ys| - 1];
      assert xs + ys == (xs + init) + [last] && ys == init + [last];
      RunSnoc(hash, s, xs + init, last);
      RunSnoc(hash, Run(hash, s, xs), init, last);
      RunConcat(hash, s, xs, init);
    }
  }

  // ---------------------------------------------------------------- the invariant

  /** Sequence numbers of one agency's committed rows are 1, 2, ..., n in commit order. */
  ghost predicate Gapless(rows: seq<Row>) {
    forall a: string, i: nat :: i < |Of(rows, a)| ==> Of(rows, a)[i].number == i + 1
  }

  /** No two committed rows share an id or an idempotency key. */
  ghost predicate Unique(rows: seq<Row>) {
    forall i, j :: 0 <= i < j < |rows| ==> rows[i].key != rows[j].key && rows[i].id != rows[j].id
  }

  ghost predicate Logs(s: State) {
    && |s.events| == |s.rows|
    && forall i :: 0 <= i < |s.rows| ==> s.events[i] == Event(s.rows[i].id, s.rows[i].agency, s.rows[i].number)
  }

  /** The advisory lock of an agency's hash belongs to exactly the transaction that is past it. */
  ghost predicate LockInv(hash: string -> int, s: State) {
    && (forall t :: t in s.txns && Holds(s.txns[t].phase) ==>
                      hash(s.txns[t].agency) in s.locks && s.locks[hash(s.txns[t].agency)] == t)
    && (forall l :: l in s.locks ==>
                      In(s, s.locks[l]) && Holds(s.txns[s.locks[l]].phase) && hash(s.txns[s.locks[l]].agency) == l)
  }

  /** The number a lock holder carries is the next one, however long ago it was read. */
  ghost predicate NumberInv(s: State) {
    forall t :: t in s.txns ==>
                  var x := s.txns[t];
                  && (x.phase.Numbered? ==> x.phase.n == |Of(s.rows, x.agency)| + 1)
                  && (Pending(x.phase) ==>
                        && x.phase.row.key == x.key && x.phase.row.agency == x.agency
                        && x.phase.row.number == |Of(s.rows, x.agency)| + 1)
  }

  ghost predicate PendingInv(s: State) {
    && (forall t, r :: t in s.txns && Pending(s.txns[t].phase) && r in s.rows ==>
                         r.key != s.txns[t].phase.row.key && r.id != s.txns[t].phase.row.id)
    && (forall t, u :: t in s.txns && u in s.txns && t != u && Pending(s.txns[t].phase) && Pending(s.txns[u].phase) ==>
                         && s.txns[t].phase.row.key != s.txns[u].phase.row.key
                         && s.txns[t].phase.row.id != s.txns[u].phase.row.id)
  }

  /** What a finished transaction returned is committed, and no two transactions created the same row. */
  ghost predicate OutcomeInv(s: State) {
    && (forall t :: t in s.txns && s.txns[t].phase.Found? ==>
                      s.txns[t].phase.row in s.rows && s.txns[t].phase.row.key == s.txns[t].key)
    && (forall t :: t in s.txns && s.txns[t].phase.Created? ==>
                      && s.txns[t].phase.row in s.rows && s.txns[t].phase.row.key == s.txns[t].key
                      && s.txns[t].phase.row.agency == s.txns[t].agency)
    && (forall t, u :: t in s.txns && u in s.txns && t != u && s.txns[t].phase.Created? && s.txns[u].phase.Created? ==>
                         s.txns[t].phase.row.id != s.txns[u].phase.row.id)
  }

  ghost predicate Inv(hash: string -> int, s: State) {
    Gapless(s.rows) && Unique(s.rows) && Logs(s) && LockInv(hash, s) && NumberInv(s) && PendingInv(s) && OutcomeInv(s)
  }

  lemma {:induction false} MaxIsCount(rows: seq<Row>, agency: string)
    requires Gapless(rows)
    ensures MaxNumber(rows, agency) == |Of(rows, agency)|
  {
    if rows != [] {
      var before, last := rows[..|rows| - 1], rows[|rows| - 1];
      forall a: string, i: nat | i < |Of(before, a)| ensures Of(before, a)[i].number == i + 1 {
        assert Of(rows, a)[i] == Of(before, a)[i];
      }
      MaxIsCount(before, agency);
      if last.agency == agency {
        assert Of(rows, agency)[|Of(before, agency)|] == last;
      }
    }
  }

  lemma {:induction false} OfMembers(rows: seq<Row>, agency: string, i: nat)
    requires i < |rows| && rows[i].agency == agency
    ensures exists k: nat :: k < |Of(rows, agency)| && Of(rows, agency)[k] == rows[i]
  {
    var n := |rows| - 1;
    if i == n {
      assert Of(rows, agency)[|Of(rows[..n], agency)|] == rows[i];
    } else {
      OfMembers(rows[..n], agency, i);
      var k: nat :| k < |Of(rows[..n], agency)| && Of(rows[..n], agency)[k] == rows[..n][i];
      assert Of(rows, agency)[k] == rows[i];
    }
  }

  lemma {:induction false} OfAppend(rows: seq<Row>, row: Row)
    ensures forall a :: Of(rows + [row], a) == Of(rows, a) + (if row.agency == a then [row] else [])
  {
    assert (rows + [row])[..|rows|] == rows;
  }

  /** What must hold of the row a transaction is about to leave pending. */
  ghost predicate Fits(s: State, t: nat, row: Row) {
    && row.number == |Of(s.rows, row.agency)| + 1
    && (forall r :: r in s.rows ==> r.key != row.key && r.id != row.id)
    && (forall u :: u in s.txns && u != t && Pending(s.txns[u].phase) ==>
                        s.txns[u].phase.row.key != row.key && s.txns[u].phase.row.id != row.id)
  }

  /** `s'` differs from `s` in transaction `t` alone. */
  ghost predicate OnlyTxn(s: State, s': State, t: nat) {
    && In(s', t) && s'.rows == s.rows && s'.events == s.events && s'.txns == s.txns[t := s'.txns[t]]
  }

  /** Everything but the locks survives a change of one transaction to a phase that fits. */
  lemma OneTxnKeepsRest(hash: string -> int, s: State, s': State, t: nat)
    requires Inv(hash, s) && OnlyTxn(s, s', t)
    requires var x := s'.txns[t];
             && !x.phase.Created?
             && (x.phase.Found? ==> x.phase.row in s.rows && x.phase.row.key == x.key)
             && (x.phase.Numbered? ==> x.phase.n == |Of(s.rows, x.agency)| + 1)
             && (Pending(x.phase) ==>
                   x.phase.row.key == x.key && x.phase.row.agency == x.agency && Fits(s, t, x.phase.row))
    ensures Gapless(s'.rows) && Unique(s'.rows) && Logs(s') && NumberInv(s') && PendingInv(s') && OutcomeInv(s')
  {
    OneTxnKeepsPending(s, s', t);
    OneTxnKeepsNumbers(s, s', t);
  }

  lemma OneTxnKeepsPending(s: State, s': State, t: nat)
    requires PendingInv(s) && OnlyTxn(s, s', t)
    requires Pending(s'.txns[t].phase) ==> Fits(s, t, s'.txns[t].phase.row)
    ensures PendingInv(s')
  {}

  lemma OneTxnKeepsNumbers(s: State, s': State, t: nat)
    requires NumberInv(s) && OnlyTxn(s, s', t)
    requires var x := s'.txns[t];
             && (x.phase.Numbered? ==> x.phase.n == |Of(s.rows, x.agency)| + 1)
             && (Pending(x.phase) ==>
                   x.phase.row.key == x.key && x.phase.row.agency == x.agency && Fits(s, t, x.phase.row))
    ensures NumberInv(s')
  {}

  /** Only the holder of an agency's lock can be past it, so nobody else carries a number of that agency. */
  lemma HoldersDiffer(hash: string -> int, s: State, t: nat, u: nat)
    requires LockInv(hash, s) && In(s, t) && In(s, u) && t != u
    requires Holds(s.txns[t].phase) && Holds(s.txns[u].phase)
    ensures hash(s.txns[t].agency) != hash(s.txns[u].agency)
  {}

  /** Dropping a transaction's lock while moving it to a final phase. */
  lemma FinishKeepsLocks(hash: string -> int, s: State, t: nat, p: Phase)
    requires LockInv(hash, s) && In(s, t) && Final(p)
    ensures LockInv(hash, Finish(s, t, p))
  {
    var s' := Finish(s, t, p);
    forall u | u in s'.txns && Holds(s'.txns[u].phase)
      ensures hash(s'.txns[u].agency) in s'.locks && s'.locks[hash(s'.txns[u].agency)] == u
    {
      assert u != t && s'.txns[u] == s.txns[u];
    }
  }

  lemma CommitKeepsRows(s: State, t: nat)
    requires Gapless(s.rows) && Unique(s.rows) && NumberInv(s) && PendingInv(s) && In(s, t) && s.txns[t].phase.Logged?
    ensures Gapless(s.rows + [s.txns[t].phase.row]) && Unique(s.rows + [s.txns[t].phase.row])
  {
    var row := s.txns[t].phase.row;
    var rows := s.rows + [row];
    OfAppend(s.rows, row);
    forall a: string, i: nat | i < |Of(rows, a)| ensures Of(rows, a)[i].number == i + 1 {
      if i < |Of(s.rows, a)| {
        assert Of(rows, a)[i] == Of(s.rows, a)[i];
      }
    }
  }

  lemma CommitKeepsNumbers(hash: string -> int, s: State, t: nat, s': State)
    requires LockInv(hash, s) && NumberInv(s) && In(s, t) && s.txns[t].phase.Logged?
    requires s'.rows == s.rows + [s.txns[t].phase.row]
    requires In(s', t) && s'.txns == s.txns[t := s.txns[t].(phase := s'.txns[t].phase)] && Final(s'.txns[t].phase)
    ensures NumberInv(s')
  {
    var row := s.txns[t].phase.row;
    OfAppend(s.rows, row);
    forall u | u in s'.txns && u != t && Holds(s.txns[u].phase)
      ensures Of(s'.rows, s.txns[u].agency) == Of(s.rows, s.txns[u].agency)
    {
      HoldersDiffer(hash, s, t, u);
    }
  }

  lemma CommitKeepsInv(hash: string -> int, s: State, t: nat, acked: bool)
    requires Inv(hash, s) && In(s, t) && s.txns[t].phase.Logged?
    ensures Inv(hash, Step(hash, s, Commit(t, acked)))
  {
    var row := s.txns[t].phase.row;
    var p := if acked then Created(row) else Raised;
    var added := s.(rows := s.rows + [row], events := s.events + [Event(row.id, row.agency, row.number)]);
    var s' := Finish(added, t, p);
    assert s' == Step(hash, s, Commit(t, acked));
    CommitKeepsRows(s, t);
    CommitKeepsNumbers(hash, s, t, s');
    FinishKeepsLocks(hash, added, t, p);
    CommitKeepsOutcomes(s, s', t);
  }

  lemma CommitKeepsOutcomes(s: State, s': State, t: nat)
    requires PendingInv(s) && OutcomeInv(s) && NumberInv(s) && In(s, t) && s.txns[t].phase.Logged? && In(s', t)
    requires s'.rows == s.rows + [s.txns[t].phase.row]
    requires s'.txns == s.txns[t := s.txns[t].(phase := s'.txns[t].phase)]
    requires s'.txns[t].phase == Created(s.txns[t].phase.row) || s'.txns[t].phase.Raised?
    ensures PendingInv(s') && OutcomeInv(s')
  {
    RowAdded(s.rows, s.txns[t].phase.row);
    CommitKeepsPending(s, s', t, s.txns[t].phase.row);
    CommitKeepsCreated(s, s', t, s.txns[t].phase.row);
  }

  lemma {:induction false} RowAdded(rows: seq<Row>, row: Row)
    ensures row in rows + [row] && forall r :: r in rows + [row] <==> r in rows || r == row
  {
    assert (rows + [row])[|rows|] == row;
  }

  lemma CommitKeepsPending(s: State, s': State, t: nat, row: Row)
    requires PendingInv(s) && In(s, t) && Pending(s.txns[t].phase) && s.txns[t].phase.row == row && In(s', t)
    requires forall r :: r in s'.rows <==> r in s.rows || r == row
    requires s'.txns == s.txns[t := s'.txns[t]] && !Pending(s'.txns[t].phase)
    ensures PendingInv(s')
  {}

  lemma CommitKeepsCreated(s: State, s': State, t: nat, row: Row)
    requires PendingInv(s) && OutcomeInv(s) && In(s, t) && Pending(s.txns[t].phase) && s.txns[t].phase.row == row
    requires In(s', t)
    requires row.key == s.txns[t].key && row.agency == s.txns[t].agency
    requires forall r :: r in s'.rows <==> r in s.rows || r == row
    requires s'.txns == s.txns[t := s.txns[t].(phase := s'.txns[t].phase)]
    requires s'.txns[t].phase == Created(row) || s'.txns[t].phase.Raised?
    ensures OutcomeInv(s')
  {}

  lemma FinishKeepsInv(hash: string -> int, s: State, t: nat, p: Phase)
    requires Inv(hash, s) && In(s, t) && !s.txns[t].phase.Created?
    requires p.Raised? || (p.Found? && p.row in s.rows && p.row.key == s.txns[t].key)
    ensures Inv(hash, Finish(s, t, p))
  {
    FinishKeepsLocks(hash, s, t, p);
    OneTxnKeepsRest(hash, s, Finish(s, t, p), t);
  }

  lemma MoveKeepsLocks(hash: string -> int, s: State, t: nat, p: Phase)
    requires LockInv(hash, s) && In(s, t) && Holds(s.txns[t].phase) == Holds(p)
    ensures LockInv(hash, Move(s, t, p))
  {}

  /** Any step that neither takes nor drops the lock. */
  lemma MoveKeepsInv(hash: string -> int, s: State, t: nat, p: Phase)
    requires Inv(hash, s) && In(s, t) && !Final(s.txns[t].phase) && !Final(p)
    requires Holds(s.txns[t].phase) == Holds(p)
    requires p.Numbered? ==> p.n == |Of(s.rows, s.txns[t].agency)| + 1
    requires Pending(p) ==> p.row.key == s.txns[t].key && p.row.agency == s.txns[t].agency && Fits(s, t, p.row)
    ensures Inv(hash, Move(s, t, p))
  {
    MoveKeepsLocks(hash, s, t, p);
    OneTxnKeepsRest(hash, s, Move(s, t, p), t);
  }

  lemma InsertKeepsInv(hash: string -> int, s: State, t: nat, id: nat)
    requires Inv(hash, s) && In(s, t) && s.txns[t].phase.Numbered?
    ensures Inv(hash, Step(hash, s, InsertRow(t, id)))
  {
    var x := s.txns[t];
    var row := Row(id, x.key, x.agency, x.phase.n);
    if !ClashesPending(s, t, row) {
      if ClashesCommitted(s, row) {
        FinishKeepsInv(hash, s, t, Raised);
      } else {
        assert forall r | r in s.rows :: !Clash(r, row);
        assert forall u | u in s.txns :: u != t && Pending(s.txns[u].phase) ==> !Clash(s.txns[u].phase.row, row);
        MoveKeepsInv(hash, s, t, Inserted(row));
      }
    }
  }

  lemma BeginKeepsInv(hash: string -> int, s: State, t: nat, key: string, agency: string)
    requires Inv(hash, s) && !In(s, t)
    ensures Inv(hash, Step(hash, s, Begin(t, key, agency)))
  {
    var s' := Step(hash, s, Begin(t, key, agency));
    assert LockInv(hash, s');
    OneTxnKeepsRest(hash, s, s', t);
  }

  lemma TakeLockKeepsInv(hash: string -> int, s: State, t: nat)
    requires Inv(hash, s) && In(s, t) && s.txns[t].phase.Missed? && hash(s.txns[t].agency) !in s.locks
    ensures Inv(hash, Step(hash, s, TakeLock(t)))
  {
    var s' := Step(hash, s, TakeLock(t));
    assert LockInv(hash, s');
    OneTxnKeepsRest(hash, s, s', t);
  }

  lemma CheckKeyKeepsInv(hash: string -> int, s: State, t: nat)
    requires Inv(hash, s) && In(s, t) && s.txns[t].phase.Opened?
    ensures Inv(hash, Step(hash, s, CheckKey(t)))
  {
    match FindKey(s.rows, s.txns[t].key)
    case Some(r) => FinishKeepsInv(hash, s, t, Found(r));
    case None => MoveKeepsInv(hash, s, t, Missed);
  }

  lemma ReadMaxKeepsInv(hash: string -> int, s: State, t: nat)
    requires Inv(hash, s) && In(s, t) && s.txns[t].phase.Locked?
    ensures Inv(hash, Step(hash, s, ReadMax(t)))
  {
    MaxIsCount(s.rows, s.txns[t].agency);
    MoveKeepsInv(hash, s, t, Numbered(MaxNumber(s.rows, s.txns[t].agency) + 1));
  }

  lemma InsertEventKeepsInv(hash: string -> int, s: State, t: nat)
    requires Inv(hash, s) && In(s, t) && s.txns[t].phase.Inserted?
    ensures Inv(hash, Step(hash, s, InsertEvent(t)))
  {
    MoveKeepsInv(hash, s, t, Logged(s.txns[t].phase.row));
  }

  lemma {:induction false} StepKeepsInv(hash: string -> int, s: State, a: Action)
    requires Inv(hash, s)
    ensures Inv(hash, Step(hash, s, a))
  {
    if a.Begin? {
      if !In(s, a.t) { BeginKeepsInv(hash, s, a.t, a.key, a.agency); }
    } else if In(s, a.t) {
      var x := s.txns[a.t];
      match a
      case TakeLock(t) => if x.phase.Missed? && hash(x.agency) !in s.locks { TakeLockKeepsInv(hash, s, t); }
      case InsertRow(t, id) => if x.phase.Numbered? { InsertKeepsInv(hash, s, t, id); }
      case Commit(t, acked) => if x.phase.Logged? { CommitKeepsInv(hash, s, t, acked); }
      case Abort(t) => if !Final(x.phase) { FinishKeepsInv(hash, s, t, Raised); }
      case CheckKey(t) => if x.phase.Opened? { CheckKeyKeepsInv(hash, s, t); }
      case ReadMax(t) => if x.phase.Locked? { ReadMaxKeepsInv(hash, s, t); }
      case InsertEvent(t) => if x.phase.Inserted? { InsertEventKeepsInv(hash, s, t); }
    }
  }

  lemma {:induction false} RunKeepsInv(hash: string -> int, s: State, actions: seq<Action>)
    requires Inv(hash, s)
    ensures Inv(hash, Run(hash, s, actions))
  {
    if actions != [] {
      RunKeepsInv(hash, s, actions[..|actions| - 1]);
      StepKeepsInv(hash, Run(hash, s, actions[..|actions| - 1]), actions[|actions| - 1]);
    }
  }

  // ---------------------------------------------------------------- main results

  /** For every interleaving: each agency's committed rows carry exactly 1..n, in commit order, and each
      idempotency key labels at most one row. */
  lemma {:induction false} SequencesAreGapless(hash: string -> int, actions: seq<Action>)
    ensures var rows := Run(hash, EMPTY, actions).rows;
            && (forall a: string, i: nat :: i < |Of(rows, a)| ==> Of(rows, a)[i].number == i + 1)
            && (forall i, j :: 0 <= i < j < |rows| ==> rows[i].key != rows[j].key && rows[i].id != rows[j].id)
  {
    RunKeepsInv(hash, EMPTY, actions);
  }

  /** Any two calls that return a record for the same key return the same record. */
  lemma {:induction false} SameKeySameRecord(hash: string -> int, actions: seq<Action>, t: nat, u: nat)
    requires var s := Run(hash, EMPTY, actions);
             && In(s, t) && In(s, u) && s.txns[t].key == s.txns[u].key
             && (s.txns[t].phase.Found? || s.txns[t].phase.Created?)
             && (s.txns[u].phase.Found? || s.txns[u].phase.Created?)
    ensures var s := Run(hash, EMPTY, actions);
            s.txns[t].phase.row == s.txns[u].phase.row && s.txns[t].phase.row in s.rows
  {
    RunKeepsInv(hash, EMPTY, actions);
    var s := Run(hash, EMPTY, actions);
    var r, q := s.txns[t].phase.row, s.txns[u].phase.row;
    var i :| 0 <= i < |s.rows| && s.rows[i] == r;
    var j :| 0 <= j < |s.rows| && s.rows[j] == q;
    assert !(i < j) && !(j < i);
  }

  /** A commit is never refused for its sequence number: an insertion that does not wait is refused exactly
      when its key, or its fresh id, is already committed. The key check before the lock is not repeated, so
      the loser of a same-key race aborts instead of returning the winner's record. */
  lemma InsertRefusedIffKeyTaken(hash: string -> int, s: State, t: nat, id: nat)
    requires Inv(hash, s) && In(s, t) && s.txns[t].phase.Numbered?
    requires !ClashesPending(s, t, Row(id, s.txns[t].key, s.txns[t].agency, s.txns[t].phase.n))
    ensures Step(hash, s, InsertRow(t, id)).txns[t].phase.Raised?
       <==> exists r | r in s.rows :: r.key == s.txns[t].key || r.id == id
  {
    var x := s.txns[t];
    var row := Row(id, x.key, x.agency, x.phase.n);
    if ClashesCommitted(s, row) {
      var r :| r in s.rows && Clash(r, row);
      if r.agency == x.agency {
        var i :| 0 <= i < |s.rows| && s.rows[i] == r;
        OfMembers(s.rows, x.agency, i);
      }
    } else {
      assert forall r | r in s.rows :: !Clash(r, row);
    }
  }

  /** `create_or_get` finds a committed key: whichever row it stands in, however many others there are, the call ends
      with that row and nothing else changes; with a key that no row carries it goes on instead. */
  lemma CheckFindsCommitted(hash: string -> int, s: State, t: nat)
    requires Inv(hash, s) && In(s, t) && s.txns[t].phase.Opened?
    ensures var s' := Step(hash, s, CheckKey(t));
            && s' == s.(txns := s'.txns) && s'.txns == s.txns[t := s.txns[t].(phase := s'.txns[t].phase)]
            && (forall r :: r in s.rows && r.key == s.txns[t].key ==> s'.txns[t].phase == Found(r))
            && ((forall r :: r in s.rows ==> r.key != s.txns[t].key) ==> s'.txns[t].phase == Missed)
  {
    NothingReleased(hash, s, t);
    forall r | r in s.rows && r.key == s.txns[t].key
      ensures Step(hash, s, CheckKey(t)).txns[t].phase == Found(r)
    {
      OneRowOfKey(s.rows, r);
    }
  }

  lemma NothingReleased(hash: string -> int, s: State, t: nat)
    requires LockInv(hash, s) && In(s, t) && !Holds(s.txns[t].phase)
    ensures Released(s.locks, t) == s.locks
  {
    assert forall l :: l in s.locks ==> s.locks[l] != t;
  }

  lemma {:induction false} OneRowOfKey(rows: seq<Row>, r: Row)
    requires Unique(rows) && r in rows
    ensures FindKey(rows, r.key) == Some(r)
  {
    var i :| 0 <= i < |rows| && rows[i] == r;
    var q := FindKey(rows, r.key).value;
    var j :| 0 <= j < |rows| && rows[j] == q;
  }

  /** The advisory lock makes a call wait exactly while another call whose agency has the same lock hash is past it. */
  lemma LockWaitsIff(hash: string -> int, s: State, t: nat)
    requires LockInv(hash, s) && In(s, t) && s.txns[t].phase.Missed?
    ensures var s' := Step(hash, s, TakeLock(t));
            (if exists u :: Past(hash, s, t, u) then s' == s else s'.txns[t].phase.Locked? && s'.rows == s.rows)
  {
    var l := hash(s.txns[t].agency);
    if l in s.locks { assert Past(hash, s, t, s.locks[l]); }
  }

  /** Call `u` holds the lock that call `t` needs. */
  ghost predicate Past(hash: string -> int, s: State, t: nat, u: nat) {
    u in s.txns && t in s.txns && Holds(s.txns[u].phase) && hash(s.txns[u].agency) == hash(s.txns[t].agency)
  }

  lemma WaitsIffClash(hash: string -> int, s: State, t: nat, row: Row)
    requires In(s, t) && s.txns[t].phase == Numbered(row.number) && s.txns[t].key == row.key
    requires s.txns[t].agency == row.agency
    ensures Step(hash, s, InsertRow(t, row.id)) == s <==> ClashesPending(s, t, row)
  {
    var s' := Step(hash, s, InsertRow(t, row.id));
    if !ClashesPending(s, t, row) { assert s'.txns[t].phase != s.txns[t].phase; }
  }

  lemma PendingAgencies(hash: string -> int, s: State, t: nat, u: nat)
    requires LockInv(hash, s) && NumberInv(s) && In(s, t) && In(s, u) && t != u
    requires Holds(s.txns[t].phase) && Pending(s.txns[u].phase)
    ensures s.txns[u].phase.row.agency != s.txns[t].agency
  {
    HoldersDiffer(hash, s, t, u);
  }

  /** An insertion waits exactly while another call has inserted a row with its key or its id and is not over. */
  lemma InsertWaitsIff(hash: string -> int, s: State, t: nat, id: nat)
    requires Inv(hash, s) && In(s, t) && s.txns[t].phase.Numbered?
    ensures Step(hash, s, InsertRow(t, id)) == s
       <==> exists u :: u in s.txns && Pending(s.txns[u].phase)
                        && (s.txns[u].phase.row.key == s.txns[t].key || s.txns[u].phase.row.id == id)
  {
    var row := Row(id, s.txns[t].key, s.txns[t].agency, s.txns[t].phase.n);
    WaitsIffClash(hash, s, t, row);
    if ClashesPending(s, t, row) {
      var u :| u in s.txns && u != t && Pending(s.txns[u].phase) && Clash(s.txns[u].phase.row, row);
      PendingAgencies(hash, s, t, u);
    }
    if u :| u in s.txns && Pending(s.txns[u].phase)
            && (s.txns[u].phase.row.key == s.txns[t].key || s.txns[u].phase.row.id == id)
    {
      assert ClashesPending(s, t, row);
    }
  }

  lemma RunThree(hash: string -> int, s: State, a: Action, b: Action, c: Action)
    ensures Run(hash, s, [a, b, c]) == Step(hash, Step(hash, Step(hash, s, a), b), c)
  {
    assert [a, b, c][..2] == [a, b];
    assert [a, b][..1] == [a];
    assert [a][..0] == [];
    assert Run(hash, s, [a]) == Step(hash, s, a);
    assert Run(hash, s, [a, b]) == Step(hash, Step(hash, s, a), b);
  }

  lemma {:induction false} Then(hash: string -> int, s: State, xs: seq<Action>, ys: seq<Action>, mid: State)
    requires Run(hash, s, xs) == mid
    ensures Run(hash, s, xs + ys) == Run(hash, mid, ys)
  {
    RunConcat(hash, s, xs, ys);
  }

  /** The numbers of an agency's rows are at most their maximum. */
  lemma {:induction false} MaxBounds(rows: seq<Row>, agency: string, i: nat)
    requires i < |rows| && rows[i].agency == agency
    ensures rows[i].number <= MaxNumber(rows, agency)
  {
    if i < |rows| - 1 { MaxBounds(rows[..|rows| - 1], agency, i); }
  }

  /** Nobody is between the advisory lock and the end of the transaction. */
  ghost predicate Idle(s: State) {
    s.locks == map[] && forall u :: u in s.txns ==> !Pending(s.txns[u].phase)
  }

  function Create(t: nat, id: nat): seq<Action> {
    [CheckKey(t), TakeLock(t), ReadMax(t)] + [InsertRow(t, id), InsertEvent(t), Commit(t, true)]
  }

  /** A new key's row as a lone call inserts it. */
  function NextRow(s: State, t: nat, id: nat): Row
    requires In(s, t)
  {
    Row(id, s.txns[t].key, s.txns[t].agency, MaxNumber(s.rows, s.txns[t].agency) + 1)
  }

  lemma LoneReserves(hash: string -> int, s: State, t: nat)
    requires Idle(s) && In(s, t) && s.txns[t].phase.Opened? && forall r :: r in s.rows ==> r.key != s.txns[t].key
    ensures Run(hash, s, [CheckKey(t), TakeLock(t), ReadMax(t)]) == Reserved(hash, Move(s, t, Missed), t)
  {
    RunThree(hash, s, CheckKey(t), TakeLock(t), ReadMax(t));
    MissStep(hash, s, t);
    ReserveSteps(hash, Move(s, t, Missed), t);
  }

  lemma MissStep(hash: string -> int, s: State, t: nat)
    requires In(s, t) && s.txns[t].phase.Opened? && forall r :: r in s.rows ==> r.key != s.txns[t].key
    ensures Step(hash, s, CheckKey(t)) == Move(s, t, Missed)
  {}

  /** The advisory lock is free: the call takes it and reads its number. */
  lemma ReserveSteps(hash: string -> int, s: State, t: nat)
    requires s.locks == map[] && In(s, t) && s.txns[t].phase.Missed?
    ensures Step(hash, Step(hash, s, TakeLock(t)), ReadMax(t)) == Reserved(hash, s, t)
  {
    var x := s.txns[t];
    var locked := Move(s.(locks := map[hash(x.agency) := t]), t, Locked);
    assert Step(hash, s, TakeLock(t)) == locked;
    assert locked.txns[t := x.(phase := Numbered(MaxNumber(s.rows, x.agency) + 1))] == Reserved(hash, s, t).txns;
  }

  /** The lock is taken and the next number read. */
  function Reserved(hash: string -> int, s: State, t: nat): State
    requires In(s, t)
  {
    var x := s.txns[t];
    Move(s.(locks := map[hash(x.agency) := t]), t, Numbered(MaxNumber(s.rows, x.agency) + 1))
  }

  /** A row with a new key, a new id and the next number clashes with nothing committed. */
  lemma NextRowFits(s: State, row: Row)
    requires row.number == MaxNumber(s.rows, row.agency) + 1
    requires forall r :: r in s.rows ==> r.key != row.key && r.id != row.id
    ensures !ClashesCommitted(s, row)
  {
    if r :| r in s.rows && Clash(r, row) {
      var i :| 0 <= i < |s.rows| && s.rows[i] == r;
      MaxBounds(s.rows, row.agency, i);
      assert false;
    }
  }

  lemma LoneInsert(hash: string -> int, s: State, t: nat, row: Row)
    requires In(s, t) && s.txns[t].phase == Numbered(row.number) && s.txns[t].key == row.key
    requires s.txns[t].agency == row.agency
    requires !ClashesCommitted(s, row) && forall u :: u in s.txns ==> !Pending(s.txns[u].phase)
    ensures Step(hash, Step(hash, s, InsertRow(t, row.id)), InsertEvent(t)) == Move(s, t, Logged(row))
  {
    assert !ClashesPending(s, t, row);
    assert Step(hash, s, InsertRow(t, row.id)) == Move(s, t, Inserted(row));
  }

  lemma NoLocksLeft(locks: map<int, nat>, t: nat)
    requires forall l :: l in locks ==> locks[l] == t
    ensures Released(locks, t) == map[]
  {
    var left := Released(locks, t);
    forall l: int ensures l !in left.Keys {}
    assert left.Keys == {};
  }

  lemma LoneCommit(hash: string -> int, s: State, t: nat)
    requires In(s, t) && s.txns[t].phase.Logged? && forall l :: l in s.locks ==> s.locks[l] == t
    ensures var row := s.txns[t].phase.row;
            Step(hash, s, Commit(t, true)) ==
            State(s.rows + [row], s.events + [Event(row.id, row.agency, row.number)],
                  s.txns[t := s.txns[t].(phase := Created(row))], map[])
  {
    NoLocksLeft(s.locks, t);
  }

  /** What a lone call on a new key leaves. */
  function Grown(s: State, t: nat, row: Row): State
    requires In(s, t)
  {
    State(s.rows + [row], s.events + [Event(row.id, row.agency, row.number)],
          s.txns[t := s.txns[t].(phase := Created(row))], map[])
  }

  lemma LoneInserts(hash: string -> int, s: State, t: nat, row: Row)
    requires In(s, t) && s.txns[t].phase == Numbered(row.number) && !ClashesCommitted(s, row)
    requires forall u :: u in s.txns ==> !Pending(s.txns[u].phase)
    requires forall l :: l in s.locks ==> s.locks[l] == t
    requires s.txns[t].key == row.key && s.txns[t].agency == row.agency
    ensures Run(hash, s, [InsertRow(t, row.id), InsertEvent(t), Commit(t, true)]) == Grown(s, t, row)
  {
    RunThree(hash, s, InsertRow(t, row.id), InsertEvent(t), Commit(t, true));
    LoneInsert(hash, s, t, row);
    LoneCommit(hash, Move(s, t, Logged(row)), t);
  }

  /** A call that nobody disturbs, on a new key, commits its agency's next row. */
  lemma LoneCallCreates(hash: string -> int, s: State, t: nat, id: nat)
    requires Idle(s) && In(s, t) && s.txns[t].phase.Opened?
    requires forall r :: r in s.rows ==> r.key != s.txns[t].key && r.id != id
    ensures Run(hash, s, Create(t, id)) == Grown(s, t, NextRow(s, t, id))
  {
    var row := NextRow(s, t, id);
    var mid := Reserved(hash, Move(s, t, Missed), t);
    LoneReserves(hash, s, t);
    Then(hash, s, [CheckKey(t), TakeLock(t), ReadMax(t)], [InsertRow(t, id), InsertEvent(t), Commit(t, true)], mid);
    NextRowFits(s, row);
    LoneInserts(hash, mid, t, row);
    GrownSame(hash, s, t, row);
  }

  lemma GrownSame(hash: string -> int, s: State, t: nat, row: Row)
    requires In(s, t)
    ensures Grown(Reserved(hash, Move(s, t, Missed), t), t, row) == Grown(s, t, row)
  {}

  /** Two calls one after the other, on different new keys of one agency: the second one's number is the next. */
  lemma {:induction false} TwoCallsCreate(hash: string -> int, s: State, t: nat, u: nat, id: nat)
    returns (actions: seq<Action>, row: Row, next: Row)
    requires Idle(s) && In(s, t) && In(s, u) && t != u && s.txns[t].phase.Opened? && s.txns[u].phase.Opened?
    requires s.txns[t].agency == s.txns[u].agency && s.txns[t].key != s.txns[u].key
    requires forall r :: r in s.rows ==> r.key != s.txns[t].key && r.key != s.txns[u].key && r.id < id
    ensures Run(hash, s, actions) == Grown(Grown(s, t, row), u, next)
    ensures row == NextRow(s, t, id) && next.agency == row.agency && next.key == s.txns[u].key
    ensures next.number == row.number + 1
    ensures forall j :: 0 <= j < |actions| ==> !actions[j].Begin?
  {
    row := NextRow(s, t, id);
    var grown := Grown(s, t, row);
    SecondIsNew(s, t, u, id);
    next := NextRow(grown, u, id + 1);
    LoneCallCreates(hash, s, t, id);
    LoneCallCreates(hash, grown, u, id + 1);
    actions := Both(hash, s, Create(t, id), grown, Create(u, id + 1));
    CreatesOnly(t, u, id);
  }

  /** The second call meets a state like the first one's, with the next number. */
  lemma SecondIsNew(s: State, t: nat, u: nat, id: nat)
    requires Idle(s) && In(s, t) && In(s, u) && t != u && s.txns[u].phase.Opened?
    requires s.txns[t].agency == s.txns[u].agency && s.txns[t].key != s.txns[u].key
    requires forall r :: r in s.rows ==> r.key != s.txns[u].key && r.id < id
    ensures var row := NextRow(s, t, id);
            var grown := Grown(s, t, row);
            && Idle(grown) && In(grown, u) && grown.txns[u] == s.txns[u]
            && (forall r :: r in grown.rows ==> r.key != s.txns[u].key && r.id != id + 1)
            && NextRow(grown, u, id + 1) == Row(id + 1, s.txns[u].key, row.agency, row.number + 1)
  {
    var row := NextRow(s, t, id);
    RowAdded(s.rows, row);
    NextNumber(s.rows, row);
  }

  lemma CreatesOnly(t: nat, u: nat, id: nat)
    ensures var actions := Create(t, id) + Create(u, id + 1);
            forall j :: 0 <= j < |actions| ==> !actions[j].Begin?
  {}

  /** After a row with the next number its number is the maximum. */
  lemma {:induction false} NextNumber(rows: seq<Row>, row: Row)
    requires row.number > MaxNumber(rows, row.agency)
    ensures MaxNumber(rows + [row], row.agency) == row.number
  {
    assert (rows + [row])[..|rows|] == rows;
  }

  lemma {:induction false} Both(hash: string -> int, s: State, xs: seq<Action>, mid: State, ys: seq<Action>)
    returns (actions: seq<Action>)
    requires Run(hash, s, xs) == mid
    ensures actions == xs + ys && Run(hash, s, actions) == Run(hash, mid, ys)
  {
    actions := xs + ys;
    RunConcat(hash, s, xs, ys);
  }

  function Late(u: nat, id: nat): seq<Action> { [TakeLock(u), ReadMax(u), InsertRow(u, id)] }

  /** A call that missed its key before somebody committed it cannot insert any more: it raises. */
  lemma LateCallRaises(hash: string -> int, s: State, u: nat, id: nat)
    requires Idle(s) && In(s, u) && s.txns[u].phase.Missed? && exists r :: r in s.rows && r.key == s.txns[u].key
    ensures Run(hash, s, Late(u, id)) == Move(s, u, Raised)
  {
    RunThree(hash, s, TakeLock(u), ReadMax(u), InsertRow(u, id));
    ReserveSteps(hash, s, u);
    LateInsert(hash, Reserved(hash, s, u), u, id);
    assert Move(Reserved(hash, s, u).(locks := map[]), u, Raised) == Move(s, u, Raised);
  }

  lemma LateInsert(hash: string -> int, s: State, u: nat, id: nat)
    requires In(s, u) && s.txns[u].phase.Numbered? && exists r :: r in s.rows && r.key == s.txns[u].key
    requires forall v :: v in s.txns ==> !Pending(s.txns[v].phase)
    requires forall l :: l in s.locks ==> s.locks[l] == u
    ensures Step(hash, s, InsertRow(u, id)) == Move(s.(locks := map[]), u, Raised)
  {
    var r :| r in s.rows && r.key == s.txns[u].key;
    var row := Row(id, s.txns[u].key, s.txns[u].agency, s.txns[u].phase.n);
    assert Clash(r, row) && !ClashesPending(s, u, row);
    NoLocksLeft(s.locks, u);
  }

  /** The race for one key: `u` has missed it, `t` creates it, and `u` goes on to its insertion. Whoever loses the race
      raises instead of returning the winner's record. */
  lemma SameKeyRaceRaises(hash: string -> int, s: State, t: nat, u: nat, id: nat)
    requires Idle(s) && In(s, t) && In(s, u) && t != u && s.txns[t].phase.Opened? && s.txns[u].phase.Missed?
    requires s.txns[t].key == s.txns[u].key && forall r :: r in s.rows ==> r.key != s.txns[t].key && r.id != id
    ensures Run(hash, Run(hash, s, Create(t, id)), Late(u, id + 1)) == Move(Grown(s, t, NextRow(s, t, id)), u, Raised)
  {
    LoneCallCreates(hash, s, t, id);
    RaceLoses(hash, s, t, u, NextRow(s, t, id), id + 1);
  }

  /** The race as one run. */
  lemma {:induction false} RaceRun(hash: string -> int, s: State, t: nat, u: nat, id: nat)
    returns (actions: seq<Action>)
    requires Idle(s) && In(s, t) && In(s, u) && t != u && s.txns[t].phase.Opened? && s.txns[u].phase.Opened?
    requires s.txns[t].key == s.txns[u].key && forall r :: r in s.rows ==> r.key != s.txns[t].key && r.id != id
    ensures Run(hash, s, actions) == Move(Grown(Move(s, u, Missed), t, NextRow(s, t, id)), u, Raised)
    ensures forall i :: 0 <= i < |actions| ==> !actions[i].Begin?
  {
    var missed := Move(s, u, Missed);
    RaceMisses(hash, s, u);
    IdleOnceMissed(s, u);
    SameKeyRaceRaises(hash, missed, t, u, id);
    RaceBeginsNobody(t, u, id);
    actions := Chain(hash, s, [CheckKey(u)], missed, Create(t, id), Run(hash, missed, Create(t, id)), Late(u, id + 1));
  }

  lemma {:induction false} Chain(hash: string -> int, s: State, xs: seq<Action>, m: State, ys: seq<Action>, n: State,
                                 zs: seq<Action>)
    returns (actions: seq<Action>)
    requires Run(hash, s, xs) == m && Run(hash, m, ys) == n
    ensures actions == xs + ys + zs && Run(hash, s, actions) == Run(hash, n, zs)
  {
    actions := xs + ys + zs;
    RunConcat(hash, s, xs, ys);
    RunConcat(hash, s, xs + ys, zs);
  }

  lemma IdleOnceMissed(s: State, u: nat)
    requires Idle(s) && In(s, u)
    ensures Idle(Move(s, u, Missed))
  {}

  lemma RaceBeginsNobody(t: nat, u: nat, id: nat)
    ensures var actions := [CheckKey(u)] + Create(t, id) + Late(u, id + 1);
            forall i :: 0 <= i < |actions| ==> !actions[i].Begin?
  {}

  lemma RaceMisses(hash: string -> int, s: State, u: nat)
    requires In(s, u) && s.txns[u].phase.Opened? && forall r :: r in s.rows ==> r.key != s.txns[u].key
    ensures Run(hash, s, [CheckKey(u)]) == Move(s, u, Missed)
  {
    assert [CheckKey(u)][..0] == [];
    MissStep(hash, s, u);
  }

  lemma RaceLoses(hash: string -> int, s: State, t: nat, u: nat, row: Row, id: nat)
    requires Idle(s) && In(s, t) && In(s, u) && t != u && s.txns[u].phase.Missed? && s.txns[u].key == row.key
    ensures Run(hash, Grown(s, t, row), Late(u, id)) == Move(Grown(s, t, row), u, Raised)
  {
    var grown := Grown(s, t, row);
    assert grown.rows[|s.rows|] == row;
    LateCallRaises(hash, grown, u, id);
  }

  /** A run from the empty tables in which that happens. */
  lemma {:induction false} SameKeyRaceAborts(hash: string -> int) returns (actions: seq<Action>)
    ensures Run(hash, EMPTY, actions).txns
            == map[1 := Txn("k", "a", Created(Row(10, "k", "a", 1))), 2 := Txn("k", "b", Raised)]
  {
    var s := State([], [], map[1 := Txn("k", "a", Opened), 2 := Txn("k", "b", Opened)], map[]);
    RaceOpens(hash, 1, 2, "k", "a", "b");
    var race := RaceRun(hash, s, 1, 2, 10);
    RaceEnd(s);
    actions := [Begin(1, "k", "a"), Begin(2, "k", "b")] + race;
    Then(hash, EMPTY, [Begin(1, "k", "a"), Begin(2, "k", "b")], race, s);
  }

  lemma RaceEnd(s: State)
    requires s.rows == [] && s.txns == map[1 := Txn("k", "a", Opened), 2 := Txn("k", "b", Opened)]
    ensures Move(Grown(Move(s, 2, Missed), 1, NextRow(s, 1, 10)), 2, Raised).txns
            == map[1 := Txn("k", "a", Created(Row(10, "k", "a", 1))), 2 := Txn("k", "b", Raised)]
  {
    assert NextRow(s, 1, 10) == Row(10, "k", "a", 1);
  }

  lemma RaceOpens(hash: string -> int, t: nat, u: nat, key: string, a: string, b: string)
    requires t != u
    ensures Run(hash, EMPTY, [Begin(t, key, a), Begin(u, key, b)]) ==
            State([], [], map[t := Txn(key, a, Opened), u := Txn(key, b, Opened)], map[])
  {
    var first := [Begin(t, key, a)];
    assert first[..0] == [] && first + [Begin(u, key, b)] == [Begin(t, key, a), Begin(u, key, b)];
    RunSnoc(hash, EMPTY, first, Begin(u, key, b));
  }

  // ---------------------------------------------------------------- progress

  /** A step, not a rollback, that takes its transaction further. It may end it in an exception only when its key
      is taken, which no retry of the statement could change. */
  ghost predicate Advances(hash: string -> int, s: State, a: Action) {
    var s' := Step(hash, s, a);
    && !a.Begin? && !a.Abort? && In(s, a.t) && In(s', a.t) && s'.txns[a.t].phase != s.txns[a.t].phase
    && (s'.txns[a.t].phase.Raised? ==> exists r :: r in s.rows && r.key == s.txns[a.t].key)
  }

  /** No deadlock: while a transaction is unfinished, some transaction advances. */
  lemma SomeoneCanProceed(hash: string -> int, s: State, t: nat) returns (a: Action)
    requires Inv(hash, s) && In(s, t) && !Final(s.txns[t].phase)
    ensures Advances(hash, s, a)
  {
    var x := s.txns[t];
    match x.phase
    case Opened => a := CheckKey(t);
    case Missed =>
      if hash(x.agency) in s.locks {
        var l := hash(x.agency);
        assert l in s.locks;
        a := HolderCanProceed(hash, s, s.locks[l]);
      } else {
        a := TakeLock(t);
      }
    case _ => a := HolderCanProceed(hash, s, t);
  }

  /** An id that no row carries yet. */
  function FreshId(rows: seq<Row>): (id: nat)
    ensures forall i :: 0 <= i < |rows| ==> rows[i].id < id
  {
    if rows == [] then 0
    else
      var id, last := FreshId(rows[..|rows| - 1]), rows[|rows| - 1].id;
      if last < id then id else last + 1
  }

  /** A transaction in front of its insertion can insert, or learns that its key is taken, or the one it waits
      for can go on. */
  lemma InserterCanProceed(hash: string -> int, s: State, t: nat) returns (a: Action)
    requires Inv(hash, s) && In(s, t) && s.txns[t].phase.Numbered?
    ensures Advances(hash, s, a)
  {
    var id := FreshId(s.rows);
    var row := Row(id, s.txns[t].key, s.txns[t].agency, s.txns[t].phase.n);
    if ClashesPending(s, t, row) {
      var u :| u in s.txns && u != t && Pending(s.txns[u].phase) && Clash(s.txns[u].phase.row, row);
      a := if s.txns[u].phase.Inserted? then InsertEvent(u) else Commit(u, true);
      PendingAdvances(hash, s, u);
    } else {
      a := InsertRow(t, id);
      InsertionAdvances(hash, s, t, id);
    }
  }

  lemma PendingAdvances(hash: string -> int, s: State, u: nat)
    requires In(s, u) && Pending(s.txns[u].phase)
    ensures Advances(hash, s, if s.txns[u].phase.Inserted? then InsertEvent(u) else Commit(u, true))
  {}

  lemma InsertionAdvances(hash: string -> int, s: State, t: nat, id: nat)
    requires Inv(hash, s) && In(s, t) && s.txns[t].phase.Numbered? && forall r :: r in s.rows ==> r.id != id
    requires !ClashesPending(s, t, Row(id, s.txns[t].key, s.txns[t].agency, s.txns[t].phase.n))
    ensures Advances(hash, s, InsertRow(t, id))
  {
    InsertRefusedIffKeyTaken(hash, s, t, id);
  }

  lemma HolderCanProceed(hash: string -> int, s: State, t: nat) returns (a: Action)
    requires Inv(hash, s) && In(s, t) && Holds(s.txns[t].phase)
    ensures Advances(hash, s, a)
  {
    match s.txns[t].phase
    case Locked => a := ReadMax(t);
    case Numbered(n) => a := InserterCanProceed(hash, s, t);
    case Inserted(_) => a := InsertEvent(t);
    case Logged(_) => a := Commit(t, true);
  }

  // ---------------------------------------------------------------- one call's statements

  /** The statements of `create_or_get` in order, with a failure in place of one of them. */
  function Plan(t: nat, key: string, agency: string, newId: nat, failAt: nat, acked: bool): seq<Action> {
    var script := [Begin(t, key, agency), CheckKey(t), TakeLock(t), ReadMax(t), InsertRow(t, newId), InsertEvent(t),
                   Commit(t, acked)];
    if 0 < failAt < 7 then script[failAt := Abort(t)] else script
  }

  lemma {:induction false} WeaveNext(hash: string -> int, s: State, others: seq<seq<Action>>, own: seq<Action>,
                                     a: Action)
    requires |own| < |others|
    ensures Run(hash, s, Weave(others, own + [a])) ==
            Step(hash, Run(hash, Run(hash, s, Weave(others, own)), others[|own|]), a)
  {
    WeaveSnoc(others, own, a);
    RunConcat(hash, s, Weave(others, own), others[|own|]);
    RunSnoc(hash, s, Weave(others, own) + others[|own|], a);
  }

  /** Where a transaction stands in front of statement `k`. */
  predicate Stage(k: nat, p: Phase) {
    match p
    case Opened => k == 1
    case Missed => k == 2
    case Locked => k == 3
    case Numbered(_) => k == 4
    case Inserted(_) => k == 5
    case Logged(_) => k == 6
    case _ => false
  }

  /** The ways in which a transaction can be over after `k` statements. */
  predicate Ended(k: nat, p: Phase) { p.Raised? || (p.Found? && k == 2) || (p.Created? && k == 7) }

  ghost predicate Waits(t: nat, k: nat, s: State) { In(s, t) && Stage(k, s.txns[t].phase) }

  ghost predicate Suits(t: nat, a: Action, k: nat) {
    && a.t == t && !a.Begin?
    && forall p, q :: Stage(k, p) && Leads(p, a, q) ==> Stage(k, q) || Stage(k + 1, q) || Ended(k + 1, q)
  }

  ghost predicate AllFit(t: nat, plan: seq<Action>) { forall k :: 0 < k < |plan| ==> Suits(t, plan[k], k) }

  lemma PlanFits(t: nat, key: string, agency: string, newId: nat, failAt: nat, acked: bool)
    ensures AllFit(t, Plan(t, key, agency, newId, failAt, acked))
  {}

  /** Where a statement of its own can take an unfinished transaction: it may have to wait, or be refused. */
  predicate Leads(p: Phase, a: Action, q: Phase) {
    match a
    case CheckKey(_) => p.Opened? ==> q.Missed? || q.Found?
    case TakeLock(_) => p.Missed? ==> q == p || q.Locked?
    case ReadMax(_) => p.Locked? ==> q.Numbered?
    case InsertRow(_, id) => p.Numbered? ==> q == p || q.Raised? || (q.Inserted? && q.row.id == id)
    case InsertEvent(_) => p.Inserted? ==> q == Logged(p.row)
    case Commit(_, acked) => p.Logged? ==> q == if acked then Created(p.row) else Raised
    case Abort(_) => q.Raised?
    case Begin(_, _, _) => true
  }

  lemma StepLeads(hash: string -> int, s: State, a: Action)
    requires !a.Begin? && In(s, a.t) && !Final(s.txns[a.t].phase)
    ensures var s' := Step(hash, s, a);
            && In(s', a.t) && s'.txns[a.t] == s.txns[a.t].(phase := s'.txns[a.t].phase)
            && Leads(s.txns[a.t].phase, a, s'.txns[a.t].phase)
  {}

  lemma StepSpares(hash: string -> int, s: State, a: Action, t: nat)
    requires a.t != t
    ensures var s' := Step(hash, s, a); (In(s', t) <==> In(s, t)) && (In(s, t) ==> s'.txns[t] == s.txns[t])
  {}

  ghost predicate Foreign(others: seq<seq<Action>>, t: nat) {
    forall w, b :: w in others && b in w ==> b.t != t
  }

  ghost predicate Spared(actions: seq<Action>, t: nat) { forall i :: 0 <= i < |actions| ==> actions[i].t != t }

  lemma {:induction false} ForeignSpares(others: seq<seq<Action>>, t: nat, i: nat)
    requires Foreign(others, t) && i < |others|
    ensures Spared(others[i], t)
  {
    assert others[i] in others;
  }

  lemma {:induction false} RunSpares(hash: string -> int, s: State, actions: seq<Action>, t: nat)
    requires Spared(actions, t)
    ensures var s' := Run(hash, s, actions); (In(s', t) <==> In(s, t)) && (In(s, t) ==> s'.txns[t] == s.txns[t])
  {
    if actions != [] {
      RunSpares(hash, s, actions[..|actions| - 1], t);
      StepSpares(hash, Run(hash, s, actions[..|actions| - 1]), actions[|actions| - 1], t);
    }
  }

  /** A call that has found its key stays so, and one that has missed it never finds it. */
  ghost predicate Checked(s: State, s': State, t: nat) {
    && In(s, t) && In(s', t)
    && (s.txns[t].phase.Found? ==> s'.txns[t] == s.txns[t])
    && (!s.txns[t].phase.Found? && !s.txns[t].phase.Opened? ==>
          !s'.txns[t].phase.Found? && !s'.txns[t].phase.Opened?)
  }

  lemma StepStaysChecked(hash: string -> int, s: State, a: Action, t: nat)
    requires In(s, t)
    ensures Checked(s, Step(hash, s, a), t)
  {
    if a.t != t { StepSpares(hash, s, a, t); }
  }

  lemma {:induction false} StaysChecked(hash: string -> int, s: State, actions: seq<Action>, t: nat)
    requires In(s, t)
    ensures Checked(s, Run(hash, s, actions), t)
  {
    if actions != [] {
      StaysChecked(hash, s, actions[..|actions| - 1], t);
      StepStaysChecked(hash, Run(hash, s, actions[..|actions| - 1]), actions[|actions| - 1], t);
    }
  }

  /** What is committed when a call that opened after `others[0]` makes its key check. */
  function Seen(hash: string -> int, s: State, others: seq<seq<Action>>, own: seq<Action>): State
    requires |own| > 0 && |others| > 1
  {
    Run(hash, Run(hash, s, Weave(others, own[..1])), others[1])
  }

  lemma {:induction false} SeenIsOpened(hash: string -> int, s: State, others: seq<seq<Action>>, own: seq<Action>,
                                        t: nat, key: string, agency: string)
    requires !In(s, t) && |others| > 1 && Foreign(others, t)
    requires |own| > 0 && own[0] == Begin(t, key, agency)
    ensures var seen := Seen(hash, s, others, own); In(seen, t) && seen.txns[t] == Txn(key, agency, Opened)
  {
    var open := Run(hash, s, Weave(others, own[..1]));
    assert own[..1] == [Begin(t, key, agency)];
    ForeignSpares(others, t, 0);
    ForeignSpares(others, t, 1);
    OpensAfter(hash, s, others, t, key, agency);
    RunSpares(hash, open, others[1], t);
  }

  lemma {:induction false} SeenKeepsInv(hash: string -> int, s: State, others: seq<seq<Action>>, own: seq<Action>)
    requires Inv(hash, s) && |own| > 0 && |others| > 1
    ensures Inv(hash, Seen(hash, s, others, own))
  {
    RunKeepsInv(hash, s, Weave(others, own[..1]));
    RunKeepsInv(hash, Run(hash, s, Weave(others, own[..1])), others[1]);
  }

  lemma {:induction false} OpensAfter(hash: string -> int, s: State, others: seq<seq<Action>>, t: nat, key: string,
                                      agency: string)
    requires !In(s, t) && |others| > 0 && Spared(others[0], t)
    ensures var s' := Run(hash, s, Weave(others, [Begin(t, key, agency)]));
            In(s', t) && s'.txns[t] == Txn(key, agency, Opened)
  {
    assert [] + [Begin(t, key, agency)] == [Begin(t, key, agency)];
    WeaveNext(hash, s, others, [], Begin(t, key, agency));
    RunSpares(hash, s, others[0], t);
    BeginOpens(hash, Run(hash, s, others[0]), t, key, agency);
  }

  lemma BeginOpens(hash: string -> int, s: State, t: nat, key: string, agency: string)
    requires !In(s, t)
    ensures var s' := Step(hash, s, Begin(t, key, agency)); In(s', t) && s'.txns[t] == Txn(key, agency, Opened)
  {
  }

  /** A call whose check is not disturbed ends with the row of its key exactly when one is committed by then. */
  lemma {:induction false} CallFindsCommitted(hash: string -> int, s: State, others: seq<seq<Action>>,
                                              own: seq<Action>, t: nat, key: string, agency: string)
    requires Inv(hash, s) && !In(s, t) && 2 <= |own| <= |others| && Foreign(others, t)
    requires own[0] == Begin(t, key, agency) && own[1] == CheckKey(t)
    ensures var seen, end := Seen(hash, s, others, own), Run(hash, s, Weave(others, own));
            && In(end, t)
            && (forall r :: r in seen.rows && r.key == key ==> end.txns[t].phase == Found(r))
            && ((forall r :: r in seen.rows ==> r.key != key) ==> !end.txns[t].phase.Found?)
  {
    var seen := Seen(hash, s, others, own);
    SeenIsOpened(hash, s, others, own, t, key, agency);
    SeenKeepsInv(hash, s, others, own);
    CheckFindsCommitted(hash, seen, t);
    assert own[..2] == own[..1] + [CheckKey(t)];
    WeaveNext(hash, s, others, own[..1], CheckKey(t));
    var rest := WeaveSplit(others, own, 2);
    RunConcat(hash, s, Weave(others, own[..2]), rest);
    StaysChecked(hash, Step(hash, seen, CheckKey(t)), rest, t);
  }

  /** What a call returned is committed. */
  ghost predicate Returns(s: State, t: nat) {
    && In(s, t)
    && (s.txns[t].phase.Found? || s.txns[t].phase.Created? ==>
          s.txns[t].phase.row in s.rows && s.txns[t].phase.row.key == s.txns[t].key)
    && (s.txns[t].phase.Created? ==> s.txns[t].phase.row.agency == s.txns[t].agency)
  }

  lemma {:induction false} CallKeepsInv(hash: string -> int, s: State, actions: seq<Action>, t: nat)
    requires Inv(hash, s) && In(Run(hash, s, actions), t)
    ensures Inv(hash, Run(hash, s, actions)) && Returns(Run(hash, s, actions), t)
  {
    RunKeepsInv(hash, s, actions);
  }

  /** The call ended with the row of its key if one was committed when it checked, and found nothing otherwise. */
  ghost predicate FindsCommitted(hash: string -> int, s: State, others: seq<seq<Action>>, plan: seq<Action>,
                                 key: string, out: Phase)
  {
    |plan| > 0 && |others| > 1 &&
    var seen := Seen(hash, s, others, plan);
    && (forall r :: r in seen.rows && r.key == key ==> out == Found(r))
    && ((forall r :: r in seen.rows ==> r.key != key) ==> !out.Found?)
  }

  /** What the run of a call's first `k` statements, and perhaps a rollback, leaves of it. */
  lemma {:induction false} CallTells(hash: string -> int, s: State, others: seq<seq<Action>>, plan: seq<Action>,
                                     own: seq<Action>, t: nat, key: string, agency: string, k: nat)
    requires Inv(hash, s) && !In(s, t) && 2 <= k <= |own| <= |others| && k <= |plan| && Foreign(others, t)
    requires plan[0] == Begin(t, key, agency) && own[..k] == plan[..k]
    requires In(Run(hash, s, Weave(others, own)), t)
    ensures var end := Run(hash, s, Weave(others, own));
            && Inv(hash, end) && Returns(end, t)
            && (plan[1] == CheckKey(t) ==> FindsCommitted(hash, s, others, plan, key, end.txns[t].phase))
  {
    CallKeepsInv(hash, s, Weave(others, own), t);
    if plan[1] == CheckKey(t) {
      SamePrefix(own, plan, k);
      CallFindsCommitted(hash, s, others, own, t, key, agency);
    }
  }

  lemma {:induction false} SamePrefix(own: seq<Action>, plan: seq<Action>, k: nat)
    requires 2 <= k <= |own| && k <= |plan| && own[..k] == plan[..k]
    ensures own[0] == plan[0] && own[1] == plan[1] && own[..1] == plan[..1]
  {
    assert own[0] == own[..k][0] && own[1] == own[..k][1];
  }

  // ---------------------------------------------------------------- the repository

  /** The tables, the advisory locks and the open transactions of the API's database. */
  class DocumentRepository {
    var rows: seq<Row>
    var events: seq<Event>
    var txns: map<nat, Txn>
    var locks: map<int, nat>
    const hash: string -> int

    function View(): State reads this { State(rows, events, txns, locks) }

    constructor (hash: string -> int)
      ensures View() == EMPTY && this.hash == hash
    {
      this.hash := hash;
      rows, events, txns, locks := [], [], map[], map[];
    }

    method End(t: nat, p: Phase)
      requires t in txns
      modifies this`txns, this`locks
      ensures View() == Finish(old(View()), t, p)
    {
      locks := Released(locks, t);
      txns := txns[t := txns[t].(phase := p)];
    }

    /** One statement, of any transaction. */
    method Execute(a: Action)
      modifies this
      ensures View() == Step(hash, old(View()), a)
    {
      if a.Begin? {
        if a.t !in txns { txns := txns[a.t := Txn(a.key, a.agency, Opened)]; }
        return;
      }
      if a.t !in txns { return; }
      var x := txns[a.t];
      match a {
        case CheckKey(t) =>
          if x.phase.Opened? {
            match FindKey(rows, x.key)
            case Some(r) => End(t, Found(r));
            case None => txns := txns[t := x.(phase := Missed)];
          }
        case TakeLock(t) =>
          if x.phase.Missed? && hash(x.agency) !in locks {
            locks := locks[hash(x.agency) := t];
            txns := txns[t := x.(phase := Locked)];
          }
        case ReadMax(t) =>
          if x.phase.Locked? { txns := txns[t := x.(phase := Numbered(MaxNumber(rows, x.agency) + 1))]; }
        case InsertRow(t, id) =>
          if x.phase.Numbered? {
            var row := Row(id, x.key, x.agency, x.phase.n);
            if !ClashesPending(View(), t, row) {
              if ClashesCommitted(View(), row) {
                End(t, Raised);
              } else {
                txns := txns[t := x.(phase := Inserted(row))];
              }
            }
          }
        case InsertEvent(t) =>
          if x.phase.Inserted? { txns := txns[t := x.(phase := Logged(x.phase.row))]; }
        case Commit(t, acked) =>
          if x.phase.Logged? {
            var row := x.phase.row;
            rows, events := rows + [row], events + [Event(row.id, row.agency, row.number)];
            End(t, if acked then Created(row) else Raised);
          }
        case Abort(t) =>
          if !Final(x.phase) { End(t, Raised); }
        case Begin(_, _, _) =>
      }
    }

    /** Other transactions run, one statement at a time. */
    method Others(t: nat, actions: seq<Action>)
      requires forall a :: a in actions ==> a.t != t
      modifies this
      ensures View() == Run(hash, old(View()), actions)
      ensures (t in txns <==> t in old(txns)) && (t in txns ==> txns[t] == old(txns[t]))
    {
      for i := 0 to |actions|
        invariant View() == Run(hash, old(View()), actions[..i])
        invariant (t in txns <==> t in old(txns)) && (t in txns ==> txns[t] == old(txns[t]))
      {
        assert actions[..i + 1] == actions[..i] + [actions[i]];
        RunSnoc(hash, old(View()), actions[..i], actions[i]);
        StepSpares(hash, View(), actions[i], t);
        Execute(actions[i]);
      }
      assert actions[..|actions|] == actions;
    }

    /** One own statement, after what the others did before it. A statement that still has to wait leaves the
        transaction as it is. */
    method Await(t: nat, others: seq<seq<Action>>, own: seq<Action>, a: Action, ghost s0: State) returns (p: Phase)
      requires |own| < |others| && Foreign(others, t) && a.t == t && !a.Begin?
      requires View() == Run(hash, s0, Weave(others, own))
      requires In(View(), t) && !Final(txns[t].phase)
      modifies this
      ensures View() == Run(hash, s0, Weave(others, own + [a]))
      ensures In(View(), t) && txns[t] == old(txns[t]).(phase := p) && Leads(old(txns[t].phase), a, p)
    {
      assert others[|own|] in others;
      Others(t, others[|own|]);
      WeaveNext(hash, s0, others, own, a);
      StepLeads(hash, View(), a);
      Execute(a);
      p := txns[t].phase;
    }

    /** Statement `k` of a plan. */
    method Statement(t: nat, others: seq<seq<Action>>, plan: seq<Action>, k: nat, ghost s0: State)
      returns (p: Phase, next: nat)
      requires 0 < k < |plan| < |others| && Foreign(others, t) && Suits(t, plan[k], k)
      requires View() == Run(hash, s0, Weave(others, plan[..k]))
      requires In(View(), t) && Stage(k, txns[t].phase)
      modifies this
      ensures next == k + 1 && View() == Run(hash, s0, Weave(others, plan[..next]))
      ensures In(View(), t) && txns[t] == old(txns[t]).(phase := p)
      ensures Stage(k, p) || Stage(next, p) || Ended(next, p)
    {
      p := Await(t, others, plan[..k], plan[k], s0);
      assert plan[..k + 1] == plan[..k] + [plan[k]];
      next := k + 1;
    }

    /** The transaction opens. */
    method Open(t: nat, others: seq<seq<Action>>, key: string, agency: string)
      requires !In(View(), t) && |others| > 0 && Foreign(others, t)
      modifies this
      ensures View() == Run(hash, old(View()), Weave(others, [Begin(t, key, agency)]))
      ensures In(View(), t) && txns[t] == Txn(key, agency, Opened)
    {
      ghost var s0 := View();
      assert others[0] in others;
      Others(t, others[0]);
      assert [] + [Begin(t, key, agency)] == [Begin(t, key, agency)];
      WeaveNext(hash, s0, others, [], Begin(t, key, agency));
      Execute(Begin(t, key, agency));
    }

    /** The key check, the advisory lock and the number. */
    method Reserve(t: nat, others: seq<seq<Action>>, plan: seq<Action>, ghost s0: State) returns (p: Phase, k: nat)
      requires |plan| == 7 < |others| && Foreign(others, t) && AllFit(t, plan)
      requires View() == Run(hash, s0, Weave(others, plan[..1]))
      requires In(View(), t) && txns[t].phase.Opened?
      modifies this
      ensures 1 < k <= 4 && View() == Run(hash, s0, Weave(others, plan[..k]))
      ensures In(View(), t) && txns[t] == old(txns[t]).(phase := p)
      ensures Stage(k - 1, p) || (Stage(k, p) && k == 4) || Ended(k, p)
    {
      p, k := Statement(t, others, plan, 1, s0);
      if !p.Missed? { return; }
      p, k := Statement(t, others, plan, 2, s0);
      if !p.Locked? { return; }
      p, k := Statement(t, others, plan, 3, s0);
    }

    /** The row, its event and the commit. */
    method Insert(t: nat, others: seq<seq<Action>>, plan: seq<Action>, ghost s0: State) returns (p: Phase, k: nat)
      requires |plan| == 7 < |others| && Foreign(others, t) && AllFit(t, plan)
      requires View() == Run(hash, s0, Weave(others, plan[..4]))
      requires In(View(), t) && txns[t].phase.Numbered?
      modifies this
      ensures 4 < k <= 7 && View() == Run(hash, s0, Weave(others, plan[..k]))
      ensures In(View(), t) && txns[t] == old(txns[t]).(phase := p)
      ensures Stage(k - 1, p) || Ended(k, p)
    {
      p, k := Statement(t, others, plan, 4, s0);
      if !p.Inserted? { return; }
      p, k := Statement(t, others, plan, 5, s0);
      if !p.Logged? { return; }
      p, k := Statement(t, others, plan, 6, s0);
    }

    /** A plan's statements until the call is over or has to wait; then it is cancelled. */
    method Follow(t: nat, key: string, agency: string, plan: seq<Action>, others: seq<seq<Action>>)
      returns (out: Phase, k: nat, cancelled: bool)
      requires !In(View(), t) && |plan| == 7 && |others| == 8 && Foreign(others, t)
      requires plan[0] == Begin(t, key, agency) && AllFit(t, plan)
      modifies this
      ensures 1 < k <= 7 && Final(out)
      ensures View() == Run(hash, old(View()), Weave(others, plan[..k] + if cancelled then [Abort(t)] else []))
      ensures cancelled ==> Waits(t, k - 1, Run(hash, old(View()), Weave(others, plan[..k])))
      ensures In(View(), t) && txns[t] == Txn(key, agency, out)
      ensures cancelled ==> out.Raised?
      ensures !cancelled ==> Ended(k, out)
    {
      ghost var s0 := View();
      assert plan[..1] == [Begin(t, key, agency)];
      Open(t, others, key, agency);
      out, k := Reserve(t, others, plan, s0);
      if out.Numbered? && k == 4 { out, k := Insert(t, others, plan, s0); }
      cancelled := !Final(out);
      if cancelled {
        out := Await(t, others, plan[..k], Abort(t), s0);
        return;
      }
      assert plan[..k] + [] == plan[..k];
    }

    /** A plan's statements, and what they leave of the call. */
    method Perform(t: nat, key: string, agency: string, plan: seq<Action>, others: seq<seq<Action>>)
      returns (out: Phase, k: nat, cancelled: bool)
      requires Inv(hash, View()) && !In(View(), t) && |plan| == 7 && |others| == 8 && Foreign(others, t)
      requires plan[0] == Begin(t, key, agency) && AllFit(t, plan)
      modifies this
      ensures 1 < k <= 7 && Inv(hash, View())
      ensures View() == Run(hash, old(View()), Weave(others, plan[..k] + if cancelled then [Abort(t)] else []))
      ensures cancelled ==> Waits(t, k - 1, Run(hash, old(View()), Weave(others, plan[..k])))
      ensures In(View(), t) && txns[t] == Txn(key, agency, out) && Final(out) && Returns(View(), t)
      ensures (out.Found? ==> k == 2) && (out.Created? ==> k == 7)
      ensures plan[1] == CheckKey(t) ==> FindsCommitted(hash, old(View()), others, plan, key, out)
    {
      out, k, cancelled := Follow(t, key, agency, plan, others);
      CallTells(hash, old(View()), others, plan, plan[..k] + if cancelled then [Abort(t)] else [], t, key, agency, k);
    }

    /** `create_or_get`, with whatever the other transactions do before each of its statements and a failure in
        place of statement `failAt`, if it has one, and perhaps a COMMIT whose answer is lost: exactly the run of
        its first `k` statements in order. It is rolled back besides only when the last of them still had to wait,
        and is cancelled. Unless its check fails, it returns the row of its key exactly when one is committed by
        then. */
    method CreateOrGet(t: nat, key: string, agency: string, newId: nat, failAt: nat, acked: bool,
                       others: seq<seq<Action>>)
      returns (out: Phase, k: nat, cancelled: bool)
      requires Inv(hash, View()) && !In(View(), t) && |others| == 8 && Foreign(others, t)
      modifies this
      ensures 1 < k <= 7 && Inv(hash, View())
      ensures var own := Plan(t, key, agency, newId, failAt, acked)[..k];
              && View() == Run(hash, old(View()), Weave(others, own + if cancelled then [Abort(t)] else []))
              && (cancelled ==> Waits(t, k - 1, Run(hash, old(View()), Weave(others, own))))
      ensures In(View(), t) && txns[t] == Txn(key, agency, out) && Final(out)
      ensures out.Found? ==> k == 2 && out.row in rows && out.row.key == key
      ensures out.Created? ==> k == 7 && out.row in rows && out.row.key == key && out.row.agency == agency
      ensures failAt != 1 ==>
                FindsCommitted(hash, old(View()), others, Plan(t, key, agency, newId, failAt, acked), key, out)
    {
      var plan := Plan(t, key, agency, newId, failAt, acked);
      PlanFits(t, key, agency, newId, failAt, acked);
      out, k, cancelled := Perform(t, key, agency, plan, others);
    }
  }
}
