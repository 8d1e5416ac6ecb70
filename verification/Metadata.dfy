/** `DocumentRepository.update_document_metadata`: an UPDATE statement assembled column by column, with numbered
    placeholders into a growing list of parameters. */
module Metadata {

  import opened Wrappers

  type Row = map<string, int>

  /** One assignment of the SET list: a placeholder `$index`, or `now()`. */
  datatype Assignment = Parameter(column: string, index: nat) | Now(column: string)

  /** The optional arguments in the order in which the statement takes them up. */
  type Arguments = seq<(string, Option<int>)>

  const COLUMNS := ["kafka_topic", "kafka_partition", "kafka_offset", "worker_id", "status", "processing_started_at",
                    "processing_completed_at", "processing_duration_ms", "retry_count", "error_code"]

  /** The row the database makes of `row` when it runs the SET list. */
  function Executed(row: Row, now: int, sets: seq<Assignment>, params: seq<int>): Row
    requires WellFormed(sets, params)
  {
    if sets == [] then row
    else
      var before := Executed(row, now, sets[..|sets| - 1], params);
      match sets[|sets| - 1]
      case Parameter(column, index) => before[column := params[index - 1]]
      case Now(column) => before[column := now]
  }

  /** Every placeholder has its parameter. */
  predicate WellFormed(sets: seq<Assignment>, params: seq<int>) {
    forall i :: 0 <= i < |sets| && sets[i].Parameter? ==> 0 < sets[i].index <= |params|
  }

  /** The row with exactly the given arguments replaced. */
  function Patched(row: Row, args: Arguments): Row {
    if args == [] then row
    else
      var (column, value) := args[|args| - 1];
      var before := Patched(row, args[..|args| - 1]);
      if value.Some? then before[column := value.value] else before
  }

  /** With distinct columns, a patched row has each given value in its column and the old one everywhere else. */
  lemma {:induction false} PatchedColumn(row: Row, args: Arguments, i: nat)
    requires i < |args| && forall j, k :: 0 <= j < k < |args| ==> args[j].0 != args[k].0
    ensures args[i].1.Some? ==> args[i].0 in Patched(row, args) && Patched(row, args)[args[i].0] == args[i].1.value
    ensures args[i].1.None? ==> (args[i].0 in Patched(row, args) <==> args[i].0 in row)
    ensures args[i].1.None? && args[i].0 in row ==> Patched(row, args)[args[i].0] == row[args[i].0]
  {
    var n := |args| - 1;
    if i < n {
      PatchedColumn(row, args[..n], i);
    } else {
      PatchedElsewhere(row, args[..n], args[n].0);
    }
  }

  lemma {:induction false} PatchedElsewhere(row: Row, args: Arguments, column: string)
    requires forall i :: 0 <= i < |args| ==> args[i].0 != column
    ensures column in Patched(row, args) <==> column in row
    ensures column in row ==> Patched(row, args)[column] == row[column]
  {
    if args != [] { PatchedElsewhere(row, args[..|args| - 1], column); }
  }

  /** Later parameters do not disturb the placeholders already numbered. */
  lemma {:induction false} MoreParameters(row: Row, now: int, sets: seq<Assignment>, params: seq<int>, value: int)
    requires WellFormed(sets, params)
    ensures WellFormed(sets, params + [value])
    ensures Executed(row, now, sets, params + [value]) == Executed(row, now, sets, params)
  {
    if sets != [] { MoreParameters(row, now, sets[..|sets| - 1], params, value); }
  }

  /** The SET list and the parameters do to every row what the arguments taken up so far say, besides `updated_at`. */
  ghost predicate Does(sets: seq<Assignment>, params: seq<int>, args: Arguments) {
    && WellFormed(sets, params)
    && forall row: Row, now: int :: Executed(row, now, sets, params) == Patched(row["updated_at" := now], args)
  }

  lemma {:induction false} OneMore(sets: seq<Assignment>, params: seq<int>, args: Arguments, column: string,
                                   value: Option<int>)
    requires Does(sets, params, args)
    ensures value.None? ==> Does(sets, params, args + [(column, value)])
    ensures value.Some? ==>
              Does(sets + [Parameter(column, |params| + 1)], params + [value.value], args + [(column, value)])
  {
    var args' := args + [(column, value)];
    assert args'[..|args|] == args;
    if value.Some? {
      var sets', params' := sets + [Parameter(column, |params| + 1)], params + [value.value];
      assert sets'[..|sets|] == sets;
      forall row: Row, now: int ensures Executed(row, now, sets', params') == Patched(row["updated_at" := now], args') {
        MoreParameters(row, now, sets, params, value.value);
        assert Executed(row, now, sets, params) == Patched(row["updated_at" := now], args);
      }
    } else {
      forall row: Row, now: int ensures Executed(row, now, sets, params) == Patched(row["updated_at" := now], args') {
        assert Executed(row, now, sets, params) == Patched(row["updated_at" := now], args);
      }
    }
  }

  lemma OnlyNow(document: int)
    ensures Does([Now("updated_at")], [document], [])
  {
    assert [Now("updated_at")][..0] == [];
  }

  /** The statement under construction. */
  class UpdateStatement {
    var sets: seq<Assignment>
    var params: seq<int>
    var index: nat
    ghost var taken: Arguments

    ghost predicate Valid() reads this { index == |params| && Does(sets, params, taken) }

    constructor (document: int)
      ensures Valid() && taken == [] && params == [document]
    {
      sets, params, index, taken := [Now("updated_at")], [document], 1, [];
      OnlyNow(document);
    }

    /** `if value is not None: index += 1; params.append(value); update_sql.append(...)`. */
    method Add(column: string, value: Option<int>)
      requires Valid()
      modifies this
      ensures Valid() && taken == old(taken) + [(column, value)]
      ensures old(params) <= params && |params| - |old(params)| == if value.Some? then 1 else 0
    {
      OneMore(sets, params, taken, column, value);
      taken := taken + [(column, value)];
      if value.Some? {
        index := index + 1;
        params := params + [value.value];
        sets := sets + [Parameter(column, index)];
      }
    }
  }

  /** The arguments under their columns. */
  function Given(values: seq<Option<int>>): Arguments
    requires |values| == |COLUMNS|
  {
    seq(|COLUMNS|, i requires 0 <= i < |COLUMNS| => (COLUMNS[i], values[i]))
  }

  lemma ColumnsDiffer(i: nat, j: nat)
    requires i < j < |COLUMNS|
    ensures COLUMNS[i] != COLUMNS[j]
  {}

  lemma NoColumnIsTheClock(i: nat)
    requires i < |COLUMNS|
    ensures COLUMNS[i] != "updated_at"
  {}

  /** What `e` has in `column` is what `row` has there. */
  predicate Same(row: Row, e: Row, column: string) {
    (column in e <==> column in row) && (column in row ==> e[column] == row[column])
  }

  /** The executed row, column by column: the given values, the clock, and everything else as it was. */
  ghost predicate Updates(row: Row, e: Row, now: int, values: seq<Option<int>>)
    requires |values| == |COLUMNS|
  {
    && (forall i :: 0 <= i < |COLUMNS| ==>
          if values[i].Some? then COLUMNS[i] in e && e[COLUMNS[i]] == values[i].value else Same(row, e, COLUMNS[i]))
    && "updated_at" in e && e["updated_at"] == now
    && (forall column :: column !in COLUMNS && column != "updated_at" ==> Same(row, e, column))
  }

  /** Patching touches exactly the given columns. */
  lemma {:induction false} PatchedUpdates(row: Row, now: int, values: seq<Option<int>>)
    requires |values| == |COLUMNS|
    ensures Updates(row, Patched(row["updated_at" := now], Given(values)), now, values)
  {
    var args, stamped := Given(values), row["updated_at" := now];
    forall j, k | 0 <= j < k < |args| ensures args[j].0 != args[k].0 { ColumnsDiffer(j, k); }
    forall i | 0 <= i < |COLUMNS|
      ensures var e := Patched(stamped, args);
              if values[i].Some? then COLUMNS[i] in e && e[COLUMNS[i]] == values[i].value else Same(row, e, COLUMNS[i])
    {
      PatchedColumn(stamped, args, i);
      NoColumnIsTheClock(i);
      assert args[i] == (COLUMNS[i], values[i]);
    }
    var e := Patched(stamped, args);
    forall column | column !in COLUMNS ensures Same(stamped, e, column) {
      forall i | 0 <= i < |args| ensures args[i].0 != column { assert COLUMNS[i] in COLUMNS; }
      PatchedElsewhere(stamped, args, column);
    }
    forall i | 0 <= i < |COLUMNS| ensures COLUMNS[i] != "updated_at" { NoColumnIsTheClock(i); }
    assert Same(stamped, e, "updated_at");
    forall column | column !in COLUMNS && column != "updated_at" ensures Same(row, e, column) {
      assert Same(stamped, e, column);
    }
  }

  /** `update_document_metadata`: whatever arguments are given, running the statement gives every row exactly those
      values in exactly their columns, the clock in `updated_at`, and leaves every other column alone; `$1` is the
      document. */
  method UpdateDocumentMetadata(document: int, values: seq<Option<int>>)
    returns (sets: seq<Assignment>, params: seq<int>)
    requires |values| == |COLUMNS|
    ensures params != [] && params[0] == document && WellFormed(sets, params)
    ensures forall row: Row, now: int :: Updates(row, Executed(row, now, sets, params), now, values)
  {
    var statement := new UpdateStatement(document);
    for i := 0 to |COLUMNS|
      invariant statement.Valid() && fresh(statement) && [document] <= statement.params
      invariant statement.taken == Given(values)[..i]
    {
      assert Given(values)[..i + 1] == Given(values)[..i] + [(COLUMNS[i], values[i])];
      statement.Add(COLUMNS[i], values[i]);
    }
    sets, params := statement.sets, statement.params;
    assert Given(values)[..|COLUMNS|] == Given(values);
    forall row: Row, now: int ensures Updates(row, Executed(row, now, sets, params), now, values) {
      assert Executed(row, now, sets, params) == Patched(row["updated_at" := now], Given(values));
      PatchedUpdates(row, now, values);
    }
  }
}
