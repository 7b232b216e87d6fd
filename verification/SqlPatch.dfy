/**
 What every patch builder keeps while it appends clauses, and what the UPDATE it
 ends in does.
 */
module SqlPatch {
  import opened Wrappers
  import opened Sql

  /** The builder's state: argIdx is the number of the next placeholder, and each argument has its clause. */
  ghost predicate Building(sets: seq<Assign>, args: seq<Value>, argIdx: int) {
    && argIdx == |args| + 1
    && SetsInRange(sets, |args|)
    && forall k :: 1 <= k <= |args| ==> SetsMention(sets, k)
  }

  /** Appending a clause that uses at most the next placeholder, with its argument, extends the meaning by that clause. */
  lemma Append(sets: seq<Assign>, args: seq<Value>, argIdx: int, clause: Assign, arg: seq<Value>)
    requires Building(sets, args, argIdx)
    requires InRange(clause.value, |args| + |arg|) && |arg| <= 1 && (|arg| == 1 ==> Mentions(clause.value, argIdx))
    ensures Building(sets + [clause], args + arg, argIdx + |arg|)
    ensures Meaning(sets + [clause], args + arg)
         == Meaning(sets, args) + [Assign(clause.col, Closed(clause.value, args + arg))]
  {
    var more, with := sets + [clause], args + arg;
    forall i | 0 <= i < |more| ensures InRange(more[i].value, |with|) && (i < |sets| ==> Closed(more[i].value, with) == Closed(sets[i].value, args)) {
      if i < |sets| { EvalClosed(sets[i].value, args, arg, map[], 0); }
    }
    forall k | 1 <= k <= |with| ensures SetsMention(more, k) {
      if k <= |args| {
        assert SetsMention(sets, k);
        var i :| 0 <= i < |sets| && Mentions(sets[i].value, k);
        assert Mentions(more[i].value, k);
      } else {
        assert Mentions(more[|sets|].value, k);
      }
    }
  }

  function Columns(sets: seq<Assign>): (r: seq<Column>)
    ensures |r| == |sets| && forall i :: 0 <= i < |sets| ==> r[i] == sets[i].col
  {
    seq(|sets|, i requires 0 <= i < |sets| => sets[i].col)
  }

  /** The clause of an optional field. */
  function Field(col: Column, value: Option<Value>): seq<Assign> {
    if value.Some? then [Assign(col, Const(value.value))] else []
  }

  /** What that clause writes. */
  function Write(row: Row, col: Column, value: Option<Value>): Row {
    if value.Some? then row[col := value.value] else row
  }

  lemma AssignedField(sets: seq<Assign>, col: Column, value: Option<Value>, row: Row, now: int)
    requires SetsInRange(sets, 0)
    ensures SetsInRange(sets + Field(col, value), 0)
    ensures Assigned(sets + Field(col, value), [], row, now) == Write(Assigned(sets, [], row, now), col, value)
  {
    if value.Some? {
      AssignedMore(sets, Assign(col, Const(value.value)), row, now);
    } else {
      assert sets + Field(col, value) == sets;
    }
  }

  /** One optional field: a clause "col = $argIdx", its argument, and the next number. */
  method Put(setClauses: seq<Assign>, args: seq<Value>, argIdx: int, col: Column, value: Option<Value>)
    returns (newClauses: seq<Assign>, newArgs: seq<Value>, newIdx: int)
    requires Building(setClauses, args, argIdx)
    ensures Building(newClauses, newArgs, newIdx)
    ensures Meaning(newClauses, newArgs) == Meaning(setClauses, args) + Field(col, value)
    ensures Columns(newClauses) == Columns(setClauses) + if value.Some? then [col] else []
  {
    newClauses, newArgs, newIdx := setClauses, args, argIdx;
    if value.Some? {
      Append(setClauses, args, argIdx, Assign(col, Param(argIdx)), [value.value]);
      newClauses := newClauses + [Assign(col, Param(newIdx))];
      newArgs := newArgs + [value.value];
      newIdx := newIdx + 1;
    }
  }

  /** WHERE id = $i AND scope = $i+1, or the NULL-safe form. */
  function Where(argIdx: int, scope: Column, nullSafe: bool): Cond {
    And(Eq(Col(Id), Param(argIdx)),
        if nullSafe then NotDistinct(Col(scope), Param(argIdx + 1)) else Eq(Col(scope), Param(argIdx + 1)))
  }

  /** Every row carries its key. */
  predicate Keyed(table: Table) {
    forall k :: k in table ==> Id in table[k] && table[k][Id] == IntV(k)
  }

  predicate InScope(row: Row, scope: Column, owner: Value, nullSafe: bool) {
    var has := if scope in row then row[scope] else Null;
    has == owner && (nullSafe || owner != Null)
  }

  /** Patch the one row with that id if it belongs to the scope. */
  function Patched(table: Table, id: int, scope: Column, owner: Value, nullSafe: bool, patch: seq<Assign>, now: int): Table
    requires SetsInRange(patch, 0)
  {
    if id in table && InScope(table[id], scope, owner, nullSafe)
    then table[id := Assigned(patch, [], table[id], now)]
    else table
  }

  /** The WHERE clause picks exactly the addressed row in the given scope. */
  lemma WhereSelects(args: seq<Value>, argIdx: int, scope: Column, nullSafe: bool, k: int, row: Row, id: int, owner: Value, now: int)
    requires argIdx == |args| + 1 && Id in row && row[Id] == IntV(k)
    ensures var all := args + [IntV(id), owner];
            && CondInRange(Where(argIdx, scope, nullSafe), |all|)
            && (Holds(Where(argIdx, scope, nullSafe), all, row, now) == True3
                <==> k == id && InScope(row, scope, owner, nullSafe))
  {
    var all := args + [IntV(id), owner];
    assert all[argIdx - 1] == IntV(id) && all[argIdx] == owner;
    assert Eval(Col(Id), all, row, now) == IntV(k);
  }

  lemma StatementAccepted(sets: seq<Assign>, args: seq<Value>, argIdx: int, scope: Column, nullSafe: bool)
    requires Building(sets, args, argIdx) && sets != [] && DistinctColumns(sets)
    ensures Acceptable(sets, Where(argIdx, scope, nullSafe), |args| + 2)
  {
    forall i | 0 <= i < |sets| ensures InRange(sets[i].value, |args| + 2) {
      EvalClosed(sets[i].value, args, [Null, Null], map[], 0);
    }
    var where := Where(argIdx, scope, nullSafe);
    forall k | 1 <= k <= |args| + 2 ensures SetsMention(sets, k) || CondMentions(where, k) {
      if k > |args| {
        assert k == argIdx || k == argIdx + 1;
        assert Mentions(Param(argIdx), argIdx) && Mentions(Param(argIdx + 1), argIdx + 1);
      }
    }
  }

  /**
   The emitted statement is accepted, and on any table it changes exactly the addressed row in the
   given scope, as the patch its clauses mean would.
   */
  lemma UpdateMeansPatch(sets: seq<Assign>, args: seq<Value>, argIdx: int, scope: Column, nullSafe: bool,
                         table: Table, id: int, owner: Value, now: int)
    requires Building(sets, args, argIdx) && sets != [] && DistinctColumns(sets) && Keyed(table)
    ensures SetsInRange(Meaning(sets, args), 0)
    ensures Update(sets, Where(argIdx, scope, nullSafe), args + [IntV(id), owner], table, now)
         == Ok(Effect(Patched(table, id, scope, owner, nullSafe, Meaning(sets, args), now),
                      if id in table && InScope(table[id], scope, owner, nullSafe) then {id} else {}))
  {
    var where, all := Where(argIdx, scope, nullSafe), args + [IntV(id), owner];
    MeaningIsClosed(sets, args);
    StatementAccepted(sets, args, argIdx, scope, nullSafe);
    var got := Update(sets, where, all, table, now).value;
    var want := Patched(table, id, scope, owner, nullSafe, Meaning(sets, args), now);
    forall k | k in table
      ensures k in want && got.table[k] == want[k]
      ensures k in got.updated <==> k == id && InScope(table[id], scope, owner, nullSafe)
    {
      WhereSelects(args, argIdx, scope, nullSafe, k, table[k], id, owner, now);
      AssignedMeaning(sets, args, [IntV(id), owner], table[k], now);
    }
    assert got.table.Keys == table.Keys && want.Keys == table.Keys;
    assert got.table == want;
    if id in table && InScope(table[id], scope, owner, nullSafe) {
      assert forall k :: k in got.updated <==> k == id;
      assert got.updated == {id};
    } else {
      assert forall k :: k !in got.updated;
      assert got.updated == {};
    }
  }

  // --- Over encoded records -------------------------------------------------------------------

  /** A table of records, written out as rows. */
  function RowsOf<T>(records: map<int, T>, row: (int, T) -> Row): Table {
    map k | k in records :: row(k, records[k])
  }

  ghost predicate RowsKeyed<T(!new)>(row: (int, T) -> Row) {
    forall k, t :: Id in row(k, t) && row(k, t)[Id] == IntV(k)
  }

  /** The statement on the rows is the patch on the records. */
  lemma UpdateRecords<T(!new)>(sets: seq<Assign>, args: seq<Value>, argIdx: int, scope: Column, nullSafe: bool,
                               records: map<int, T>, row: (int, T) -> Row, id: int, owner: Value, mine: bool, patched: T, now: int)
    requires Building(sets, args, argIdx) && sets != [] && DistinctColumns(sets) && RowsKeyed(row)
    requires mine <==> id in records && InScope(row(id, records[id]), scope, owner, nullSafe)
    requires SetsInRange(Meaning(sets, args), 0)
    requires mine ==> Assigned(Meaning(sets, args), [], row(id, records[id]), now) == row(id, patched)
    ensures Update(sets, Where(argIdx, scope, nullSafe), args + [IntV(id), owner], RowsOf(records, row), now)
         == Ok(Effect(RowsOf(if mine then records[id := patched] else records, row), if mine then {id} else {}))
  {
    var table := RowsOf(records, row);
    UpdateMeansPatch(sets, args, argIdx, scope, nullSafe, table, id, owner, now);
    if mine {
      assert RowsOf(records[id := patched], row) == table[id := row(id, patched)];
    }
  }
}
