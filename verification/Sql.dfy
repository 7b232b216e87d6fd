/**
 The part of SQL the patch and list builders emit: numbered placeholders,
 three-valued conditions, and UPDATE over a table of rows.
 */
module Sql {
  import opened Wrappers

  datatype Column =
    | Id | UserId | ContentId | TopicId | State | IsFavorite | SavedAt | ReadAt
    | Name | Description | MatchThreshold | IsActive | Embedding | UpdatedAt
    | Url | OwnerUserId | Title | FetchIntervalSeconds | Etag | LastModified | LastFetchedAt | LastError

  datatype Value = Null | IntV(i: int) | TextV(s: string) | BoolV(b: bool) | RealV(r: real) | TimeV(t: int) | VectorV(v: seq<real>)

  type Row = map<Column, Value>

  /** Rows by primary key. */
  type Table = map<int, Row>

  datatype Expr = Param(n: int) | Const(v: Value) | Now | Col(c: Column) | NullIf(a: Expr, b: Expr)

  datatype Assign = Assign(col: Column, value: Expr)

  datatype Cond =
    | Eq(a: Expr, b: Expr) | NotEq(a: Expr, b: Expr) | NotDistinct(a: Expr, b: Expr) | IsNull(a: Expr)
    | And(p: Cond, q: Cond) | Or(p: Cond, q: Cond)

  datatype Truth = True3 | False3 | Unknown

  // --- Evaluation -------------------------------------------------------------------------

  predicate InRange(e: Expr, n: int) {
    match e
    case Param(k) => 1 <= k <= n
    case NullIf(a, b) => InRange(a, n) && InRange(b, n)
    case _ => true
  }

  predicate Mentions(e: Expr, k: int) {
    match e
    case Param(n) => n == k
    case NullIf(a, b) => Mentions(a, k) || Mentions(b, k)
    case _ => false
  }

  function Eval(e: Expr, args: seq<Value>, row: Row, now: int): Value
    requires InRange(e, |args|)
  {
    match e
    case Param(k) => args[k - 1]
    case Const(v) => v
    case Now => TimeV(now)
    case Col(c) => if c in row then row[c] else Null
    case NullIf(a, b) =>
      var x, y := Eval(a, args, row, now), Eval(b, args, row, now);
      if x != Null && x == y then Null else x
  }

  predicate CondInRange(c: Cond, n: int) {
    match c
    case Eq(a, b) => InRange(a, n) && InRange(b, n)
    case NotEq(a, b) => InRange(a, n) && InRange(b, n)
    case NotDistinct(a, b) => InRange(a, n) && InRange(b, n)
    case IsNull(a) => InRange(a, n)
    case And(p, q) => CondInRange(p, n) && CondInRange(q, n)
    case Or(p, q) => CondInRange(p, n) && CondInRange(q, n)
  }

  predicate CondMentions(c: Cond, k: int) {
    match c
    case Eq(a, b) => Mentions(a, k) || Mentions(b, k)
    case NotEq(a, b) => Mentions(a, k) || Mentions(b, k)
    case NotDistinct(a, b) => Mentions(a, k) || Mentions(b, k)
    case IsNull(a) => Mentions(a, k)
    case And(p, q) => CondMentions(p, k) || CondMentions(q, k)
    case Or(p, q) => CondMentions(p, k) || CondMentions(q, k)
  }

  function Both(p: Truth, q: Truth): Truth {
    if p == False3 || q == False3 then False3 else if p == Unknown || q == Unknown then Unknown else True3
  }

  function Either(p: Truth, q: Truth): Truth {
    if p == True3 || q == True3 then True3 else if p == Unknown || q == Unknown then Unknown else False3
  }

  /** Comparisons with NULL are unknown; IS NOT DISTINCT FROM never is. */
  function Compare(equal: bool, x: Value, y: Value): Truth {
    if x == Null || y == Null then Unknown else if equal then True3 else False3
  }

  function Holds(c: Cond, args: seq<Value>, row: Row, now: int): Truth
    requires CondInRange(c, |args|)
  {
    match c
    case Eq(a, b) => var x, y := Eval(a, args, row, now), Eval(b, args, row, now); Compare(x == y, x, y)
    case NotEq(a, b) => var x, y := Eval(a, args, row, now), Eval(b, args, row, now); Compare(x != y, x, y)
    case NotDistinct(a, b) => if Eval(a, args, row, now) == Eval(b, args, row, now) then True3 else False3
    case IsNull(a) => if Eval(a, args, row, now) == Null then True3 else False3
    case And(p, q) => Both(Holds(p, args, row, now), Holds(q, args, row, now))
    case Or(p, q) => Either(Holds(p, args, row, now), Holds(q, args, row, now))
  }

  /** A comparison of two values that are not null. */
  function Truly(b: bool): Truth {
    if b then True3 else False3
  }

  // --- UPDATE -----------------------------------------------------------------------------

  predicate SetsInRange(sets: seq<Assign>, n: int) {
    forall i :: 0 <= i < |sets| ==> InRange(sets[i].value, n)
  }

  predicate DistinctColumns(sets: seq<Assign>) {
    forall i, j :: 0 <= i < j < |sets| ==> sets[i].col != sets[j].col
  }

  predicate SetsMention(sets: seq<Assign>, k: int) {
    exists i :: 0 <= i < |sets| && Mentions(sets[i].value, k)
  }

  /** Postgres and its driver refuse an empty SET, a column set twice, and arguments that do not match the placeholders. */
  predicate Acceptable(sets: seq<Assign>, where: Cond, n: nat) {
    && sets != [] && DistinctColumns(sets)
    && SetsInRange(sets, n) && CondInRange(where, n)
    && forall k :: 1 <= k <= n ==> SetsMention(sets, k) || CondMentions(where, k)
  }

  /** The row after the assignments, all of them evaluated on the row before. */
  function Assigned(sets: seq<Assign>, args: seq<Value>, row: Row, now: int): Row
    requires SetsInRange(sets, |args|)
  {
    if sets == [] then row
    else
      var last := |sets| - 1;
      Assigned(sets[..last], args, row, now)[sets[last].col := Eval(sets[last].value, args, row, now)]
  }

  datatype SqlError = BadStatement

  datatype Effect = Effect(table: Table, updated: set<int>)

  function Update(sets: seq<Assign>, where: Cond, args: seq<Value>, table: Table, now: int): Result<Effect, SqlError> {
    if !Acceptable(sets, where, |args|) then Err(BadStatement)
    else
      Ok(Effect(map k | k in table ::
                  if Holds(where, args, table[k], now) == True3 then Assigned(sets, args, table[k], now) else table[k],
                set k | k in table && Holds(where, args, table[k], now) == True3))
  }

  // --- Placeholders and their values ---------------------------------------------------------

  /** The expression with each placeholder replaced by its argument. */
  function Closed(e: Expr, args: seq<Value>): Expr
    requires InRange(e, |args|)
  {
    match e
    case Param(k) => Const(args[k - 1])
    case NullIf(a, b) => NullIf(Closed(a, args), Closed(b, args))
    case _ => e
  }

  /** What a list of clauses means once its arguments are put in. */
  function Meaning(sets: seq<Assign>, args: seq<Value>): (r: seq<Assign>)
    requires SetsInRange(sets, |args|)
    ensures |r| == |sets|
    ensures forall i :: 0 <= i < |sets| ==> r[i] == Assign(sets[i].col, Closed(sets[i].value, args))
  {
    seq(|sets|, i requires 0 <= i < |sets| => Assign(sets[i].col, Closed(sets[i].value, args)))
  }

  lemma {:induction false} ClosedIsClosed(e: Expr, args: seq<Value>)
    requires InRange(e, |args|)
    ensures InRange(Closed(e, args), 0)
  {
    match e
    case NullIf(a, b) => ClosedIsClosed(a, args); ClosedIsClosed(b, args);
    case _ =>
  }

  /** Putting arguments in first, or more arguments behind, changes no value. */
  lemma {:induction false} EvalClosed(e: Expr, args: seq<Value>, more: seq<Value>, row: Row, now: int)
    requires InRange(e, |args|)
    ensures InRange(e, |args + more|) && Closed(e, args + more) == Closed(e, args)
    ensures InRange(Closed(e, args), 0) && Eval(e, args + more, row, now) == Eval(Closed(e, args), [], row, now)
  {
    ClosedIsClosed(e, args);
    match e
    case NullIf(a, b) => EvalClosed(a, args, more, row, now); EvalClosed(b, args, more, row, now);
    case _ =>
  }

  lemma MeaningIsClosed(sets: seq<Assign>, args: seq<Value>)
    requires SetsInRange(sets, |args|)
    ensures SetsInRange(Meaning(sets, args), 0)
  {
    forall i | 0 <= i < |sets| ensures InRange(Meaning(sets, args)[i].value, 0) {
      ClosedIsClosed(sets[i].value, args);
    }
  }

  /** Executing clauses with their arguments, and any further ones behind, is executing what they mean. */
  lemma {:induction false} AssignedMeaning(sets: seq<Assign>, args: seq<Value>, more: seq<Value>, row: Row, now: int)
    requires SetsInRange(sets, |args|)
    ensures SetsInRange(sets, |args + more|) && SetsInRange(Meaning(sets, args), 0)
    ensures Assigned(sets, args + more, row, now) == Assigned(Meaning(sets, args), [], row, now)
    decreases |sets|
  {
    MeaningIsClosed(sets, args);
    forall i | 0 <= i < |sets| ensures InRange(sets[i].value, |args + more|) {
      EvalClosed(sets[i].value, args, more, row, now);
    }
    if sets != [] {
      var last := |sets| - 1;
      AssignedMeaning(sets[..last], args, more, row, now);
      EvalClosed(sets[last].value, args, more, row, now);
      assert Meaning(sets, args)[..last] == Meaning(sets[..last], args);
    }
  }

  /** One more clause executes after the others. */
  lemma AssignedMore(sets: seq<Assign>, clause: Assign, row: Row, now: int)
    requires SetsInRange(sets, 0) && InRange(clause.value, 0)
    ensures SetsInRange(sets + [clause], 0)
    ensures Assigned(sets + [clause], [], row, now) == Assigned(sets, [], row, now)[clause.col := Eval(clause.value, [], row, now)]
  {
    assert (sets + [clause])[..|sets|] == sets && (sets + [clause])[|sets|] == clause;
  }
}
