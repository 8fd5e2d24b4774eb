/**
 Rows of a flat, left-deep join list under three-valued logic: the meaning that moving a part of
 the WHERE clause to an ON clause has to preserve.
 */
module Joins {
  import opened Common

  datatype Value = Null | Bool(b: bool) | Data(n: int)

  type Tuple = seq<Value>

  /** What a row holds for one table: a tuple of the table, or nulls supplied by an outer join. */
  datatype Slot = NullRow | Row(t: Tuple)

  /** A row of a join, and the rows of enclosing queries, by table identifier. */
  type Env = map<int, Slot>

  /** A condition.  Every operator other than AND is a function of its operands. */
  datatype Expr =
    | Column(table: int, col: nat)
    | Literal(v: Value)
    | And(l: Expr, r: Expr)
    | Apply(op: nat, args: seq<Expr>)

  type Meaning = (nat, seq<Value>) -> Value

  function AndValue(a: Value, b: Value): Value {
    if a == Bool(false) || b == Bool(false) then Bool(false)
    else if a == Bool(true) && b == Bool(true) then Bool(true)
    else Null
  }

  /** AND is commutative and associative, with true as its unit and false absorbing everything. */
  lemma AndLaws(a: Value, b: Value, c: Value)
    ensures AndValue(a, b) == AndValue(b, a) && AndValue(AndValue(a, b), c) == AndValue(a, AndValue(b, c))
    ensures AndValue(a, Bool(false)) == Bool(false)
    ensures !a.Data? ==> AndValue(a, Bool(true)) == a
    ensures AndValue(Null, Null) == Null
  {
  }

  function Lookup(env: Env, table: int, col: nat): Value {
    if table in env && env[table].Row? && col < |env[table].t| then env[table].t[col] else Null
  }

  function Eval(f: Meaning, x: Expr, env: Env): Value {
    match x
    case Column(t, k) => Lookup(env, t, k)
    case Literal(v) => v
    case And(l, r) => AndValue(Eval(f, l, env), Eval(f, r, env))
    case Apply(op, args) => f(op, EvalAll(f, args, env))
  }

  function EvalAll(f: Meaning, xs: seq<Expr>, env: Env): seq<Value> {
    if xs == [] then [] else [Eval(f, xs[0], env)] + EvalAll(f, xs[1..], env)
  }

  function Max(a: int, b: int): int { if a < b then b else a }

  /** One more than the largest table identifier that the condition refers to, 0 if none. */
  function MaxUniqueId(x: Expr): int {
    match x
    case Column(t, _) => Max(0, t + 1)
    case Literal(_) => 0
    case And(l, r) => Max(MaxUniqueId(l), MaxUniqueId(r))
    case Apply(_, args) => MaxUniqueIdAll(args)
  }

  function MaxUniqueIdAll(xs: seq<Expr>): int {
    if xs == [] then 0 else Max(MaxUniqueId(xs[0]), MaxUniqueIdAll(xs[1..]))
  }

  predicate Holds(f: Meaning, x: Expr, env: Env) {
    Eval(f, x, env) == Bool(true)
  }

  /** A missing condition holds. */
  predicate HoldsOpt(f: Meaning, x: Option<Expr>, env: Env) {
    x.Some? ==> Holds(f, x.value, env)
  }

  // ----- rows

  datatype JoinType = NoJoin | NaturalJoin | CrossJoin | InnerJoin | RightJoin | LeftJoin | FullJoin

  predicate IsOuterJoin(t: JoinType) { t.LeftJoin? || t.RightJoin? || t.FullJoin? }

  datatype Join = Join(id: int, ty: JoinType, condition: Option<Expr>, maxUniqueId: int)

  type Database = int -> seq<Tuple>

  function Filter(f: Meaning, x: Option<Expr>, rows: seq<Env>): seq<Env> {
    if rows == [] then []
    else (if HoldsOpt(f, x, rows[0]) then [rows[0]] else []) + Filter(f, x, rows[1..])
  }

  /** The rows that one left row forms with the tuples of a table. */
  function Matches(f: Meaning, j: Join, left: Env, table: seq<Tuple>): seq<Env> {
    if table == [] then []
    else
      var row := left[j.id := Row(table[0])];
      (if HoldsOpt(f, j.condition, row) then [row] else []) + Matches(f, j, left, table[1..])
  }

  /** As above; LEFT and FULL joins keep a left row that matches nothing. */
  function Extend(f: Meaning, j: Join, left: Env, table: seq<Tuple>): seq<Env> {
    var rows := Matches(f, j, left, table);
    if rows == [] && (j.ty.LeftJoin? || j.ty.FullJoin?) then [left[j.id := NullRow]] else rows
  }

  function ExtendAll(f: Meaning, j: Join, lefts: seq<Env>, table: seq<Tuple>): seq<Env> {
    if lefts == [] then [] else Extend(f, j, lefts[0], table) + ExtendAll(f, j, lefts[1..], table)
  }

  predicate MatchesSome(f: Meaning, j: Join, lefts: seq<Env>, t: Tuple) {
    exists i :: 0 <= i < |lefts| && HoldsOpt(f, j.condition, lefts[i][j.id := Row(t)])
  }

  /** RIGHT and FULL joins keep the tuples of the table that match no left row. */
  function Unmatched(f: Meaning, j: Join, lefts: seq<Env>, nulls: Env, table: seq<Tuple>): seq<Env> {
    if table == [] then []
    else (if MatchesSome(f, j, lefts, table[0]) then [] else [nulls[j.id := Row(table[0])]])
         + Unmatched(f, j, lefts, nulls, table[1..])
  }

  function NullRows(outer: Env, joins: seq<Join>): Env {
    if joins == [] then outer else NullRows(outer, joins[..|joins| - 1])[joins[|joins| - 1].id := NullRow]
  }

  /** The rows of a join list, in order, within the row `outer` of the enclosing queries. */
  function Rows(f: Meaning, db: Database, outer: Env, joins: seq<Join>): seq<Env> {
    if joins == [] then [outer]
    else
      var n := |joins| - 1;
      var j, lefts := joins[n], Rows(f, db, outer, joins[..n]);
      ExtendAll(f, j, lefts, db(j.id))
      + (if j.ty.RightJoin? || j.ty.FullJoin?
         then Unmatched(f, j, lefts, NullRows(outer, joins[..n]), db(j.id)) else [])
  }

  /** The rows of a query: those of the join list for which the WHERE clause holds. */
  function Result(f: Meaning, db: Database, outer: Env, joins: seq<Join>, where: Option<Expr>): seq<Env> {
    Filter(f, where, Rows(f, db, outer, joins))
  }

  // ----- a condition depends only on the tables it refers to

  ghost predicate AgreeBelow(a: Env, b: Env, n: int) {
    forall t, k: nat :: t < n ==> Lookup(a, t, k) == Lookup(b, t, k)
  }

  lemma {:induction false} EvalDepends(f: Meaning, x: Expr, a: Env, b: Env)
    requires AgreeBelow(a, b, MaxUniqueId(x))
    ensures Eval(f, x, a) == Eval(f, x, b)
  {
    match x
    case Column(_, _) =>
    case Literal(_) =>
    case And(l, r) =>
      EvalDepends(f, l, a, b);
      EvalDepends(f, r, a, b);
    case Apply(_, args) => EvalAllDepends(f, args, a, b);
  }

  lemma {:induction false} EvalAllDepends(f: Meaning, xs: seq<Expr>, a: Env, b: Env)
    requires AgreeBelow(a, b, MaxUniqueIdAll(xs))
    ensures EvalAll(f, xs, a) == EvalAll(f, xs, b)
  {
    if xs != [] {
      EvalDepends(f, xs[0], a, b);
      EvalAllDepends(f, xs[1..], a, b);
    }
  }

  /** Adding a later table to a row does not change the value of the condition. */
  lemma LaterTable(f: Meaning, x: Expr, row: Env, id: int, slot: Slot)
    requires MaxUniqueId(x) <= id
    ensures Holds(f, x, row[id := slot]) == Holds(f, x, row)
  {
    EvalDepends(f, x, row, row[id := slot]);
  }

  // ----- filtering commutes with the joins that keep left rows apart

  lemma Cons<T>(a: seq<T>, b: seq<T>)
    requires a != []
    ensures a + b != [] && (a + b)[0] == a[0] && (a + b)[1..] == a[1..] + b
  {
  }

  lemma {:induction false} FilterConcat(f: Meaning, x: Option<Expr>, a: seq<Env>, b: seq<Env>)
    ensures Filter(f, x, a + b) == Filter(f, x, a) + Filter(f, x, b)
  {
    hide HoldsOpt;
    if a == [] {
      assert a + b == b;
    } else {
      FilterConcat(f, x, a[1..], b);
      Cons(a, b);
      var head := if HoldsOpt(f, x, a[0]) then [a[0]] else [];
      Assoc(head, Filter(f, x, a[1..]), Filter(f, x, b));
    }
  }

  /** All rows that one left row yields agree with it on an earlier condition. */
  lemma {:induction false} MatchesFilter(f: Meaning, p: Expr, j: Join, left: Env, table: seq<Tuple>)
    requires MaxUniqueId(p) <= j.id
    ensures Filter(f, Some(p), Matches(f, j, left, table)) ==
            if Holds(f, p, left) then Matches(f, j, left, table) else []
  {
    if table != [] {
      LaterTable(f, p, left, j.id, Row(table[0]));
      MatchesFilter(f, p, j, left, table[1..]);
      var row := left[j.id := Row(table[0])];
      var head := if HoldsOpt(f, j.condition, row) then [row] else [];
      FilterConcat(f, Some(p), head, Matches(f, j, left, table[1..]));
      assert Filter(f, Some(p), head) == if Holds(f, p, left) then head else [];
    }
  }

  lemma ExtendFilter(f: Meaning, p: Expr, j: Join, left: Env, table: seq<Tuple>)
    requires MaxUniqueId(p) <= j.id
    ensures Filter(f, Some(p), Extend(f, j, left, table)) == if Holds(f, p, left) then Extend(f, j, left, table) else []
  {
    MatchesFilter(f, p, j, left, table);
    LaterTable(f, p, left, j.id, NullRow);
  }

  /** Filtering before a join that is neither RIGHT nor FULL is filtering after it. */
  lemma {:induction false} ExtendAllFilter(f: Meaning, p: Expr, j: Join, lefts: seq<Env>, table: seq<Tuple>)
    requires MaxUniqueId(p) <= j.id
    ensures ExtendAll(f, j, Filter(f, Some(p), lefts), table) == Filter(f, Some(p), ExtendAll(f, j, lefts, table))
  {
    if lefts != [] {
      ExtendFilter(f, p, j, lefts[0], table);
      ExtendAllFilter(f, p, j, lefts[1..], table);
      FilterConcat(f, Some(p), Extend(f, j, lefts[0], table), ExtendAll(f, j, lefts[1..], table));
      var rest := Filter(f, Some(p), lefts[1..]);
      if Holds(f, p, lefts[0]) {
        assert Filter(f, Some(p), lefts) == [lefts[0]] + rest;
        assert ([lefts[0]] + rest)[1..] == rest;
      } else {
        assert Filter(f, Some(p), lefts) == rest;
        assert [] + ExtendAll(f, j, rest, table) == ExtendAll(f, j, rest, table);
      }
    }
  }

  /** The ON clause of a join with `p` added to it. */
  function WithCondition(j: Join, p: Expr): Join {
    j.(condition := Some(if j.condition.Some? then And(j.condition.value, p) else p))
  }

  lemma HoldsMore(f: Meaning, p: Expr, j: Join, row: Env)
    ensures HoldsOpt(f, WithCondition(j, p).condition, row) <==> HoldsOpt(f, j.condition, row) && Holds(f, p, row)
    ensures WithCondition(j, p).id == j.id
  {
  }

  lemma FilterOne(f: Meaning, p: Expr, row: Env)
    ensures Filter(f, Some(p), [row]) == (if Holds(f, p, row) then [row] else []) && Filter(f, Some(p), []) == []
  {
    assert [row][1..] == [];
  }

  lemma {:induction false} MatchesMore(f: Meaning, p: Expr, j: Join, left: Env, table: seq<Tuple>)
    ensures Matches(f, WithCondition(j, p), left, table) == Filter(f, Some(p), Matches(f, j, left, table))
  {
    hide HoldsOpt, Holds, WithCondition;
    if table != [] {
      MatchesMore(f, p, j, left, table[1..]);
      var row := left[j.id := Row(table[0])];
      var head := if HoldsOpt(f, j.condition, row) then [row] else [];
      HoldsMore(f, p, j, row);
      FilterOne(f, p, row);
      FilterConcat(f, Some(p), head, Matches(f, j, left, table[1..]));
    } else {
      FilterOne(f, p, left);
    }
  }

  /** On a join that is not outer, adding `p` to the ON clause is filtering by `p`. */
  lemma {:induction false} ExtendAllMore(f: Meaning, p: Expr, j: Join, lefts: seq<Env>, table: seq<Tuple>)
    requires !IsOuterJoin(j.ty)
    ensures ExtendAll(f, WithCondition(j, p), lefts, table) == Filter(f, Some(p), ExtendAll(f, j, lefts, table))
  {
    if lefts != [] {
      MatchesMore(f, p, j, lefts[0], table);
      ExtendAllMore(f, p, j, lefts[1..], table);
      FilterConcat(f, Some(p), Extend(f, j, lefts[0], table), ExtendAll(f, j, lefts[1..], table));
    }
  }

  /** Identifiers were handed out from left to right, and `maxUniqueId` of a join is above the
      identifier of its own table and not above those of later tables. */
  ghost predicate Numbered(joins: seq<Join>) {
    forall i, j :: 0 <= i < j < |joins| ==> joins[i].maxUniqueId <= joins[j].id
  }

  ghost predicate NoRightOrFull(joins: seq<Join>) {
    forall i :: 0 <= i < |joins| ==> !joins[i].ty.RightJoin? && !joins[i].ty.FullJoin?
  }

  /** The last join extends the rows of the joins before it. */
  lemma LastJoin(f: Meaning, db: Database, outer: Env, joins: seq<Join>)
    requires joins != [] && !joins[|joins| - 1].ty.RightJoin? && !joins[|joins| - 1].ty.FullJoin?
    ensures var n := |joins| - 1;
            Rows(f, db, outer, joins) == ExtendAll(f, joins[n], Rows(f, db, outer, joins[..n]), db(joins[n].id))
  {
  }

  /** Adding a condition on earlier tables to the ON clause of join `k` filters the final rows by
      it, if no join is RIGHT or FULL and join `k` is not outer. */
  lemma {:induction false} PushFilters(f: Meaning, db: Database, outer: Env, joins: seq<Join>, k: nat, p: Expr)
    requires k < |joins| && Numbered(joins) && NoRightOrFull(joins) && !IsOuterJoin(joins[k].ty)
    requires MaxUniqueId(p) <= joins[k].maxUniqueId
    ensures Rows(f, db, outer, joins[k := WithCondition(joins[k], p)]) == Filter(f, Some(p), Rows(f, db, outer, joins))
    decreases |joins|
  {
    hide Rows, ExtendAll, Filter, Eval, MaxUniqueId;
    var n := |joins| - 1;
    var joins' := joins[k := WithCondition(joins[k], p)];
    LastJoin(f, db, outer, joins);
    LastJoin(f, db, outer, joins');
    var lefts := Rows(f, db, outer, joins[..n]);
    if k == n {
      assert joins'[..n] == joins[..n];
      ExtendAllMore(f, p, joins[n], lefts, db(joins[n].id));
    } else {
      assert joins'[..n] == joins[..n][k := WithCondition(joins[k], p)];
      PushFilters(f, db, outer, joins[..n], k, p);
      ExtendAllFilter(f, p, joins[n], lefts, db(joins[n].id));
    }
  }
}
