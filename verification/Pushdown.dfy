/**
 Moving conjuncts of the WHERE clause of a query to the ON clauses of its joins.
 */
module Pushdown {
  import opened Common
  import opened Joins

  /** A WHERE clause: a tree of ANDs over conjuncts.  Each conjunct carries the bound on table
      identifiers that was noted when its columns were resolved. */
  datatype Where = Conj(l: Where, r: Where) | Part(x: Expr, maxUniqueId: int)

  function WhereExpr(p: Where): Expr {
    match p
    case Conj(l, r) => And(WhereExpr(l), WhereExpr(r))
    case Part(x, _) => x
  }

  function WhereOpt(p: Option<Where>): Option<Expr> {
    if p.Some? then Some(WhereExpr(p.value)) else None
  }

  /** The noted bound is an exclusive upper bound on the identifiers that a conjunct refers to. */
  ghost predicate Bounded(p: Where) {
    match p
    case Conj(l, r) => Bounded(l) && Bounded(r)
    case Part(x, n) => MaxUniqueId(x) <= n
  }

  /** The join whose ON clause inherits a conjunct: the first one that is neither outer nor CROSS,
      is not followed by a CROSS join, is not the last one and knows all tables involved. */
  predicate Inherits(joins: seq<Join>, i: nat, bound: int)
    requires i < |joins|
  {
    && !IsOuterJoin(joins[i].ty) && !joins[i].ty.CrossJoin?
    && i + 1 < |joins| && !joins[i + 1].ty.CrossJoin?
    && bound <= joins[i].maxUniqueId
  }

  /** Join `k` is the first one that inherits. */
  predicate First(joins: seq<Join>, k: nat, bound: int)
    requires k < |joins|
  {
    Inherits(joins, k, bound) && forall i: nat :: i < k ==> !Inherits(joins, i, bound)
  }

  ghost predicate AllHold(f: Meaning, moved: seq<Expr>, env: Env) {
    forall i :: 0 <= i < |moved| ==> Holds(f, moved[i], env)
  }

  ghost function FilterAll(f: Meaning, moved: seq<Expr>, rows: seq<Env>): seq<Env> {
    if moved == [] then rows else Filter(f, Some(moved[|moved| - 1]), FilterAll(f, moved[..|moved| - 1], rows))
  }

  /** The join list `to` is `from` with the conditions `moved` added to ON clauses: for every
      database its rows are those of `from` for which all of them hold. */
  ghost predicate Narrows(from: seq<Join>, to: seq<Join>, moved: seq<Expr>) {
    && |to| == |from|
    && (forall i :: 0 <= i < |from| ==> to[i] == from[i].(condition := to[i].condition))
    && (forall f: Meaning, db: Database, outer: Env {:trigger Rows(f, db, outer, to)} ::
          Rows(f, db, outer, to) == FilterAll(f, moved, Rows(f, db, outer, from)))
  }

  /** On every row the old WHERE clause holds exactly if the new one and the moved parts do. */
  ghost predicate Splits(from: Option<Expr>, to: Option<Expr>, moved: seq<Expr>) {
    forall f: Meaning, env: Env {:trigger HoldsOpt(f, to, env)} {:trigger HoldsOpt(f, from, env)} ::
      HoldsOpt(f, from, env) <==> HoldsOpt(f, to, env) && AllHold(f, moved, env)
  }

  lemma {:induction false} FilterAllMembers(f: Meaning, moved: seq<Expr>, where: Option<Expr>, to: Option<Expr>,
      rows: seq<Env>)
    requires forall env {:trigger HoldsOpt(f, where, env)} :: HoldsOpt(f, where, env) <==>
      HoldsOpt(f, to, env) && AllHold(f, moved, env)
    ensures Filter(f, to, FilterAll(f, moved, rows)) == Filter(f, where, rows)
    decreases |moved|
  {
    if moved == [] {
      SameFilter(f, where, to, rows);
    } else {
      var init, last := moved[..|moved| - 1], moved[|moved| - 1];
      var both := Some(if to.Some? then And(to.value, last) else last);
      forall env ensures HoldsOpt(f, where, env) <==> HoldsOpt(f, both, env) && AllHold(f, init, env) {
        assert HoldsOpt(f, where, env) <==> HoldsOpt(f, to, env) && AllHold(f, moved, env);
        assert moved == init + [last];
      }
      FilterAllMembers(f, init, where, both, rows);
      FilterTwice(f, to, last, FilterAll(f, init, rows));
    }
  }

  lemma {:induction false} SameFilter(f: Meaning, a: Option<Expr>, b: Option<Expr>, rows: seq<Env>)
    requires forall env {:trigger HoldsOpt(f, a, env)} :: HoldsOpt(f, a, env) <==> HoldsOpt(f, b, env)
    ensures Filter(f, a, rows) == Filter(f, b, rows)
  {
    if rows != [] {
      SameFilter(f, a, b, rows[1..]);
    }
  }

  lemma {:induction false} FilterTwice(f: Meaning, to: Option<Expr>, last: Expr, rows: seq<Env>)
    ensures Filter(f, to, Filter(f, Some(last), rows)) ==
            Filter(f, Some(if to.Some? then And(to.value, last) else last), rows)
  {
    if rows != [] {
      FilterTwice(f, to, last, rows[1..]);
      FilterConcat(f, to, if Holds(f, last, rows[0]) then [rows[0]] else [], Filter(f, Some(last), rows[1..]));
    }
  }

  /** A query means the same if its join list narrows by what its WHERE clause lost. */
  lemma SameResult(f: Meaning, db: Database, outer: Env, from: seq<Join>, to: seq<Join>, where: Option<Expr>,
      where': Option<Expr>, moved: seq<Expr>)
    requires Narrows(from, to, moved) && Splits(where, where', moved)
    ensures Result(f, db, outer, to, where') == Result(f, db, outer, from, where)
  {
    FilterAllMembers(f, moved, where, where', Rows(f, db, outer, from));
  }

  lemma {:induction false} FilterAllConcat(f: Meaning, a: seq<Expr>, b: seq<Expr>, rows: seq<Env>)
    ensures FilterAll(f, a + b, rows) == FilterAll(f, b, FilterAll(f, a, rows))
    decreases |b|
  {
    if b == [] {
      assert a + b == a;
    } else {
      var n := |b| - 1;
      assert (a + b)[..|a + b| - 1] == a + b[..n];
      FilterAllConcat(f, a, b[..n], rows);
    }
  }

  lemma NarrowsTwice(a: seq<Join>, b: seq<Join>, c: seq<Join>, m1: seq<Expr>, m2: seq<Expr>)
    requires Narrows(a, b, m1) && Narrows(b, c, m2)
    ensures Narrows(a, c, m1 + m2)
  {
    forall f: Meaning, db: Database, outer: Env
      ensures Rows(f, db, outer, c) == FilterAll(f, m1 + m2, Rows(f, db, outer, a))
    {
      FilterAllConcat(f, m1, m2, Rows(f, db, outer, a));
      assert Rows(f, db, outer, b) == FilterAll(f, m1, Rows(f, db, outer, a));
    }
  }

  /** What is left of a conjunction whose operands may have been moved away. */
  function Remaining(l: Option<Where>, r: Option<Where>): Option<Where> {
    if l.None? then r else if r.None? then l else Some(Conj(l.value, r.value))
  }

  lemma SplitsConj(l: Where, r: Where, l': Option<Where>, r': Option<Where>, m1: seq<Expr>, m2: seq<Expr>)
    requires Splits(Some(WhereExpr(l)), WhereOpt(l'), m1) && Splits(Some(WhereExpr(r)), WhereOpt(r'), m2)
    ensures Splits(Some(WhereExpr(Conj(l, r))), WhereOpt(Remaining(l', r')), m1 + m2)
  {
    forall f: Meaning, env: Env
      ensures HoldsOpt(f, Some(WhereExpr(Conj(l, r))), env)
              <==> HoldsOpt(f, WhereOpt(Remaining(l', r')), env) && AllHold(f, m1 + m2, env)
    {
      assert HoldsOpt(f, Some(WhereExpr(l)), env) <==> HoldsOpt(f, WhereOpt(l'), env) && AllHold(f, m1, env);
      assert HoldsOpt(f, Some(WhereExpr(r)), env) <==> HoldsOpt(f, WhereOpt(r'), env) && AllHold(f, m2, env);
      AllHoldConcat(f, m1, m2, env);
    }
  }

  lemma AllHoldConcat(f: Meaning, m1: seq<Expr>, m2: seq<Expr>, env: Env)
    ensures AllHold(f, m1 + m2, env) <==> AllHold(f, m1, env) && AllHold(f, m2, env)
  {
    if AllHold(f, m1 + m2, env) {
      forall i | 0 <= i < |m1| ensures Holds(f, m1[i], env) {
        assert (m1 + m2)[i] == m1[i];
      }
      forall i | 0 <= i < |m2| ensures Holds(f, m2[i], env) {
        assert (m1 + m2)[|m1| + i] == m2[i];
      }
    }
  }

  lemma NarrowsOne(joins: seq<Join>, k: nat, p: Expr)
    requires k < |joins| && Numbered(joins) && NoRightOrFull(joins) && !IsOuterJoin(joins[k].ty)
    requires MaxUniqueId(p) <= joins[k].maxUniqueId
    ensures Narrows(joins, joins[k := WithCondition(joins[k], p)], [p])
  {
    var to := joins[k := WithCondition(joins[k], p)];
    forall f: Meaning, db: Database, outer: Env
      ensures Rows(f, db, outer, to) == FilterAll(f, [p], Rows(f, db, outer, joins))
    {
      PushFilters(f, db, outer, joins, k, p);
      assert [p][..0] == [];
    }
  }

  // ----- which conjunct goes where

  /** The conjuncts of a WHERE clause from left to right. */
  function Leaves(p: Where): seq<Where> {
    match p
    case Conj(l, r) => Leaves(l) + Leaves(r)
    case Part(_, _) => [p]
  }

  function LeavesOpt(p: Option<Where>): seq<Where> {
    if p.Some? then Leaves(p.value) else []
  }

  /** The conjuncts, in order, for which join `k` is the first that inherits. */
  ghost function Taken(joins: seq<Join>, k: nat, leaves: seq<Where>): seq<Expr>
    requires k < |joins|
  {
    if leaves == [] then []
    else
      var p := leaves[|leaves| - 1];
      Taken(joins, k, leaves[..|leaves| - 1])
      + if p.Part? && First(joins, k, p.maxUniqueId) then [p.x] else []
  }

  /** No join inherits the conjunct, or some join is outer. */
  ghost predicate Stays(joins: seq<Join>, p: Where) {
    || (p.Part? && forall k: nat :: k < |joins| ==> !Inherits(joins, k, p.maxUniqueId))
    || (exists k :: 0 <= k < |joins| && IsOuterJoin(joins[k].ty))
  }

  ghost function Staying(joins: seq<Join>, leaves: seq<Where>): seq<Where> {
    if leaves == [] then []
    else
      var p := leaves[|leaves| - 1];
      Staying(joins, leaves[..|leaves| - 1]) + if Stays(joins, p) then [p] else []
  }

  /** A condition with further ones added in order. */
  ghost function Added(c: Option<Expr>, xs: seq<Expr>): Option<Expr> {
    if xs == [] then c
    else
      var before, x := Added(c, xs[..|xs| - 1]), xs[|xs| - 1];
      Some(if before.Some? then And(before.value, x) else x)
  }

  /** Each conjunct went to the first join that inherits it, if any, and the others stay; with a RIGHT or
      a FULL join nothing changed. */
  ghost predicate Pushed(from: seq<Join>, to: seq<Join>, leaves: seq<Where>, rest: seq<Where>) {
    && |to| == |from|
    && if NoRightOrFull(from) then
         && (forall k: nat :: k < |from| ==> to[k].condition == Added(from[k].condition, Taken(from, k, leaves)))
         && rest == Staying(from, leaves)
       else to == from && rest == leaves
  }

  ghost predicate SameButConditions(from: seq<Join>, to: seq<Join>) {
    |to| == |from| && forall i :: 0 <= i < |from| ==> to[i] == from[i].(condition := to[i].condition)
  }

  lemma {:induction false} TakenConcat(joins: seq<Join>, k: nat, a: seq<Where>, b: seq<Where>)
    requires k < |joins|
    ensures Taken(joins, k, a + b) == Taken(joins, k, a) + Taken(joins, k, b)
  {
    if b == [] {
      assert a + b == a;
    } else {
      assert (a + b)[..|a + b| - 1] == a + b[..|b| - 1];
      TakenConcat(joins, k, a, b[..|b| - 1]);
    }
  }

  lemma {:induction false} StayingConcat(joins: seq<Join>, a: seq<Where>, b: seq<Where>)
    ensures Staying(joins, a + b) == Staying(joins, a) + Staying(joins, b)
  {
    if b == [] {
      assert a + b == a;
    } else {
      assert (a + b)[..|a + b| - 1] == a + b[..|b| - 1];
      StayingConcat(joins, a, b[..|b| - 1]);
    }
  }

  lemma {:induction false} AddedConcat(c: Option<Expr>, xs: seq<Expr>, ys: seq<Expr>)
    ensures Added(c, xs + ys) == Added(Added(c, xs), ys)
  {
    if ys == [] {
      assert xs + ys == xs;
    } else {
      assert (xs + ys)[..|xs + ys| - 1] == xs + ys[..|ys| - 1];
      AddedConcat(c, xs, ys[..|ys| - 1]);
    }
  }

  /** Conditions take no part in the choice of a join. */
  lemma {:induction false} SameChoice(from: seq<Join>, to: seq<Join>, leaves: seq<Where>)
    requires SameButConditions(from, to)
    ensures forall k: nat :: k < |from| ==> Taken(to, k, leaves) == Taken(from, k, leaves)
    ensures Staying(to, leaves) == Staying(from, leaves)
  {
    if leaves != [] {
      var p := leaves[|leaves| - 1];
      SameChoice(from, to, leaves[..|leaves| - 1]);
      forall k: nat, bound | k < |from| ensures Inherits(to, k, bound) == Inherits(from, k, bound) {
      }
      assert p.Part? ==> forall k: nat :: k < |from| ==>
        First(to, k, p.maxUniqueId) == First(from, k, p.maxUniqueId);
      assert Stays(to, p) == Stays(from, p);
    }
  }

  lemma PushedTwice(a: seq<Join>, b: seq<Join>, c: seq<Join>, l1: seq<Where>, r1: seq<Where>, l2: seq<Where>,
      r2: seq<Where>)
    requires SameButConditions(a, b) && Pushed(a, b, l1, r1) && Pushed(b, c, l2, r2)
    ensures Pushed(a, c, l1 + l2, r1 + r2)
  {
    hide Staying, Taken, Added;
    if NoRightOrFull(a) {
      SameChoice(a, b, l2);
      StayingConcat(a, l1, l2);
      forall k: nat | k < |a| ensures c[k].condition == Added(a[k].condition, Taken(a, k, l1 + l2)) {
        TakenConcat(a, k, l1, l2);
        AddedConcat(a[k].condition, Taken(a, k, l1), Taken(a, k, l2));
      }
    }
  }

  lemma SameTwice(a: seq<Join>, b: seq<Join>, c: seq<Join>)
    requires SameButConditions(a, b) && SameButConditions(b, c)
    ensures SameButConditions(a, c)
  {
  }

  lemma OneLeaf(p: Where)
    ensures |Leaves(p)| >= 1 && (p.Part? ==> Leaves(p) == [p])
  {
  }

  ghost predicate LeavesLess(p: Where, rest: Option<Where>) {
    |LeavesOpt(rest)| <= |Leaves(p)| && (|LeavesOpt(rest)| == |Leaves(p)| ==> rest == Some(p))
  }

  lemma RemainingLeaves(p: Where, l: Option<Where>, r: Option<Where>)
    requires p.Conj? && LeavesLess(p.l, l) && LeavesLess(p.r, r)
    ensures Leaves(p) == Leaves(p.l) + Leaves(p.r) && LeavesLess(p, Remaining(l, r))
    ensures LeavesOpt(Remaining(l, r)) == LeavesOpt(l) + LeavesOpt(r)
  {
    OneLeaf(p.l);
    OneLeaf(p.r);
  }

  /** The first join that inherits the conjunct `p` took it, or nothing changed. */
  ghost predicate MovedOne(from: seq<Join>, to: seq<Join>, p: Where, rest: Option<Where>, moved: seq<Expr>)
    requires p.Part?
  {
    && (NoRightOrFull(from) ==>
          forall k: nat :: k < |from| && First(from, k, p.maxUniqueId) ==>
            && moved == [p.x] && to == from[k := WithCondition(from[k], p.x)]
            && (rest == None <==> forall i :: 0 <= i < |from| ==> !IsOuterJoin(from[i].ty)))
    && (!NoRightOrFull(from) || (forall i: nat :: i < |from| ==> !Inherits(from, i, p.maxUniqueId)) ==>
          moved == [] && rest == Some(p) && to == from)
  }

  /** One conjunct. */
  lemma PushedOne(joins: seq<Join>, to: seq<Join>, p: Where, k: nat, rest: Option<Where>)
    requires p.Part? && NoRightOrFull(joins) && k < |joins| && First(joins, k, p.maxUniqueId)
    requires to == joins[k := WithCondition(joins[k], p.x)]
    requires rest == if exists i :: 0 <= i < |joins| && IsOuterJoin(joins[i].ty) then Some(p) else None
    ensures Pushed(joins, to, [p], LeavesOpt(rest))
  {
    assert [p][..0] == [] && [p][0] == p;
    assert Staying(joins, [p]) == Staying(joins, []) + if Stays(joins, p) then [p] else [];
    forall i: nat | i < |joins| ensures to[i].condition == Added(joins[i].condition, Taken(joins, i, [p])) {
      assert Taken(joins, i, [p]) == Taken(joins, i, []) + if First(joins, i, p.maxUniqueId) then [p.x] else [];
      if i == k {
        assert [p.x][..0] == [] && [p.x][0] == p.x;
      }
    }
  }

  lemma MovedFirst(joins: seq<Join>, to: seq<Join>, p: Where, k: nat, rest: Option<Where>)
    requires p.Part? && NoRightOrFull(joins) && k < |joins| && First(joins, k, p.maxUniqueId)
    requires to == joins[k := WithCondition(joins[k], p.x)]
    requires rest == if exists i :: 0 <= i < |joins| && IsOuterJoin(joins[i].ty) then Some(p) else None
    ensures MovedOne(joins, to, p, rest, [p.x]) && SameButConditions(joins, to)
  {
    forall j: nat | j < |joins| && First(joins, j, p.maxUniqueId) ensures j == k {
      assert Inherits(joins, j, p.maxUniqueId) && Inherits(joins, k, p.maxUniqueId);
    }
  }

  lemma MovedNone(joins: seq<Join>, p: Where)
    requires p.Part?
    requires !NoRightOrFull(joins) || forall k: nat :: k < |joins| ==> !Inherits(joins, k, p.maxUniqueId)
    ensures MovedOne(joins, joins, p, Some(p), [])
  {
  }

  /** All tables up to `bound` are known at join `i`, which is neither outer nor CROSS, is not the last and is
      not followed by a CROSS join. */
  predicate Eligible(joins: seq<Join>, i: nat, bound: int) {
    && i + 1 < |joins| && joins[i].ty in {NoJoin, NaturalJoin, InnerJoin} && joins[i + 1].ty != CrossJoin
    && bound <= joins[i].maxUniqueId
  }

  /** Some join takes a conjunct if and only if some join is eligible. */
  lemma MovesExactly(joins: seq<Join>, bound: int)
    ensures (exists k: nat :: k < |joins| && First(joins, k, bound)) <==> (exists i: nat :: Eligible(joins, i, bound))
  {
    if i: nat :| Eligible(joins, i, bound) {
      assert Inherits(joins, i, bound);
      var k := FirstOf(joins, i, bound);
    }
    if k: nat :| k < |joins| && First(joins, k, bound) {
      assert Eligible(joins, k, bound);
    }
  }

  lemma {:induction false} FirstOf(joins: seq<Join>, i: nat, bound: int) returns (k: nat)
    requires i < |joins| && Inherits(joins, i, bound)
    ensures k <= i && First(joins, k, bound)
  {
    if j: nat :| j < i && Inherits(joins, j, bound) {
      k := FirstOf(joins, j, bound);
    } else {
      k := i;
    }
  }

  lemma PushedNothing(joins: seq<Join>)
    ensures Pushed(joins, joins, [], [])
  {
  }

  lemma PushedNone(joins: seq<Join>, p: Where)
    requires p.Part?
    requires !NoRightOrFull(joins) || forall k: nat :: k < |joins| ==> !Inherits(joins, k, p.maxUniqueId)
    ensures Pushed(joins, joins, [p], [p])
  {
    assert [p][..0] == [] && [p][0] == p;
    assert Staying(joins, [p]) == Staying(joins, []) + if Stays(joins, p) then [p] else [];
    forall i: nat | i < |joins| ensures NoRightOrFull(joins) ==> Taken(joins, i, [p]) == [] {
      assert Taken(joins, i, [p]) == Taken(joins, i, []) + if First(joins, i, p.maxUniqueId) then [p.x] else [];
    }
  }

  class Query {
    var joins: seq<Join>        // the join ring, from its start
    var where: Option<Where>

    /** One pass over the join ring: the join that inherits a conjunct with this bound, if any, and
        whether there are outer joins, and RIGHT or FULL joins, anywhere in the list. */
    method ScanJoins(bound: int) returns (noted: Option<nat>, outerJoinSeen: bool, rightOrFullJoinSeen: bool)
      requires joins != []
      ensures outerJoinSeen <==> exists k :: 0 <= k < |joins| && IsOuterJoin(joins[k].ty)
      ensures rightOrFullJoinSeen <==> !NoRightOrFull(joins)
      ensures noted.Some? ==>
                && noted.value < |joins| && Inherits(joins, noted.value, bound)
                && (forall k: nat :: k < noted.value ==> !Inherits(joins, k, bound))
      ensures noted.None? ==> forall k: nat :: k < |joins| ==> !Inherits(joins, k, bound)
    {
      var i := 0;
      outerJoinSeen, rightOrFullJoinSeen, noted := false, false, None;
      while i < |joins|
        invariant 0 <= i <= |joins|
        invariant outerJoinSeen <==> exists k :: 0 <= k < i && IsOuterJoin(joins[k].ty)
        invariant rightOrFullJoinSeen <==> !NoRightOrFull(joins[..i])
        invariant noted.Some? ==>
                    && noted.value < i && Inherits(joins, noted.value, bound)
                    && (forall k: nat :: k < noted.value ==> !Inherits(joins, k, bound))
        invariant noted.None? ==> forall k: nat :: k < i ==> !Inherits(joins, k, bound)
      {
        var cur, next := joins[i], joins[if i + 1 < |joins| then i + 1 else 0];
        assert joins[..i + 1] == joins[..i] + [cur];
        if IsOuterJoin(cur.ty) {
          outerJoinSeen := true;
          if cur.ty.RightJoin? || cur.ty.FullJoin? {
            assert joins[..i + 1][i] == cur;
            rightOrFullJoinSeen := true;
          }
        } else if noted.None? && !cur.ty.CrossJoin? && !next.ty.CrossJoin? && i + 1 != |joins|
            && bound <= cur.maxUniqueId {
          noted := Some(i);
        }
        i := i + 1;
      }
      assert joins[..i] == joins;
    }

    /** Moves one conjunct to the ON clause of a join if that is safe.  It is dropped from the
        WHERE clause only if no join is outer. */
    method MoveWhereClauseToOnClause(p: Where) returns (rest: Option<Where>, ghost moved: seq<Expr>)
      requires p.Part? && Bounded(p) && joins != [] && Numbered(joins)
      modifies `joins
      ensures Numbered(joins) && |joins| == |old(joins)| && Narrows(old(joins), joins, moved)
      ensures rest.Some? ==> Bounded(rest.value)
      ensures Splits(Some(WhereExpr(p)), WhereOpt(rest), moved)
      ensures SameButConditions(old(joins), joins) && Pushed(old(joins), joins, [p], LeavesOpt(rest))
      ensures rest == None || rest == Some(p)
      ensures MovedOne(old(joins), joins, p, rest, moved)
    {
      hide Narrows, Splits, Pushed, MovedOne;
      var noted, outerJoinSeen, rightOrFullJoinSeen := ScanJoins(p.maxUniqueId);
      rest, moved := Some(p), [];
      if noted.Some? && !rightOrFullJoinSeen {
        var k := noted.value;
        NarrowsOne(joins, k, p.x);
        joins := joins[k := WithCondition(joins[k], p.x)];
        moved := [p.x];
        if !outerJoinSeen {
          rest := None;
        }
        SplitsOne(p, rest);
        PushedOne(old(joins), joins, p, k, rest);
        MovedFirst(old(joins), joins, p, k, rest);
      } else {
        NarrowsNone(joins);
        SplitsNone(p);
        PushedNone(joins, p);
        MovedNone(joins, p);
      }
    }

    /** Works through the conjuncts of an AND tree, left to right, and returns what is left of it. */
    method TraverseWhereClause(p: Where) returns (rest: Option<Where>, ghost moved: seq<Expr>)
      requires p.Conj? && Bounded(p) && joins != [] && Numbered(joins)
      modifies `joins
      ensures Numbered(joins) && |joins| == |old(joins)| && Narrows(old(joins), joins, moved)
      ensures rest.Some? ==> Bounded(rest.value)
      ensures Splits(Some(WhereExpr(p)), WhereOpt(rest), moved)
      ensures SameButConditions(old(joins), joins) && Pushed(old(joins), joins, Leaves(p), LeavesOpt(rest))
      ensures LeavesLess(p, rest)
      decreases p
    {
      hide Narrows, Splits, Pushed, SameButConditions, Leaves, WhereExpr, Numbered, MovedOne;
      var l, r: Option<Where>;
      ghost var m1, m2;
      OneLeaf(p.l);
      OneLeaf(p.r);
      if p.l.Conj? {
        l, m1 := TraverseWhereClause(p.l);
      } else {
        l, m1 := MoveWhereClauseToOnClause(p.l);
      }
      ghost var middle := joins;
      if p.r.Conj? {
        r, m2 := TraverseWhereClause(p.r);
      } else {
        r, m2 := MoveWhereClauseToOnClause(p.r);
      }
      NarrowsTwice(old(joins), middle, joins, m1, m2);
      SplitsConj(p.l, p.r, l, r, m1, m2);
      PushedTwice(old(joins), middle, joins, Leaves(p.l), LeavesOpt(l), Leaves(p.r), LeavesOpt(r));
      SameTwice(old(joins), middle, joins);
      RemainingLeaves(p, l, r);
      moved := m1 + m2;
      rest := None;
      if l.Some? {
        rest := l;
      }
      if r.Some? {
        rest := if rest.Some? then Some(Conj(l.value, r.value)) else r;
      }
    }

    /** Each conjunct of the WHERE clause goes to the first join that inherits it and leaves the WHERE clause
        unless a join is outer.  The rewritten query returns the same rows in the same order, for every
        database, every row of the enclosing queries and every meaning of the operators. */
    method ParseTreeOptimize()
      requires joins != [] && Numbered(joins) && (where.Some? ==> Bounded(where.value))
      modifies this
      ensures SameButConditions(old(joins), joins)
      ensures Pushed(old(joins), joins, LeavesOpt(old(where)), LeavesOpt(where))
      ensures |LeavesOpt(where)| == |LeavesOpt(old(where))| ==> where == old(where)
      ensures forall f: Meaning, db: Database, outer: Env {:trigger Result(f, db, outer, joins, WhereOpt(where))} ::
                Result(f, db, outer, joins, WhereOpt(where)) == Result(f, db, outer, old(joins), WhereOpt(old(where)))
    {
      hide Splits, Result, Pushed;
      if where.None? {
        PushedNothing(joins);
      } else {
        ghost var from := joins;
        ghost var was := WhereOpt(where);
        ghost var moved;
        if where.value.Conj? {
          where, moved := TraverseWhereClause(where.value);
        } else {
          where, moved := MoveWhereClauseToOnClause(where.value);
        }
        forall f: Meaning, db: Database, outer: Env
          ensures Result(f, db, outer, joins, WhereOpt(where)) == Result(f, db, outer, from, was)
        {
          SameResult(f, db, outer, from, joins, was, WhereOpt(where), moved);
        }
      }
    }
  }

  lemma NarrowsNone(joins: seq<Join>)
    ensures Narrows(joins, joins, [])
  {
  }

  lemma SplitsNone(p: Where)
    requires p.Part?
    ensures Splits(Some(p.x), WhereOpt(Some(p)), [])
  {
  }

  /** A conjunct copied to an ON clause may stay in the WHERE clause or leave it. */
  lemma SplitsOne(p: Where, rest: Option<Where>)
    requires p.Part? && (rest == None || rest == Some(p))
    ensures Splits(Some(p.x), WhereOpt(rest), [p.x])
  {
    forall f: Meaning, env: Env ensures HoldsOpt(f, Some(p.x), env) <==>
      HoldsOpt(f, WhereOpt(rest), env) && AllHold(f, [p.x], env) {
      assert [p.x][0] == p.x;
      assert AllHold(f, [p.x], env) <==> Holds(f, p.x, env);
    }
  }

  // ----- why the guards are there

  const IS_NULL: nat := 0

  function IsNullMeaning(op: nat, args: seq<Value>): Value {
    Bool(op == IS_NULL && |args| == 1 && args[0].Null?)
  }

  // The query `SELECT ... FROM t1 <ty> JOIN t2 WHERE t1.c0 IS NULL` over tables of one tuple each.
  const T1 := Join(1, NoJoin, None, 2)
  const C0_IS_NULL := Apply(IS_NULL, [Column(1, 0)])
  const BEFORE: Env := map[1 := Row([Data(7)]), 2 := Row([Data(8)])]
  const AFTER: Env := map[1 := NullRow, 2 := Row([Data(8)])]

  function OneTupleEach(id: int): seq<Tuple> {
    if id == 1 then [[Data(7)]] else [[Data(8)]]
  }

  lemma IsNullHolds(env: Env)
    ensures Eval(IsNullMeaning, C0_IS_NULL, env) == Bool(Lookup(env, 1, 0).Null?)
  {
    var args := [Column(1, 0)];
    assert EvalAll(IsNullMeaning, args, env) == [Lookup(env, 1, 0)] + EvalAll(IsNullMeaning, [], env);
  }

  /** One join at a time over a single left row and a single tuple. */
  lemma OneByOne(f: Meaning, j: Join, left: Env, t: Tuple)
    ensures HoldsOpt(f, j.condition, left[j.id := Row(t)]) ==>
              ExtendAll(f, j, [left], [t]) == [left[j.id := Row(t)]] && MatchesSome(f, j, [left], t)
    ensures !HoldsOpt(f, j.condition, left[j.id := Row(t)]) && j.ty.NoJoin? ==> ExtendAll(f, j, [left], [t]) == []
  {
    assert Matches(f, j, left, [t]) ==
           (if HoldsOpt(f, j.condition, left[j.id := Row(t)]) then [left[j.id := Row(t)]] else [])
           + Matches(f, j, left, []);
    assert ExtendAll(f, j, [left], [t]) == Extend(f, j, left, [t]) + ExtendAll(f, j, [], [t]);
    assert HoldsOpt(f, j.condition, left[j.id := Row(t)]) ==> HoldsOpt(f, j.condition, [left][0][j.id := Row(t)]);
  }

  lemma RowsBefore(ty: JoinType)
    requires ty.RightJoin? || ty.FullJoin?
    ensures Rows(IsNullMeaning, OneTupleEach, map[], [T1, Join(2, ty, None, 3)]) == [BEFORE]
  {
    var f, db, j2 := IsNullMeaning, OneTupleEach, Join(2, ty, None, 3);
    var empty: Env := map[];
    var left := empty[1 := Row([Data(7)])];
    OneByOne(f, T1, empty, [Data(7)]);
    assert [T1][..0] == [] && Rows(f, db, empty, [T1]) == [left];
    OneByOne(f, j2, left, [Data(8)]);
    assert [T1, j2][..1] == [T1];
    assert Unmatched(f, j2, [left], NullRows(empty, [T1]), [[Data(8)]]) ==
           Unmatched(f, j2, [left], NullRows(empty, [T1]), []);
  }

  lemma RowsAfter(ty: JoinType)
    requires ty.RightJoin? || ty.FullJoin?
    ensures Rows(IsNullMeaning, OneTupleEach, map[], [WithCondition(T1, C0_IS_NULL), Join(2, ty, None, 3)]) == [AFTER]
  {
    var f, db, j1, j2 := IsNullMeaning, OneTupleEach, WithCondition(T1, C0_IS_NULL), Join(2, ty, None, 3);
    var empty: Env := map[];
    IsNullHolds(empty[1 := Row([Data(7)])]);
    OneByOne(f, j1, empty, [Data(7)]);
    assert [j1][..0] == [] && Rows(f, db, empty, [j1]) == [];
    assert [j1, j2][..1] == [j1];
    assert NullRows(empty, [j1]) == empty[1 := NullRow];
    assert Unmatched(f, j2, [], empty[1 := NullRow], [[Data(8)]]) ==
           [AFTER] + Unmatched(f, j2, [], empty[1 := NullRow], []);
  }

  /** Moving `t1.c0 IS NULL` to the first table of `t1 RIGHT JOIN t2` (or `FULL JOIN`) turns the
      empty result into a row that pairs nulls with the tuple of `t2`, even though the condition
      stays in the WHERE clause. */
  lemma RightOrFullGuardNeeded(ty: JoinType)
    requires ty.RightJoin? || ty.FullJoin?
    ensures var joins := [T1, Join(2, ty, None, 3)];
            && Numbered(joins) && Inherits(joins, 0, MaxUniqueId(C0_IS_NULL))
            && Result(IsNullMeaning, OneTupleEach, map[], joins, Some(C0_IS_NULL)) == []
            && var moved := joins[0 := WithCondition(T1, C0_IS_NULL)];
               Result(IsNullMeaning, OneTupleEach, map[], moved, Some(C0_IS_NULL)) == [AFTER]
  {
    var f, p, j2 := IsNullMeaning, Some(C0_IS_NULL), Join(2, ty, None, 3);
    RowsBefore(ty);
    RowsAfter(ty);
    IsNullHolds(BEFORE);
    IsNullHolds(AFTER);
    assert [T1, j2][0 := WithCondition(T1, C0_IS_NULL)] == [WithCondition(T1, C0_IS_NULL), j2];
    assert Filter(f, p, [BEFORE]) == [] + Filter(f, p, []);
    assert Filter(f, p, [AFTER]) == [AFTER] + Filter(f, p, []);
    assert MaxUniqueIdAll([Column(1, 0)]) == Max(MaxUniqueId(Column(1, 0)), MaxUniqueIdAll([]));
  }

  /** With LEFT joins the conjunct is kept in the WHERE clause as well; once it is in the ON clause
      that makes no difference, whatever else the WHERE clause holds. */
  lemma KeepingIsRedundant(f: Meaning, db: Database, outer: Env, joins: seq<Join>, k: nat, p: Expr, rest: Option<Expr>)
    requires k < |joins| && Numbered(joins) && NoRightOrFull(joins) && !IsOuterJoin(joins[k].ty)
    requires MaxUniqueId(p) <= joins[k].maxUniqueId
    ensures var joins' := joins[k := WithCondition(joins[k], p)];
            Result(f, db, outer, joins', rest) == Result(f, db, outer, joins',
                Some(if rest.Some? then And(rest.value, p) else p))
  {
    var rows := Rows(f, db, outer, joins);
    PushFilters(f, db, outer, joins, k, p);
    FilterTwice(f, rest, p, rows);
    var both := Some(if rest.Some? then And(rest.value, p) else p);
    FilterTwice(f, both, p, rows);
    SameFilter(f, both, Some(And(both.value, p)), rows);
  }
}
