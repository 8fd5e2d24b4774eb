/**
 The order in which one pass of the serializer meets the objects of a graph.  Both passes, the
 one that counts and the one that writes, are proved to follow this walk.
 */
module Walk {
  import opened ParseGraph
  import opened Blob

  datatype Item = IStmt(s: nat) | IRec(r: nat) | IText(text: string)

  function ItemSize(g: Graph, it: Item): nat {
    match it
    case IStmt(_) => STMT_SIZE
    case IRec(r) => if r in g.recs then RecSize(g.recs[r].ty) else 0
    case IText(x) => |x| + 1
  }

  function TotalSize(g: Graph, items: seq<Item>): nat {
    if items == [] then 0 else TotalSize(g, items[..|items| - 1]) + ItemSize(g, items[|items| - 1])
  }

  lemma {:induction false} TotalSizeConcat(g: Graph, a: seq<Item>, b: seq<Item>)
    ensures TotalSize(g, a + b) == TotalSize(g, a) + TotalSize(g, b)
  {
    if b == [] {
      assert a + b == a;
    } else {
      assert (a + b)[..|a + b| - 1] == a + b[..|b| - 1];
      TotalSizeConcat(g, a, b[..|b| - 1]);
    }
  }

  /** The items met, and the shared records that have been met afterwards. */
  datatype Trip = Trip(items: seq<Item>, met: set<nat>)

  ghost function Unmet(g: Graph, met: set<nat>): set<nat> {
    set r | r in g.recs && Shared(g.recs[r].ty) && r !in met
  }

  ghost predicate ChildWF(g: Graph, ch: Child) {
    ch.ToStmt? ==> ch.s in g.stmts
  }

  /** Upper bound for the height of the children of a record. */
  ghost function FieldBound(g: Graph, c: Cert, r: nat): nat
    requires WellFormed(g, c) && r in g.recs
  {
    assert RankWF(g, c, r);
    if Shared(g.recs[r].ty) then c.bound else c.rank[r]
  }

  lemma FieldHeight(g: Graph, c: Cert, r: nat, i: nat)
    requires WellFormed(g, c) && r in g.recs && i < |g.recs[r].fields|
    ensures ChildWF(g, g.recs[r].fields[i])
    ensures ChildHeight(g, c, g.recs[r].fields[i]) <= FieldBound(g, c, r)
  {
    assert RankWF(g, c, r) && RecWF(g, r) && FieldWF(g, g.recs[r], i);
    var ch := g.recs[r].fields[i];
    if ch.ToStmt? && g.stmts[ch.s].payload.To? {
      assert StmtWF(g, ch.s);
      assert RankWF(g, c, g.stmts[ch.s].payload.r);
    }
  }

  lemma RingHeight(g: Graph, c: Cert, r: nat, j: nat)
    requires WellFormed(g, c) && r in g.recs && r in c.ring && j < |c.ring[r]|
    ensures c.ring[r][j] in g.recs && g.recs[c.ring[r][j]].ty == g.recs[r].ty
    ensures Height(g, c, c.ring[r][j]) == Height(g, c, r)
  {
    assert RankWF(g, c, r) && RingWF(g, c, r) && RingStep(g, c.ring[r], j);
  }

  /** A child: nothing for a NULL pointer, else the statement and the ring it points to. */
  ghost function WalkChild(g: Graph, c: Cert, met: set<nat>, ch: Child): (t: Trip)
    requires WellFormed(g, c) && ChildWF(g, ch)
    ensures met <= t.met
    decreases Unmet(g, met), ChildHeight(g, c, ch), 2, 0
  {
    match ch
    case Null => Trip([], met)
    case ToText(x) => Trip([IText(x)], met)
    case ToStmt(s) =>
      assert StmtWF(g, s);
      if Dropped(g.stmts[s]) then Trip([], met)
      else if g.stmts[s].payload.Inline? then Trip([IStmt(s)], met)
      else
        var r := g.stmts[s].payload.r;
        assert RingWF(g, c, r);
        var t := WalkRing(g, c, met, r, |c.ring[r]|);
        Trip([IStmt(s)] + t.items, t.met)
  }

  /** The first `k` elements of the ring that starts at `r`. */
  ghost function WalkRing(g: Graph, c: Cert, met: set<nat>, r: nat, k: nat): (t: Trip)
    requires WellFormed(g, c) && r in g.recs && r in c.ring && k <= |c.ring[r]|
    ensures met <= t.met
    decreases Unmet(g, met), Height(g, c, r), 1, k
  {
    if k == 0 then Trip([], met)
    else
      var t := WalkRing(g, c, met, r, k - 1);
      assert Unmet(g, t.met) <= Unmet(g, met);
      RingHeight(g, c, r, k - 1);
      var u := WalkRec(g, c, t.met, c.ring[r][k - 1]);
      Trip(t.items + u.items, u.met)
  }

  /** One record: nothing for a shared record met before. */
  ghost function WalkRec(g: Graph, c: Cert, met: set<nat>, r: nat): (t: Trip)
    requires WellFormed(g, c) && r in g.recs
    ensures met <= t.met
    ensures Shared(g.recs[r].ty) ==> r in t.met
    decreases Unmet(g, met), Height(g, c, r), 0, 0
  {
    if Shared(g.recs[r].ty) && r in met then Trip([], met)
    else
      assert RankWF(g, c, r);
      assert Shared(g.recs[r].ty) ==> r in Unmet(g, met) && Unmet(g, met + {r}) < Unmet(g, met);
      var t := WalkFields(g, c, if Shared(g.recs[r].ty) then met + {r} else met, r, |g.recs[r].fields|);
      Trip([IRec(r)] + t.items, t.met)
  }

  /** The first `k` pointer fields of a record. */
  ghost function WalkFields(g: Graph, c: Cert, met: set<nat>, r: nat, k: nat): (t: Trip)
    requires WellFormed(g, c) && r in g.recs && k <= |g.recs[r].fields|
    ensures met <= t.met
    decreases Unmet(g, met), FieldBound(g, c, r), 3, k
  {
    if k == 0 then Trip([], met)
    else
      var t := WalkFields(g, c, met, r, k - 1);
      assert Unmet(g, t.met) <= Unmet(g, met);
      FieldHeight(g, c, r, k - 1);
      var u := WalkChild(g, c, t.met, g.recs[r].fields[k - 1]);
      Trip(t.items + u.items, u.met)
  }

  lemma {:induction false} FieldsPrefix(g: Graph, c: Cert, met: set<nat>, r: nat, i: nat, n: nat)
    requires WellFormed(g, c) && r in g.recs && i <= n <= |g.recs[r].fields|
    ensures WalkFields(g, c, met, r, i).met <= WalkFields(g, c, met, r, n).met
    ensures TotalSize(g, WalkFields(g, c, met, r, i).items) <= TotalSize(g, WalkFields(g, c, met, r, n).items)
    decreases n
  {
    if i < n {
      FieldsPrefix(g, c, met, r, i, n - 1);
      FieldHeight(g, c, r, n - 1);
      var t := WalkFields(g, c, met, r, n - 1);
      TotalSizeConcat(g, t.items, WalkChild(g, c, t.met, g.recs[r].fields[n - 1]).items);
    }
  }

  lemma {:induction false} RingPrefix(g: Graph, c: Cert, met: set<nat>, r: nat, i: nat, n: nat)
    requires WellFormed(g, c) && r in g.recs && r in c.ring && i <= n <= |c.ring[r]|
    ensures WalkRing(g, c, met, r, i).met <= WalkRing(g, c, met, r, n).met
    ensures TotalSize(g, WalkRing(g, c, met, r, i).items) <= TotalSize(g, WalkRing(g, c, met, r, n).items)
    decreases n
  {
    if i < n {
      RingPrefix(g, c, met, r, i, n - 1);
      RingHeight(g, c, r, n - 1);
      var t := WalkRing(g, c, met, r, n - 1);
      TotalSizeConcat(g, t.items, WalkRec(g, c, t.met, c.ring[r][n - 1]).items);
    }
  }

  /** One more field: what the walk over it adds. */
  lemma FieldsStep(g: Graph, c: Cert, met: set<nat>, r: nat, i: nat)
    requires WellFormed(g, c) && r in g.recs && i < |g.recs[r].fields|
    ensures var t := WalkFields(g, c, met, r, i);
            var ch := g.recs[r].fields[i];
            && ChildWF(g, ch) && ChildHeight(g, c, ch) <= FieldBound(g, c, r)
            && Unmet(g, t.met) <= Unmet(g, met)
            && var v := WalkChild(g, c, t.met, ch);
            && WalkFields(g, c, met, r, i + 1) == Trip(t.items + v.items, v.met)
            && TotalSize(g, t.items + v.items) == TotalSize(g, t.items) + TotalSize(g, v.items)
  {
    FieldHeight(g, c, r, i);
    var t := WalkFields(g, c, met, r, i);
    TotalSizeConcat(g, t.items, WalkChild(g, c, t.met, g.recs[r].fields[i]).items);
  }

  lemma RingsStep(g: Graph, c: Cert, met: set<nat>, r: nat, k: nat)
    requires WellFormed(g, c) && r in g.recs && r in c.ring && k < |c.ring[r]|
    ensures var t := WalkRing(g, c, met, r, k);
            var q := c.ring[r][k];
            && q in g.recs && g.recs[q].ty == g.recs[r].ty && Height(g, c, q) == Height(g, c, r)
            && Unmet(g, t.met) <= Unmet(g, met)
            && var v := WalkRec(g, c, t.met, q);
            && WalkRing(g, c, met, r, k + 1) == Trip(t.items + v.items, v.met)
            && TotalSize(g, t.items + v.items) == TotalSize(g, t.items) + TotalSize(g, v.items)
  {
    RingHeight(g, c, r, k);
    var t := WalkRing(g, c, met, r, k);
    TotalSizeConcat(g, t.items, WalkRec(g, c, t.met, c.ring[r][k]).items);
  }

  lemma WalkNoFields(g: Graph, c: Cert, met: set<nat>, r: nat)
    requires WellFormed(g, c) && r in g.recs
    ensures WalkFields(g, c, met, r, 0) == Trip([], met)
  {
  }

  /** The walk over a record that is met for the first time. */
  lemma NewRecTrip(g: Graph, c: Cert, met: set<nat>, r: nat)
    requires WellFormed(g, c) && r in g.recs && (Shared(g.recs[r].ty) ==> r !in met)
    ensures var met1 := if Shared(g.recs[r].ty) then met + {r} else met;
            var u := WalkFields(g, c, met1, r, |g.recs[r].fields|);
            && WalkRec(g, c, met, r) == Trip([IRec(r)] + u.items, u.met)
            && TotalSize(g, [IRec(r)] + u.items) == RecSize(g.recs[r].ty) + TotalSize(g, u.items)
            && (if Shared(g.recs[r].ty) then Unmet(g, met1) < Unmet(g, met) else FieldBound(g, c, r) < Height(g, c, r))
  {
    var met1 := if Shared(g.recs[r].ty) then met + {r} else met;
    var u := WalkFields(g, c, met1, r, |g.recs[r].fields|);
    TotalSizeConcat(g, [IRec(r)], u.items);
    assert TotalSize(g, [IRec(r)]) == RecSize(g.recs[r].ty);
    assert RankWF(g, c, r);
    assert Shared(g.recs[r].ty) ==> r in Unmet(g, met) && r !in Unmet(g, met1);
  }

  lemma OneOfRing(g: Graph, c: Cert, met: set<nat>, r: nat)
    requires WellFormed(g, c) && r in g.recs && r in c.ring
    ensures |c.ring[r]| > 0 && c.ring[r][0] == r
    ensures WalkRing(g, c, met, r, 1) == WalkRec(g, c, met, r)
    ensures WalkRec(g, c, met, r).met <= WalkRing(g, c, met, r, |c.ring[r]|).met
    ensures TotalSize(g, WalkRec(g, c, met, r).items) <= TotalSize(g, WalkRing(g, c, met, r, |c.ring[r]|).items)
  {
    assert RingWF(g, c, r);
    RingPrefix(g, c, met, r, 1, |c.ring[r]|);
    assert WalkRing(g, c, met, r, 0) == Trip([], met);
    assert [] + WalkRec(g, c, met, r).items == WalkRec(g, c, met, r).items;
  }

  /** Only ring records have a ring of more than one element. */
  lemma RingIsRinged(g: Graph, c: Cert, r: nat, k: nat)
    requires WellFormed(g, c) && r in g.recs && r in c.ring && 0 < k < |c.ring[r]|
    ensures Ringed(g.recs[r].ty)
  {
    assert RingWF(g, c, r) && RingStep(g, c.ring[r], 0) && RecWF(g, r);
    assert c.ring[r][0] != c.ring[r][1];
  }

  /** The walk over a statement that points to a record. */
  lemma StmtTrip(g: Graph, c: Cert, met: set<nat>, s: nat)
    requires WellFormed(g, c) && s in g.stmts && g.stmts[s].payload.To?
    ensures var r := g.stmts[s].payload.r;
            && r in g.recs && g.recs[r].ty == g.stmts[s].ty && r in c.ring
                && ChildHeight(g, c, ToStmt(s)) == Height(g, c, r)
            && var t := WalkRing(g, c, met, r, |c.ring[r]|);
            && WalkChild(g, c, met, ToStmt(s)) == Trip([IStmt(s)] + t.items, t.met)
            && TotalSize(g, [IStmt(s)] + t.items) == STMT_SIZE + TotalSize(g, t.items)
  {
    assert StmtWF(g, s) && RingWF(g, c, g.stmts[s].payload.r);
    var t := WalkRing(g, c, met, g.stmts[s].payload.r, |c.ring[g.stmts[s].payload.r]|);
    TotalSizeConcat(g, [IStmt(s)], t.items);
    assert TotalSize(g, [IStmt(s)]) == STMT_SIZE;
  }

  lemma RingHead(g: Graph, c: Cert, r: nat)
    requires WellFormed(g, c) && r in g.recs
    ensures r in c.ring && |c.ring[r]| > 0 && c.ring[r][0] == r
  {
    assert RingWF(g, c, r);
  }

  /** The ring walk comes back to its start after the last element and not before. */
  lemma RingNext(g: Graph, c: Cert, r: nat, k: nat)
    requires WellFormed(g, c) && r in g.recs && r in c.ring && k < |c.ring[r]|
    ensures var q := c.ring[r][k];
            q in g.recs && if k + 1 < |c.ring[r]| then g.recs[q].next == c.ring[r][k + 1] != r else g.recs[q].next == r
  {
    assert RingWF(g, c, r) && RingStep(g, c.ring[r], k);
  }
}
