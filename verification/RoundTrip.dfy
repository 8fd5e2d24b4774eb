/**
 Storing a definition and loading it again, at any address, gives back the same graph: the copy
 is bisimilar to the original, shared records stay shared one to one, and rings stay closed.
 */
module RoundTrip {
  import opened ParseGraph
  import opened Blob
  import opened Walk
  import opened CompressInv
  import C = Compress
  import D = Decompress

  /** The object loaded at offset `a` mirrors its source: same contents, and each of its pointers
      is NULL exactly when the source's is (or leads to a dropped statement), and otherwise is the
      address of an object that mirrors what the source's pointer leads to. */
  ghost predicate Mirrors(e: Env, base: int, m: Store, a: int) {
    && ShapeAt(e, m, a)
    && match e.org[a]
       case SStmt(_, _) => D.StmtAbs(e, base, m, a)
       case SRec(_, _) =>
         && (forall i {:trigger D.FieldAbs(e, base, m, a, i)} :: 0 <= i < |m[a].fields| ==>
               D.FieldAbs(e, base, m, a, i))
         && (Ringed(m[a].ty) ==> D.LinkAbs(e, base, m, a))
       case SText(_, _) => true
  }

  /** `e.org` is a bisimulation between the memory and the graph that relates offset 0 to `root`;
      no two copies of a record have the same owner, so shared records are copied one to one. */
  ghost predicate Bisimilar(e: Env, base: int, m: Store, root: nat) {
    && 0 in e.org && e.org[0] == SStmt(root, Root)
    && RecsDistinct(e)
    && (forall a {:trigger Mirrors(e, base, m, a)} :: a in e.org ==> Mirrors(e, base, m, a))
  }

  /** Every scalar of a loaded record is that of its source, but for the parameter index of a literal and
      those of the size and the scale of a cast, which a view loses. */
  lemma LoadedScalar(e: Env, base: int, m: Store, root: nat, a: int, i: nat)
    requires Bisimilar(e, base, m, root) && IsRec(e, a) && i < |RecAt(e, a).data|
    ensures a in m && m[a].RecObj? && m[a].ty == RecAt(e, a).ty && |m[a].data| == |RecAt(e, a).data|
    ensures e.isView && m[a].ty.ValueLiteral? && i == PARAMETER_INDEX ==> m[a].data[i] == 0
    ensures e.isView && m[a].ty.ValueCoerce? && i in {SIZE_PARAMETER_INDEX, SCALE_PARAMETER_INDEX} ==> m[a].data[i] == 0
    ensures
      || (e.isView && m[a].ty.ValueLiteral? && i == PARAMETER_INDEX)
      || (e.isView && m[a].ty.ValueCoerce? && i in {SIZE_PARAMETER_INDEX, SCALE_PARAMETER_INDEX})
      || m[a].data[i] == RecAt(e, a).data[i]
  {
    assert Mirrors(e, base, m, a);
  }

  /** A loaded statement says what its source says, in place or in the record that it points to. */
  lemma LoadedStmt(e: Env, base: int, m: Store, root: nat, a: int)
    requires Bisimilar(e, base, m, root) && IsStmt(e, a)
    ensures a in m && m[a].StmtObj? && m[a].ty == StmtAt(e, a).ty && m[a].extra == StmtAt(e, a).extra
    ensures StmtAt(e, a).payload.Inline? ==> m[a].v == StmtAt(e, a).payload.word != 0
    ensures StmtAt(e, a).payload.To? ==>
              var t, r := m[a].v - base, StmtAt(e, a).payload.r;
              t in m && m[t].RecObj? && IsRec(e, t) && e.org[t].r == r && m[t].ty == e.g.recs[r].ty
  {
    assert Mirrors(e, base, m, a);
    if StmtAt(e, a).payload.To? {
      assert Mirrors(e, base, m, m[a].v - base);
    }
  }

  /** A loaded pointer field is NULL if its source is, or leads to a statement whose own pointer is NULL;
      any other leads to the loaded text or statement. */
  lemma LoadedField(e: Env, base: int, m: Store, root: nat, a: int, i: nat)
    requires Bisimilar(e, base, m, root) && IsRec(e, a) && i < |RecAt(e, a).fields|
    ensures a in m && m[a].RecObj? && i < |m[a].fields|
    ensures var x := m[a].fields[i];
            match RecAt(e, a).fields[i]
            case Null => x == 0
            case ToText(text) => x != 0 && x - base in m && m[x - base] == TextObj(text)
            case ToStmt(s) =>
              if s !in e.g.stmts || e.g.stmts[s].payload in {NoPayload, Inline(0)} then x == 0
              else x != 0 && x - base in m && m[x - base].StmtObj? && IsStmt(e, x - base) && e.org[x - base].s == s
  {
    assert Mirrors(e, base, m, a) && D.FieldAbs(e, base, m, a, i);
    if m[a].fields[i] != 0 {
      assert Mirrors(e, base, m, m[a].fields[i] - base);
    }
  }

  /** Statements that point to the same table, table alias, column alias, column or element of a column
      list point to the same loaded record. */
  lemma SharedOnce(e: Env, base: int, m: Store, root: nat, a: int, b: int)
    requires Bisimilar(e, base, m, root) && IsStmt(e, a) && IsStmt(e, b)
    requires StmtAt(e, a).payload.To? && StmtAt(e, b).payload == StmtAt(e, a).payload
    requires StmtAt(e, b).ty == StmtAt(e, a).ty
    requires StmtAt(e, a).ty in {CreateTable, TableAlias, ColumnAlias, Column, ColumnListAlias}
    ensures a in m && b in m && m[a].StmtObj? && m[b].StmtObj? && m[a].v == m[b].v
  {
    LoadedStmt(e, base, m, root, a);
    LoadedStmt(e, base, m, root, b);
    assert Mirrors(e, base, m, a) && Mirrors(e, base, m, b);
    assert SameSource(e, m[a].v - base, m[b].v - base);
  }

  /** The kinds whose records form rings. */
  const RINGS := {Join, ColumnListAlias, RowValue, ParameterTypeList, Column, Keyword, ColumnList, CasBranch}

  ghost predicate IsAlias(e: Env, a: int) { IsRec(e, a) && RecAt(e, a).ty.TableAlias? }

  ghost predicate AliasHas(e: Env, m: Store, k: int) {
    exists a {:trigger IsAlias(e, a)} :: IsAlias(e, a) && a in m && m[a].RecObj? && m[a].recomputed == k
  }

  /** Table aliases carry pairwise different identifiers, which are those of `[low, high)`. */
  ghost predicate FreshAliases(e: Env, m: Store, low: int, high: int) {
    && (forall k {:trigger AliasHas(e, m, k)} :: low <= k < high ==> AliasHas(e, m, k))
    && (forall a {:trigger IsAlias(e, a)} :: IsAlias(e, a) ==> a in m && m[a].RecObj? && low <= m[a].recomputed < high)
    && (forall a, b {:trigger IsAlias(e, a), IsAlias(e, b)} :: IsAlias(e, a) && IsAlias(e, b) && a != b ==>
          a in m && m[a].RecObj? && b in m && m[b].RecObj? && m[a].recomputed != m[b].recomputed)
  }

  /** One more than the new identifier of the table alias `r`. */
  ghost predicate NextId(e: Env, m: Store, x: int, r: nat) {
    exists t {:trigger IsAlias(e, t)} ::
      IsAlias(e, t) && e.org[t] == SRec(r, SHARED) && t in m && m[t].RecObj? && x == m[t].recomputed + 1
  }

  /** The join that a statement points to follows the table alias that it leads to, with the new
      identifier or, only if the alias also leads to the join, the stored one; any other keeps its maximum
      identifier. */
  ghost predicate JoinNumber(e: Env, m: Store, a: int) {
    IsRec(e, a) && RecAt(e, a).ty.Join? ==>
      && a in m && m[a].RecObj?
      && var b, alias := e.org[a].owner, D.JoinAlias(e.g, RecAt(e, a));
      if !(IsStmt(e, b) && StmtAt(e, b).payload == To(e.org[a].r)) then m[a].recomputed == RecAt(e, a).recomputed
      else alias.Some? ==>
        || NextId(e, m, m[a].recomputed, alias.value)
        || (&& alias.value in e.g.recs && m[a].recomputed == e.g.recs[alias.value].recomputed + 1
            && LeadsTo(e.g, RecNode(alias.value), RecNode(e.org[a].r)))
  }

  ghost predicate JoinNumbers(e: Env, m: Store) {
    forall a {:trigger JoinNumber(e, m, a)} :: JoinNumber(e, m, a)
  }

  /** The column at `a` points to the value of its first delimiter keyword, or nowhere. */
  ghost predicate ColumnDelim(e: Env, base: int, m: Store, a: int) {
    IsRec(e, a) && RecAt(e, a).ty.Column? ==>
      && a in m && m[a].RecObj? && |RecAt(e, a).fields| == 3
      && var x, ch := m[a].recomputed, RecAt(e, a).fields[2];
      if !Kept(e.g, ch) then x == 0
      else if ch.ToStmt? && e.g.stmts[ch.s].ty.Keyword? && e.g.stmts[ch.s].payload.To?
              && e.g.stmts[ch.s].payload.r in e.c.ring then
        match D.FirstDelim(e.g, e.c.ring[e.g.stmts[ch.s].payload.r], 0)
        case None => x == 0
        case Some(r) => KeywordValue(e, base, a, r, x)
      else true
  }

  ghost predicate KeywordValue(e: Env, base: int, a: int, r: nat, x: int) {
    exists k {:trigger D.KeywordCopy(e, a, k, r)} ::
      && D.KeywordCopy(e, a, k, r) && (x != 0 <==> Kept(e.g, RecAt(e, k).fields[0]))
      && (x != 0 ==> ChildAt(e, k, 0, x - base))
  }

  ghost predicate Delims(e: Env, base: int, m: Store) {
    forall a {:trigger ColumnDelim(e, base, m, a)} :: ColumnDelim(e, base, m, a)
  }

  /** The memory is a copy of the graph: some map from its objects to those of the graph is a
      bisimulation, the table aliases have new identifiers, the joins follow them and the columns have
      their delimiters. */
  ghost predicate Restored(g: Graph, c: Cert, isView: bool, root: nat, base: int, m: Store, low: int, high: int) {
    exists f: Env {:trigger Bisimilar(f, base, m, root)} ::
      && f.g == g && f.c == c && f.isView == isView
      && Bisimilar(f, base, m, root) && FreshAliases(f, m, low, high)
      && JoinNumbers(f, m) && Delims(f, base, m)
  }

  /** The part of the blob that decompression has reached. */
  ghost function Reached(e: Env, d: D.Progress): Env {
    e.(org := map a | a in e.org && (a in d.seen || a in d.prog || e.org[a].SText?) :: e.org[a])
  }

  lemma ReachedMirrors(e: Env, base: int, m: Store, d: D.Progress, a: int)
    requires D.Inv(e, base, m, d, -1) && d.busy == {} && d.looping == {}
    requires a in Reached(e, d).org
    ensures Mirrors(Reached(e, d), base, m, a)
  {
    var f := Reached(e, d);
    assert D.ObjInv(e, base, m, d, -1, a);
    if e.org[a].SRec? {
      forall i | 0 <= i < |m[a].fields| ensures D.FieldAbs(f, base, m, a, i) {
        assert D.FieldInv(e, base, m, d, -1, a, i);
      }
    }
  }

  /** When no call is left working, what was reached mirrors its source. */
  lemma ReachedBisimilar(e: Env, base: int, m: Store, d: D.Progress, root: nat)
    requires D.Inv(e, base, m, d, -1) && d.busy == {} && d.looping == {}
    requires 0 in d.seen && 0 in e.org && e.org[0] == SStmt(root, Root)
    ensures Bisimilar(Reached(e, d), base, m, root)
  {
    var f := Reached(e, d);
    forall a | a in f.org ensures Mirrors(f, base, m, a) {
      ReachedMirrors(e, base, m, d, a);
    }
    forall a, b | SameSource(f, a, b) ensures a == b {
      assert SameSource(e, a, b);
    }
  }

  lemma ReachedFresh(e: Env, base: int, m: Store, d: D.Progress, low: int, high: int)
    requires D.Inv(e, base, m, d, -1) && d.busy == {} && D.FreshIds(e, m, d, low, high)
    ensures FreshAliases(Reached(e, d), m, low, high)
  {
    var f := Reached(e, d);
    forall a | IsAlias(f, a) ensures D.FinishedAlias(e, m, d, a) {
      assert D.ObjInv(e, base, m, d, -1, a);
    }
    forall k | low <= k < high ensures AliasHas(f, m, k) {
      assert D.Used(e, m, d, k);
      var a :| D.FinishedAlias(e, m, d, a) && m[a].recomputed == k;
      assert a in e.org && D.ObjInv(e, base, m, d, -1, a);
      assert IsAlias(f, a);
    }
  }

  lemma ReachedNumbers(e: Env, base: int, m: Store, d: D.Progress)
    requires D.Inv(e, base, m, d, -1) && d.busy == {} && d.looping == {} && D.Ids(e, base, m, d)
    ensures JoinNumbers(Reached(e, d), m)
  {
    var f := Reached(e, d);
    forall a ensures JoinNumber(f, m, a) {
      if IsRec(f, a) && RecAt(f, a).ty.Join? {
        assert D.ObjInv(e, base, m, d, -1, a) && D.JoinId(e, m, d, a);
        var alias := D.JoinAlias(e.g, RecAt(e, a));
        if alias.Some? {
          if t :| D.NewAlias(e, m, d, t, alias.value) && m[a].recomputed == m[t].recomputed + 1 {
            assert D.ObjInv(e, base, m, d, -1, t);
            assert IsAlias(f, t);
          }
        }
      }
    }
  }

  lemma ReachedDelims(e: Env, base: int, m: Store, d: D.Progress)
    requires D.Inv(e, base, m, d, -1) && d.busy == {} && d.looping == {} && D.Ids(e, base, m, d)
    ensures Delims(Reached(e, d), base, m)
  {
    var f := Reached(e, d);
    forall a ensures ColumnDelim(f, base, m, a) {
      if IsRec(f, a) && RecAt(f, a).ty.Column? {
        assert D.ObjInv(e, base, m, d, -1, a) && RecWF(e.g, e.org[a].r) && D.ColumnId(e, base, m, d, a);
        forall k, r | D.KeywordCopy(e, a, k, r) && k in d.prog && e.org[k].owner in d.seen
          ensures D.KeywordCopy(f, a, k, r)
        {
        }
      }
    }
  }

  /** Loads a blob at address `base`, with identifiers from `planId` on. */
  method DecompressStatement(blob: Store, base: int, planId: int, ghost e: Env, ghost root: nat)
    returns (mem: Store, planId': int)
    requires Encoded(e, blob) && base > 0 && (forall a :: a in e.org ==> a >= 0)
    requires 0 in e.org && e.org[0] == SStmt(root, Root) && root in e.g.stmts
    ensures Restored(e.g, e.c, e.isView, root, base, mem, planId, planId')
  {
    hide Encoded, Bisimilar, FreshAliases;
    var l := new D.Loader(blob, base, planId, e);
    l.DecompressHelper(0);
    mem, planId' := l.mem, l.planId;
    ReachedBisimilar(e, base, mem, l.d, root);
    ReachedFresh(e, base, mem, l.d, planId, planId');
    ReachedNumbers(e, base, mem, l.d);
    ReachedDelims(e, base, mem, l.d);
    assert Bisimilar(Reached(e, l.d), base, mem, root);
  }

  /** Serializing the statement `root` and loading the blob at any address: either the statement
      counts as NULL and nothing is stored, or what is loaded is bisimilar to the graph, the
      writing pass filled exactly the cells that the counting pass counted, and the graph can be
      serialized again. */
  method StoreAndLoad(g: Graph, isView: bool, root: nat, bin: map<nat, int>, outBase: int, loadBase: int, planId: int,
      ghost c: Cert)
    returns (len: int, bin': map<nat, int>, mem: Store, planId': int, ghost counted: int)
    requires WellFormed(g, c) && root in g.stmts && bin.Keys == g.recs.Keys
    requires forall r :: r in g.recs && Shared(g.recs[r].ty) ==> bin[r] != MAX_BIN_DEFN_OFFSET
    requires outBase > 0 && loadBase > 0
    requires outBase + TotalSize(g, WalkChild(g, c, {}, ToStmt(root)).items) <= MAX_BIN_DEFN_OFFSET
    ensures len == counted && (len == 0 <==> Dropped(g.stmts[root]))
    ensures bin'.Keys == g.recs.Keys && forall r :: r in g.recs && Shared(g.recs[r].ty) ==>
      bin'[r] != MAX_BIN_DEFN_OFFSET
    ensures len != 0 ==> Restored(g, c, isView, root, loadBase, mem, planId, planId')
  {
    hide Encoded, Restored, TotalSize, WalkChild;
    var z := new C.Compressor(g, isView, outBase, bin, c);
    assert C.Counted(g, z.w) == {};
    ghost var first;
    counted, first := z.CompressStatement(root);
    len, bin', mem, planId' := z.w.len, z.w.bin, map[], planId;
    forall r | r in g.recs && Shared(g.recs[r].ty) ensures bin'[r] != MAX_BIN_DEFN_OFFSET {
      assert r !in C.Counted(g, z.w);
    }
    if len != 0 {
      mem, planId' := DecompressStatement(z.w.out, loadBase, planId, z.e, root);
    }
  }

  /** The offset reached from `a` after following `next` `n` times. */
  ghost function Follow(m: Store, base: int, a: int, n: nat): int {
    if n == 0 then a
    else
      var b := Follow(m, base, a, n - 1);
      if b in m && m[b].RecObj? then m[b].next - base else b
  }

  lemma {:induction false} FollowsRing(e: Env, base: int, m: Store, root: nat, a: int, n: nat)
    requires WellFormed(e.g, e.c) && Bisimilar(e, base, m, root)
    requires IsRec(e, a) && Ringed(RecAt(e, a).ty)
    requires e.org[a].r in e.c.ring && n <= |e.c.ring[e.org[a].r]|
    ensures var ring, b := e.c.ring[e.org[a].r], Follow(m, base, a, n);
            b in e.org && e.org[b] == SRec(if n < |ring| then ring[n] else e.org[a].r, e.org[a].owner)
  {
    var ring := e.c.ring[e.org[a].r];
    assert RingWF(e.g, e.c, e.org[a].r);
    if n > 0 {
      FollowsRing(e, base, m, root, a, n - 1);
      var b := Follow(m, base, a, n - 1);
      assert RingStep(e.g, ring, n - 1);
      assert Mirrors(e, base, m, b);
    }
  }

  /** In a loaded ring `prev` undoes `next`. */
  lemma PrevUndoesNext(e: Env, base: int, m: Store, root: nat, a: int)
    requires Bisimilar(e, base, m, root) && IsRec(e, a) && RecAt(e, a).ty in RINGS
    ensures a in m && m[a].RecObj? && var t := m[a].next - base; t in m && m[t].RecObj? && m[t].prev == base + a
  {
    assert Mirrors(e, base, m, a);
  }

  /** A loaded ring visits the copies of the original elements in the original order, and comes back
      to where it started after as many steps as the original and not before. */
  lemma RingCloses(e: Env, base: int, m: Store, root: nat, a: int)
    requires WellFormed(e.g, e.c) && Bisimilar(e, base, m, root)
    requires IsRec(e, a) && RecAt(e, a).ty in RINGS
    ensures e.org[a].r in e.c.ring
    ensures var ring := e.c.ring[e.org[a].r];
            && Follow(m, base, a, |ring|) == a
            && (forall n :: 0 <= n < |ring| ==>
                  Follow(m, base, a, n) in e.org && e.org[Follow(m, base, a, n)] == SRec(ring[n], e.org[a].owner))
            && (forall n :: 0 < n < |ring| ==> Follow(m, base, a, n) != a)
  {
    hide Mirrors, Follow;
    assert RingWF(e.g, e.c, e.org[a].r);
    var ring := e.c.ring[e.org[a].r];
    forall n | 0 <= n < |ring|
      ensures Follow(m, base, a, n) in e.org && e.org[Follow(m, base, a, n)] == SRec(ring[n], e.org[a].owner)
    {
      FollowsRing(e, base, m, root, a, n);
    }
    FollowsRing(e, base, m, root, a, |ring|);
    assert SameSource(e, Follow(m, base, a, |ring|), a);
  }
}
