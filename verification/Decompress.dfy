/**
 In-place decompression of a blob that was loaded at an arbitrary base address.  The traversal
 is depth first; each record's pointers are made absolute the first time it is met, and rings
 can be re-entered while an outer call is still working on them.
 */
module Decompress {
  import opened Common
  import opened ParseGraph
  import opened Blob

  // ----- pointers after conversion: absolute addresses

  ghost predicate StmtAbs(e: Env, base: int, m: Store, a: int) {
    && StmtShape(e, m, a)
    && var st := StmtAt(e, a);
    && (st.payload.Inline? ==> m[a].v == st.payload.word)
    && (st.payload.To? ==> PayloadAt(e, a, m[a].v - base))
  }

  ghost predicate FieldAbs(e: Env, base: int, m: Store, a: int, i: int) {
    && RecShape(e, m, a) && 0 <= i < |m[a].fields|
    && var x := m[a].fields[i];
    if Kept(e.g, RecAt(e, a).fields[i]) then x != 0 && ChildAt(e, a, i, x - base) else x == 0
  }

  ghost predicate LinkAbs(e: Env, base: int, m: Store, a: int) {
    && RecShape(e, m, a) && Ringed(m[a].ty)
    && var t := m[a].next - base;
    NextAt(e, a, t) && t in m && m[t].RecObj? && m[t].prev == base + a
  }

  // ----- how far the traversal has come

  /** `seen` are the statements entered, `prog` says how many fields of each entered record were
      started, `linked` are the records whose `next` is converted, and `busy` and `looping` are
      the records and statements that a call in progress is still working on. */
  datatype Progress = Progress(seen: set<int>, prog: map<int, nat>, linked: set<int>, busy: set<int>, looping: set<int>)

  ghost function Started(d: Progress, a: int): nat {
    if a in d.prog then d.prog[a] else 0
  }

  ghost predicate StmtInv(e: Env, base: int, m: Store, d: Progress, b: int) {
    if b in d.seen then StmtAbs(e, base, m, b) else StmtRel(e, m, b)
  }

  /** The child of field `i` is a statement that was entered, or the one about to be. */
  ghost predicate ChildSeen(e: Env, base: int, m: Store, d: Progress, pend: int, a: int, i: int) {
    && FieldAbs(e, base, m, a, i)
    && (Kept(e.g, RecAt(e, a).fields[i]) && RecAt(e, a).fields[i].ToStmt? ==>
          var t := m[a].fields[i] - base; t in d.seen || t == pend)
  }

  ghost predicate FieldInv(e: Env, base: int, m: Store, d: Progress, pend: int, a: int, i: int) {
    if i < Started(d, a) then ChildSeen(e, base, m, d, pend, a, i) else FieldRel(e, m, a, i)
  }

  ghost predicate FieldsInv(e: Env, base: int, m: Store, d: Progress, pend: int, a: int) {
    && RecShape(e, m, a)
    && forall i {:trigger FieldInv(e, base, m, d, pend, a, i)} :: 0 <= i < |m[a].fields| ==>
         FieldInv(e, base, m, d, pend, a, i)
  }

  ghost predicate NextInv(e: Env, base: int, m: Store, d: Progress, a: int) {
    if a in d.linked then LinkAbs(e, base, m, a) else NextRel(e, m, a) && Closed(e, m, {}, a)
  }

  /** The mark of a shared record says whether it was entered; an entered unshared record belongs
      to an entered statement; and a record that no call is working on any more has all its
      pointers converted and a successor that was entered as well. */
  ghost predicate RecMark(e: Env, base: int, m: Store, d: Progress, a: int) {
    && RecShape(e, m, a)
    && (Shared(m[a].ty) ==> (m[a].bin == 0 <==> a in d.prog))
    && (a in d.linked ==> a in d.prog)
    && (a in d.busy ==> a in d.prog)
    && (a in d.prog ==>
          && d.prog[a] <= Arity(m[a].ty)
          && (e.org[a].owner == SHARED || e.org[a].owner in d.seen))
    && (a in d.prog && a !in d.busy ==>
          && d.prog[a] == Arity(m[a].ty)
          && (Ringed(m[a].ty) ==> a in d.linked && m[a].next - base in d.prog))
  }

  /** An entered statement was reached through a started field, and unless a call is working on
      it, the record it points to was entered. */
  ghost predicate StmtMark(e: Env, base: int, m: Store, d: Progress, b: int) {
    && StmtShape(e, m, b)
    && (b in d.looping ==> b in d.seen)
    && (b in d.seen ==>
          && UpStarted(e, d, b)
          && (b !in d.looping && StmtAt(e, b).payload.To? ==> m[b].v - base in d.prog))
  }

  ghost predicate UpStarted(e: Env, d: Progress, b: int)
    requires IsStmt(e, b)
  {
    e.org[b].up.Field? ==> e.org[b].up.rec in d.prog && e.org[b].up.i < d.prog[e.org[b].up.rec]
  }

  ghost predicate ObjInv(e: Env, base: int, m: Store, d: Progress, pend: int, a: int) {
    && ShapeAt(e, m, a)
    && match e.org[a]
       case SStmt(_, _) => StmtInv(e, base, m, d, a) && StmtMark(e, base, m, d, a) && a !in d.prog
       case SRec(_, _) => FieldsInv(e, base, m, d, pend, a) && NextInv(e, base, m, d, a) && RecMark(e, base, m, d, a)
           && a !in d.seen
       case SText(_, _) => a !in d.seen && a !in d.prog
  }

  ghost predicate FinishedAlias(e: Env, m: Store, d: Progress, a: int) {
    a in d.prog && a !in d.busy && a in m && m[a].RecObj? && m[a].ty.TableAlias?
  }

  /** Some finished table alias has the identifier `k`. */
  ghost predicate Used(e: Env, m: Store, d: Progress, k: int) {
    exists a {:trigger FinishedAlias(e, m, d, a)} :: FinishedAlias(e, m, d, a) && m[a].recomputed == k
  }

  /** Finished table aliases carry pairwise different identifiers, which are those of `[low, planId)`. */
  ghost predicate FreshIds(e: Env, m: Store, d: Progress, low: int, planId: int) {
    && low <= planId
    && (forall k {:trigger Used(e, m, d, k)} :: low <= k < planId ==> Used(e, m, d, k))
    && (forall a {:trigger FinishedAlias(e, m, d, a)} :: FinishedAlias(e, m, d, a) ==> low <= m[a].recomputed < planId)
    && (forall a, b {:trigger FinishedAlias(e, m, d, a), FinishedAlias(e, m, d, b)} ::
          FinishedAlias(e, m, d, a) && FinishedAlias(e, m, d, b) && a != b ==> m[a].recomputed != m[b].recomputed)
  }

  /** `pend` is the statement that a converted field points to and that is entered next, or -1. */
  ghost predicate Inv(e: Env, base: int, m: Store, d: Progress, pend: int) {
    && base > 0 && (forall a :: a in e.org ==> a >= 0)
    && WellFormed(e.g, e.c) && RecsDistinct(e)
    && m.Keys == e.org.Keys
    && d.seen <= e.org.Keys && d.linked <= d.prog.Keys <= e.org.Keys
    && (forall a {:trigger ObjInv(e, base, m, d, pend, a)} :: a in e.org ==> ObjInv(e, base, m, d, pend, a))
  }

  /** What a call leaves alone: entered records outside `free` keep their state, and unshared
      records are entered only if they belong to `owners` or to a newly entered statement. */
  ghost predicate Extends(e: Env, d: Progress, d': Progress, free: set<int>, owners: set<int>) {
    && d.seen <= d'.seen && d.prog.Keys <= d'.prog.Keys
    && (forall a :: a in d.prog && a !in free ==> d'.prog[a] == d.prog[a] && (a in d'.linked <==> a in d.linked))
    && (forall a :: a in d'.prog && a !in d.prog && IsRec(e, a) ==>
          e.org[a].owner == SHARED || e.org[a].owner in owners || e.org[a].owner !in d.seen)
  }

  // ----- frames: a step touches few objects, the others keep their invariant

  ghost predicate Same(m: Store, d: Progress, m': Store, d': Progress, a: int) {
    && a in m && a in m' && m'[a] == m[a]
    && (a in d'.seen <==> a in d.seen) && (a in d'.looping <==> a in d.looping)
    && (a in d'.prog <==> a in d.prog) && Started(d', a) == Started(d, a)
    && (a in d'.linked <==> a in d.linked) && (a in d'.busy <==> a in d.busy)
  }

  ghost predicate Step(e: Env, m: Store, d: Progress, pend: int, m': Store, d': Progress, pend': int,
      touched: set<int>) {
    && m'.Keys == m.Keys
    && d.seen <= d'.seen <= e.org.Keys && d.prog.Keys <= d'.prog.Keys <= e.org.Keys && d'.linked <= d'.prog.Keys
    && (forall a {:trigger Started(d, a)} :: Started(d, a) <= Started(d', a))
    && (pend == pend' || pend == -1 || pend in d'.seen)
    && (forall a {:trigger Same(m, d, m', d', a)} :: a in e.org && a !in touched ==> Same(m, d, m', d', a))
  }

  lemma KeepStmt(e: Env, base: int, m: Store, d: Progress, m': Store, d': Progress, a: int)
    requires StmtInv(e, base, m, d, a) && StmtMark(e, base, m, d, a)
    requires Same(m, d, m', d', a)
    requires d.prog.Keys <= d'.prog.Keys && (forall x {:trigger Started(d, x)} :: Started(d, x) <= Started(d', x))
    ensures StmtInv(e, base, m', d', a) && StmtMark(e, base, m', d', a)
  {
    if e.org[a].up.Field? {
      assert Started(d, e.org[a].up.rec) <= Started(d', e.org[a].up.rec);
    }
  }

  lemma KeepFields(e: Env, base: int, m: Store, d: Progress, pend: int, m': Store, d': Progress, pend': int, a: int)
    requires FieldsInv(e, base, m, d, pend, a)
    requires Same(m, d, m', d', a) && d.seen <= d'.seen
    requires pend == pend' || pend == -1 || pend in d'.seen
    requires forall x :: x in e.org ==> x >= 0
    ensures FieldsInv(e, base, m', d', pend', a)
  {
    forall i | 0 <= i < |m'[a].fields| ensures FieldInv(e, base, m', d', pend', a, i) {
      assert FieldInv(e, base, m, d, pend, a, i);
    }
  }

  /** The targets of converted links keep their back links. */
  ghost predicate BackLinkKept(base: int, m: Store, m': Store, a: int) {
    a in m && m[a].RecObj? ==>
      var t := m[a].next - base;
      t in m && m[t].RecObj? && t in m' ==> m'[t].RecObj? && m'[t].prev == m[t].prev
  }

  ghost predicate BackLinksKept(base: int, m: Store, m': Store, d: Progress) {
    forall a {:trigger BackLinkKept(base, m, m', a)} :: a in d.linked ==> BackLinkKept(base, m, m', a)
  }

  lemma KeepRec(e: Env, base: int, m: Store, d: Progress, m': Store, d': Progress, a: int)
    requires NextInv(e, base, m, d, a) && RecMark(e, base, m, d, a)
    requires Same(m, d, m', d', a) && m'.Keys == m.Keys
    requires a in d.linked ==> BackLinkKept(base, m, m', a)
    requires d.seen <= d'.seen && d.prog.Keys <= d'.prog.Keys
    ensures NextInv(e, base, m', d', a) && RecMark(e, base, m', d', a)
  {
    if a !in d.linked {
      forall b ensures ClosedBy(e, m', {}, a, b) {
        assert ClosedBy(e, m, {}, a, b);
      }
    }
  }

  lemma StepKeeps(e: Env, base: int, m: Store, d: Progress, pend: int, m': Store, d': Progress, pend': int,
      touched: set<int>)
    requires Inv(e, base, m, d, pend)
    requires Step(e, m, d, pend, m', d', pend', touched)
    requires BackLinksKept(base, m, m', d)
    requires forall a :: a in touched && a in e.org ==> ObjInv(e, base, m', d', pend', a)
    ensures Inv(e, base, m', d', pend')
  {
    forall a | a in e.org ensures ObjInv(e, base, m', d', pend', a) {
      if a !in touched {
        assert ObjInv(e, base, m, d, pend, a);
        assert Same(m, d, m', d', a);
        match e.org[a]
        case SStmt(_, _) => KeepStmt(e, base, m, d, m', d', a);
        case SRec(_, _) =>
          KeepFields(e, base, m, d, pend, m', d', pend', a);
          assert a in d.linked ==> BackLinkKept(base, m, m', a);
          KeepRec(e, base, m, d, m', d', a);
        case SText(_, _) =>
      }
    }
  }

  // ----- identifiers of table aliases, and the maximum identifiers that joins note

  /** The table alias whose identifier a join takes over: that of its value or, if this is a set
      operation, of the right operand. */
  function JoinAlias(g: Graph, q: Rec): Option<nat> {
    match AliasOf(g, q, 0)
    case Some(r) => Some(r)
    case None =>
      if |q.fields| > 0 && q.fields[0].ToStmt? && q.fields[0].s in g.stmts then
        var st := g.stmts[q.fields[0].s];
        if st.ty.SetOperation? && st.payload.To? && st.payload.r in g.recs
        then AliasOf(g, g.recs[st.payload.r], 1) else None
      else None
  }

  function AliasOf(g: Graph, q: Rec, i: nat): Option<nat> {
    if i < |q.fields| && q.fields[i].ToStmt? && q.fields[i].s in g.stmts then
      var st := g.stmts[q.fields[i].s];
      if st.ty.TableAlias? && st.payload.To? then Some(st.payload.r) else None
    else None
  }

  /** The table alias of a join is what its value points to, or what the right operand of its value does. */
  lemma JoinAliasIs(g: Graph, q: Rec, s: nat)
    requires |q.fields| > 0 && q.fields[0] == ToStmt(s) && s in g.stmts && g.stmts[s].payload.To?
    ensures g.stmts[s].ty == TableAlias ==> JoinAlias(g, q) == Some(g.stmts[s].payload.r)
    ensures g.stmts[s].ty == SetOperation && g.stmts[s].payload.r in g.recs ==>
              var operation := g.recs[g.stmts[s].payload.r];
              |operation.fields| > 1 && operation.fields[1].ToStmt? && operation.fields[1].s in g.stmts ==>
                var right := g.stmts[operation.fields[1].s];
                right.ty == TableAlias && right.payload.To? ==> JoinAlias(g, q) == Some(right.payload.r)
  {
  }

  ghost predicate IsA(e: Env, m: Store, a: int, ty: StmtType) {
    IsRec(e, a) && RecAt(e, a).ty == ty && a in m && m[a].RecObj? && m[a].ty == ty
  }

  /** The statement that owns the join points to it and is done with. */
  ghost predicate JoinDone(e: Env, d: Progress, a: int) {
    && IsRec(e, a) && RecAt(e, a).ty.Join?
    && IsStmt(e, e.org[a].owner) && StmtAt(e, e.org[a].owner).payload == To(e.org[a].r)
    && e.org[a].owner in d.seen && e.org[a].owner !in d.looping
  }

  ghost predicate NewAlias(e: Env, m: Store, d: Progress, t: int, r: nat) {
    t in e.org && e.org[t] == SRec(r, SHARED) && FinishedAlias(e, m, d, t)
  }

  /** One more than the identifier of the table alias: the new one or, if the alias leads to the join and
      was still being worked on, the one it was stored with. */
  ghost predicate MaxId(e: Env, m: Store, d: Progress, a: int, r: nat)
    requires IsRec(e, a) && a in m && m[a].RecObj?
  {
    || (&& r in e.g.recs && m[a].recomputed == e.g.recs[r].recomputed + 1
        && LeadsTo(e.g, RecNode(r), RecNode(e.org[a].r)))
    || (exists t {:trigger NewAlias(e, m, d, t, r)} ::
          NewAlias(e, m, d, t, r) && m[a].recomputed == m[t].recomputed + 1)
  }

  ghost predicate BusyAlias(e: Env, busy: set<int>, t: int) {
    t in busy && IsRec(e, t) && RecAt(e, t).ty.TableAlias?
  }

  /** The table aliases that are being worked on lead to `n`. */
  ghost predicate Under(e: Env, busy: set<int>, n: Node) {
    forall t {:trigger BusyAlias(e, busy, t)} :: BusyAlias(e, busy, t) ==> LeadsTo(e.g, RecNode(e.org[t].r), n)
  }

  lemma UnderPayload(e: Env, busy: set<int>, b: int)
    requires IsStmt(e, b) && StmtAt(e, b).payload.To? && Under(e, busy, StmtNode(e.org[b].s))
    ensures Under(e, busy, RecNode(StmtAt(e, b).payload.r))
  {
    forall t | BusyAlias(e, busy, t) ensures LeadsTo(e.g, RecNode(e.org[t].r), RecNode(StmtAt(e, b).payload.r)) {
      LeadsToPayload(e.g, RecNode(e.org[t].r), e.org[b].s);
    }
  }

  lemma UnderRing(e: Env, busy: set<int>, r: nat, k: nat)
    requires r in e.g.recs && RingWF(e.g, e.c, r) && k < |e.c.ring[r]| && Under(e, busy, RecNode(r))
    ensures Under(e, busy, RecNode(e.c.ring[r][k]))
  {
    forall t | BusyAlias(e, busy, t) ensures LeadsTo(e.g, RecNode(e.org[t].r), RecNode(e.c.ring[r][k])) {
      LeadsToRing(e.g, e.c, RecNode(e.org[t].r), r, k);
    }
  }

  lemma UnderField(e: Env, busy: set<int>, a: int, i: nat)
    requires IsRec(e, a) && i < |RecAt(e, a).fields| && RecAt(e, a).fields[i].ToStmt?
    requires Under(e, busy, RecNode(e.org[a].r))
    ensures Under(e, busy, StmtNode(RecAt(e, a).fields[i].s))
  {
    forall t | BusyAlias(e, busy, t) ensures LeadsTo(e.g, RecNode(e.org[t].r), StmtNode(RecAt(e, a).fields[i].s)) {
      LeadsToField(e.g, RecNode(e.org[t].r), e.org[a].r, i);
    }
  }

  /** Work on record `a` begins, or on a record that is no table alias. */
  lemma UnderMore(e: Env, busy: set<int>, a: int, n: Node)
    requires IsRec(e, a) && Under(e, busy, n) && (RecAt(e, a).ty.TableAlias? ==> n == RecNode(e.org[a].r))
    ensures Under(e, busy + {a}, n)
  {
    forall t | BusyAlias(e, busy + {a}, t) ensures LeadsTo(e.g, RecNode(e.org[t].r), n) {
      assert t != a ==> BusyAlias(e, busy, t);
    }
  }

  ghost predicate AliasCopy(e: Env, m: Store, t: int, r: nat) {
    IsA(e, m, t, TableAlias) && e.org[t] == SRec(r, SHARED)
  }

  /** The join at `a` gets one more than the identifier of its table alias, the stored one exactly if the
      alias is being worked on; nothing else changes. */
  ghost predicate TakesOver(e: Env, m: Store, busy: set<int>, a: int, m': Store) {
    && IsA(e, m, a, Join)
    && match JoinAlias(e.g, RecAt(e, a))
       case None => m' == m
       case Some(r) =>
         exists t {:trigger AliasCopy(e, m, t, r)} ::
           && AliasCopy(e, m, t, r)
           && var id := if t in busy then RecAt(e, t).recomputed else m[t].recomputed;
              m' == m[a := m[a].(recomputed := id + 1)]
  }

  ghost function TookOver(e: Env, m: Store, a: int, t: int): Store
    requires IsA(e, m, a, Join) && (JoinAlias(e.g, RecAt(e, a)).Some? ==> IsA(e, m, t, TableAlias))
  {
    if JoinAlias(e.g, RecAt(e, a)).Some? then m[a := m[a].(recomputed := m[t].recomputed + 1)] else m
  }

  ghost predicate JoinId(e: Env, m: Store, d: Progress, a: int) {
    IsA(e, m, a, Join) ==>
      if JoinDone(e, d, a)
      then JoinAlias(e.g, RecAt(e, a)).Some? ==> MaxId(e, m, d, a, JoinAlias(e.g, RecAt(e, a)).value)
      else m[a].recomputed == RecAt(e, a).recomputed
  }

  /** A table alias has the identifier that it was stored with until it is finished. */
  ghost predicate AliasId(e: Env, m: Store, d: Progress, a: int) {
    IsA(e, m, a, TableAlias) && !FinishedAlias(e, m, d, a) ==> m[a].recomputed == RecAt(e, a).recomputed
  }

  const OPTIONAL_DELIM := 7

  predicate IsDelim(g: Graph, r: nat) {
    r in g.recs && |g.recs[r].data| > 0 && g.recs[r].data[0] == OPTIONAL_DELIM
  }

  /** The first delimiter keyword of a ring, from position `j` on. */
  function FirstDelim(g: Graph, ring: seq<nat>, j: nat): Option<nat>
    decreases |ring| - j
  {
    if j >= |ring| then None else if IsDelim(g, ring[j]) then Some(ring[j]) else FirstDelim(g, ring, j + 1)
  }

  /** It is a delimiter keyword, and none comes before it. */
  lemma {:induction false} FirstDelimIs(g: Graph, ring: seq<nat>, j: nat)
    requires j <= |ring|
    ensures match FirstDelim(g, ring, j)
            case None => forall i :: j <= i < |ring| ==> !IsDelim(g, ring[i])
            case Some(r) =>
              exists i :: j <= i < |ring| && ring[i] == r && IsDelim(g, r)
                          && forall h :: j <= h < i ==> !IsDelim(g, ring[h])
    decreases |ring| - j
  {
    if j < |ring| && !IsDelim(g, ring[j]) {
      FirstDelimIs(g, ring, j + 1);
    }
  }

  /** The record at `k` is the copy of keyword `r` of the column at `a`. */
  ghost predicate KeywordCopy(e: Env, a: int, k: int, r: nat) {
    && IsRec(e, k) && e.org[k].r == r && |RecAt(e, k).fields| > 0
    && IsStmt(e, e.org[k].owner) && e.org[e.org[k].owner].up == Field(a, 2)
  }

  /** `x` is the address of the value of this keyword, or NULL if it has none. */
  ghost predicate DelimOf(e: Env, base: int, d: Progress, a: int, r: nat, x: int) {
    exists k {:trigger KeywordCopy(e, a, k, r)} ::
      && KeywordCopy(e, a, k, r) && (x != 0 <==> Kept(e.g, RecAt(e, k).fields[0]))
      && (x != 0 ==> ChildAt(e, k, 0, x - base) && x - base in d.seen)
      && k in d.prog && e.org[k].owner in d.seen
  }

  /** `x` is the delimiter of the column at `a`: the value of its first delimiter keyword, or NULL. */
  ghost predicate DelimAt(e: Env, base: int, d: Progress, a: int, x: int) {
    IsRec(e, a) && |RecAt(e, a).fields| == 3 ==>
      var ch := RecAt(e, a).fields[2];
      if !Kept(e.g, ch) then x == 0
      else if ch.ToStmt? && e.g.stmts[ch.s].ty.Keyword? && e.g.stmts[ch.s].payload.To?
              && e.g.stmts[ch.s].payload.r in e.c.ring then
        match FirstDelim(e.g, e.c.ring[e.g.stmts[ch.s].payload.r], 0)
        case None => x == 0
        case Some(r) => DelimOf(e, base, d, a, r, x)
      else true
  }

  lemma DelimMore(e: Env, base: int, d: Progress, d': Progress, a: int, x: int)
    requires DelimAt(e, base, d, a, x) && d.prog.Keys <= d'.prog.Keys && d.seen <= d'.seen
    ensures DelimAt(e, base, d', a, x)
  {
    hide FirstDelim, Kept;
  }

  ghost predicate ColumnId(e: Env, base: int, m: Store, d: Progress, a: int) {
    a in d.linked && IsA(e, m, a, Column) ==> DelimAt(e, base, d, a, m[a].recomputed)
  }

  /** A column that is linked had its delimiter before, or has it now. */
  ghost predicate DelimKept(e: Env, base: int, m: Store, d: Progress, m': Store, d': Progress, a: int) {
    a in d'.linked && IsA(e, m', a, Column) ==>
      || (a in d.linked && IsA(e, m, a, Column) && m'[a].recomputed == m[a].recomputed)
      || DelimAt(e, base, d', a, m'[a].recomputed)
  }

  ghost predicate Ids(e: Env, base: int, m: Store, d: Progress) {
    && (forall a {:trigger JoinId(e, m, d, a)} :: JoinId(e, m, d, a))
    && (forall a {:trigger AliasId(e, m, d, a)} :: AliasId(e, m, d, a))
    && (forall a {:trigger ColumnId(e, base, m, d, a)} :: ColumnId(e, base, m, d, a))
  }

  ghost predicate IdKept(m: Store, m': Store, a: int) {
    && (a in m' <==> a in m)
    && (a in m ==> m'[a].RecObj? == m[a].RecObj?)
    && (a in m && m[a].RecObj? ==>
          m'[a].ty == m[a].ty && (m[a].ty.Join? || m[a].ty.TableAlias? ==> m'[a].recomputed == m[a].recomputed))
  }

  /** A step that finishes no table alias and no join. */
  lemma FreshKept(e: Env, base: int, m: Store, d: Progress, m': Store, d': Progress, low: int, planId: int)
    requires FreshIds(e, m, d, low, planId) && Ids(e, base, m, d)
    requires forall a {:trigger IdKept(m, m', a)} :: IdKept(m, m', a)
    requires forall a {:trigger FinishedAlias(e, m', d', a)} {:trigger FinishedAlias(e, m, d, a)} ::
               FinishedAlias(e, m', d', a) <==> FinishedAlias(e, m, d, a)
    requires forall a {:trigger JoinDone(e, d', a)} :: JoinDone(e, d', a) <==> JoinDone(e, d, a)
    requires forall a {:trigger DelimKept(e, base, m, d, m', d', a)} :: DelimKept(e, base, m, d, m', d', a)
    requires d.prog.Keys <= d'.prog.Keys && d.seen <= d'.seen
    ensures FreshIds(e, m', d', low, planId) && Ids(e, base, m', d')
  {
    forall a, b | FinishedAlias(e, m', d', a) && FinishedAlias(e, m', d', b) && a != b
      ensures low <= m'[a].recomputed < planId && m'[a].recomputed != m'[b].recomputed
    {
      assert IdKept(m, m', a) && IdKept(m, m', b) && FinishedAlias(e, m, d, a) && FinishedAlias(e, m, d, b);
    }
    forall a | FinishedAlias(e, m', d', a) ensures low <= m'[a].recomputed < planId {
      assert IdKept(m, m', a) && FinishedAlias(e, m, d, a);
    }
    forall k | low <= k < planId ensures Used(e, m', d', k) {
      assert Used(e, m, d, k);
      var a :| FinishedAlias(e, m, d, a) && m[a].recomputed == k;
      assert FinishedAlias(e, m', d', a) && IdKept(m, m', a);
    }
    forall a ensures AliasId(e, m', d', a) {
      assert AliasId(e, m, d, a) && IdKept(m, m', a);
    }
    forall a ensures JoinId(e, m', d', a) {
      JoinIdKept(e, m, d, m', d', a);
    }
    forall a ensures ColumnId(e, base, m', d', a) {
      assert ColumnId(e, base, m, d, a) && DelimKept(e, base, m, d, m', d', a);
      if a in d.linked && IsA(e, m, a, Column) {
        DelimMore(e, base, d, d', a, m[a].recomputed);
      }
    }
  }

  lemma NoIds(e: Env, base: int, m: Store)
    requires Encoded(e, m)
    ensures Ids(e, base, m, Progress({}, map[], {}, {}, {}))
  {
    var d := Progress({}, map[], {}, {}, {});
    forall a ensures JoinId(e, m, d, a) && AliasId(e, m, d, a) && ColumnId(e, base, m, d, a) {
      assert IsRec(e, a) ==> NextRel(e, m, a);
    }
  }

  lemma FreshNext(e: Env, m: Store, d: Progress, a: int, low: int, planId: int)
    requires FreshIds(e, m, d, low, planId) && a in d.prog && a in d.busy && a in m && m[a].RecObj?
    requires m[a].ty.TableAlias?
    ensures FreshIds(e, m[a := m[a].(recomputed := planId)], d.(busy := d.busy - {a}), low, planId + 1)
  {
    var m', d' := m[a := m[a].(recomputed := planId)], d.(busy := d.busy - {a});
    forall x {:trigger FinishedAlias(e, m', d', x)}
      ensures FinishedAlias(e, m', d', x) && x != a ==> FinishedAlias(e, m, d, x) && m'[x] == m[x]
    {
    }
    forall k | low <= k < planId + 1 ensures Used(e, m', d', k) {
      if k == planId {
        assert FinishedAlias(e, m', d', a);
      } else {
        assert Used(e, m, d, k);
        var x :| FinishedAlias(e, m, d, x) && m[x].recomputed == k;
        assert FinishedAlias(e, m', d', x);
      }
    }
  }

  /** A table alias is finished and takes a new identifier. */
  lemma AliasFinished(e: Env, base: int, m: Store, d: Progress, a: int, id: int)
    requires Ids(e, base, m, d) && a in d.prog && a in d.busy && IsA(e, m, a, TableAlias)
    ensures Ids(e, base, m[a := m[a].(recomputed := id)], d.(busy := d.busy - {a}))
  {
    var m', d' := m[a := m[a].(recomputed := id)], d.(busy := d.busy - {a});
    forall x ensures AliasId(e, m', d', x) && ColumnId(e, base, m', d', x) {
      assert AliasId(e, m, d, x) && ColumnId(e, base, m, d, x);
      if x in d.linked && IsA(e, m, x, Column) {
        DelimMore(e, base, d, d', x, m[x].recomputed);
      }
    }
    forall x ensures JoinId(e, m', d', x) {
      assert JoinId(e, m, d, x) && (JoinDone(e, d', x) <==> JoinDone(e, d, x));
      if IsA(e, m', x, Join) && JoinDone(e, d', x) && JoinAlias(e.g, RecAt(e, x)).Some? {
        var r := JoinAlias(e.g, RecAt(e, x)).value;
        if t :| NewAlias(e, m, d, t, r) && m[x].recomputed == m[t].recomputed + 1 {
          assert NewAlias(e, m', d', t, r);
        }
      }
    }
  }

  /** A write to a join leaves the identifiers of table aliases alone. */
  lemma FreshBeside(e: Env, m: Store, d: Progress, m': Store, d': Progress, a: int, low: int, planId: int)
    requires FreshIds(e, m, d, low, planId) && a in m && m[a].RecObj? && m[a].ty.Join?
    requires a in m' && m'[a].RecObj? && m'[a].ty.Join? && m' == m[a := m'[a]]
    requires d'.prog == d.prog && d'.busy == d.busy
    ensures FreshIds(e, m', d', low, planId)
  {
    forall x {:trigger FinishedAlias(e, m', d', x)} ensures FinishedAlias(e, m', d', x) ==> FinishedAlias(e, m, d, x) {
    }
    forall k | low <= k < planId ensures Used(e, m', d', k) {
      assert Used(e, m, d, k);
      var x :| FinishedAlias(e, m, d, x) && m[x].recomputed == k;
      assert FinishedAlias(e, m', d', x);
    }
  }

  lemma TakenOver(e: Env, base: int, m: Store, d: Progress, a: int, t: int)
    requires Ids(e, base, m, d) && IsA(e, m, a, Join)
    requires match JoinAlias(e.g, RecAt(e, a))
             case None => true
             case Some(r) => AliasCopy(e, m, t, r)
    ensures TakesOver(e, m, d.busy, a, TookOver(e, m, a, t))
  {
    assert AliasId(e, m, d, t);
  }

  /** The join that statement `b` points to takes over the identifier of the table alias at `t`. */
  lemma JoinFinished(e: Env, base: int, m: Store, d: Progress, b: int, a: int, t: int)
    requires Ids(e, base, m, d) && RecsDistinct(e) && IsStmt(e, b) && PayloadAt(e, b, a) && IsA(e, m, a, Join)
    requires e.org[a].owner == b && b in d.looping && b in d.seen
    requires JoinAlias(e.g, RecAt(e, a)).Some? ==>
               && t in e.org && e.org[t] == SRec(JoinAlias(e.g, RecAt(e, a)).value, SHARED)
               && IsA(e, m, t, TableAlias) && t in d.prog
    requires Under(e, d.busy, RecNode(e.org[a].r))
    ensures Ids(e, base, TookOver(e, m, a, t), d.(looping := d.looping - {b}))
  {
    var d' := d.(looping := d.looping - {b});
    var some := JoinAlias(e.g, RecAt(e, a)).Some?;
    var m' := TookOver(e, m, a, t);
    forall x ensures AliasId(e, m', d', x) && ColumnId(e, base, m', d', x) {
      assert AliasId(e, m, d, x) && ColumnId(e, base, m, d, x);
      if x in d.linked && IsA(e, m, x, Column) {
        DelimMore(e, base, d, d', x, m[x].recomputed);
      }
    }
    forall x ensures JoinId(e, m', d', x) {
      assert JoinId(e, m, d, x);
      if x == a {
        if some {
          assert AliasId(e, m, d, t) && t != a && m'[t] == m[t];
          var r := JoinAlias(e.g, RecAt(e, a)).value;
          assert m'[a].recomputed == m'[t].recomputed + 1;
          assert FinishedAlias(e, m, d, t) ==> NewAlias(e, m', d', t, r);
          assert !FinishedAlias(e, m, d, t) ==> m[t].recomputed == e.g.recs[r].recomputed && BusyAlias(e, d.busy, t);
          assert MaxId(e, m', d', a, r);
        }
      } else if IsA(e, m', x, Join) {
        assert JoinDone(e, d', x) && !JoinDone(e, d, x) ==> SameSource(e, x, a);
        if JoinDone(e, d, x) && JoinAlias(e.g, RecAt(e, x)).Some? {
          var r := JoinAlias(e.g, RecAt(e, x)).value;
          if u :| NewAlias(e, m, d, u, r) && m[x].recomputed == m[u].recomputed + 1 {
            assert u != a && m'[u] == m[u] && NewAlias(e, m', d', u, r);
          }
          assert MaxId(e, m', d', x, r);
        }
      }
    }
  }

  /** What a converted field of a record leads to. */
  lemma Leads(e: Env, base: int, m: Store, d: Progress, a: int, i: nat)
    requires Inv(e, base, m, d, -1) && IsRec(e, a) && a in d.prog && (a !in d.busy || i < d.prog[a])
    requires i < Arity(RecAt(e, a).ty) && !RecAt(e, a).ty.ValueLiteral?
    ensures a in m && m[a].RecObj? && m[a].ty == RecAt(e, a).ty && i < |m[a].fields| == |RecAt(e, a).fields|
    ensures Kept(e.g, RecAt(e, a).fields[i]) <==> m[a].fields[i] != 0
    ensures m[a].fields[i] != 0 ==>
              var t := m[a].fields[i] - base;
              && IsStmt(e, t) && t in d.seen
              && e.org[t].up == Field(a, i) && RecAt(e, a).fields[i] == ToStmt(e.org[t].s)
              && t in m && m[t].StmtObj? && m[t].ty == StmtAt(e, t).ty
              && (StmtAt(e, t).payload.To? ==> PayloadAt(e, t, m[t].v - base))
              && (!m[t].ty.DataTypeStruct? ==> StmtAt(e, t).payload.To?)
  {
    assert ObjInv(e, base, m, d, -1, a) && FieldInv(e, base, m, d, -1, a, i);
    assert RecWF(e.g, e.org[a].r) && FieldWF(e.g, RecAt(e, a), i);
    if m[a].fields[i] != 0 {
      var t := m[a].fields[i] - base;
      assert ObjInv(e, base, m, d, -1, t);
      assert StmtWF(e.g, e.org[t].s);
    }
  }

  /** The state before statement `b` was entered. */
  ghost predicate Before(e: Env, base: int, m: Store, d: Progress, b: int) {
    Inv(e, base, m, d, b) && IsStmt(e, b) && b !in d.seen && UpStarted(e, d, b)
  }

  /** What is below statement `b` was not entered before it. */
  lemma RecNotEntered(e: Env, base: int, m: Store, d: Progress, b: int, a: int)
    requires Before(e, base, m, d, b) && IsRec(e, a) && e.org[a].owner != SHARED && e.org[a].owner !in d.seen
    ensures a !in d.prog && a !in d.busy
  {
    assert ObjInv(e, base, m, d, b, a);
  }

  lemma StmtNotEntered(e: Env, base: int, m: Store, d: Progress, b: int, a: int, t: int)
    requires Before(e, base, m, d, b) && a !in d.prog && IsStmt(e, t) && e.org[t].up.Field? && e.org[t].up.rec == a
    ensures t !in d.seen && t !in d.looping && t != b
  {
    assert ObjInv(e, base, m, d, b, t);
  }

  lemma JoinIdKept(e: Env, m: Store, d: Progress, m': Store, d': Progress, a: int)
    requires JoinId(e, m, d, a) && (JoinDone(e, d', a) <==> JoinDone(e, d, a))
    requires forall t {:trigger IdKept(m, m', t)} :: IdKept(m, m', t)
    requires forall t {:trigger FinishedAlias(e, m, d, t)} :: FinishedAlias(e, m, d, t) ==> FinishedAlias(e, m', d', t)
    ensures JoinId(e, m', d', a)
  {
    assert IdKept(m, m', a);
    if IsA(e, m', a, Join) && JoinDone(e, d', a) && JoinAlias(e.g, RecAt(e, a)).Some? {
      var r := JoinAlias(e.g, RecAt(e, a)).value;
      if t :| NewAlias(e, m, d, t, r) && m[a].recomputed == m[t].recomputed + 1 {
        assert IdKept(m, m', t) && NewAlias(e, m', d', t, r);
      }
    }
  }

  // ----- one step each

  lemma EnterStmt(e: Env, base: int, m: Store, d: Progress, b: int)
    requires Inv(e, base, m, d, b)
    requires IsStmt(e, b) && b !in d.seen && StmtAt(e, b).payload.To? && StmtRel(e, m, b)
    requires UpStarted(e, d, b)
    ensures Inv(e, base, m[b := m[b].(v := base + b + V + m[b].v)],
                d.(seen := d.seen + {b}, looping := d.looping + {b}), -1)
  {
    var m' := m[b := m[b].(v := base + b + V + m[b].v)];
    var d' := d.(seen := d.seen + {b}, looping := d.looping + {b});
    assert ObjInv(e, base, m, d, b, b);
    assert ObjInv(e, base, m', d', -1, b);
    StepKeeps(e, base, m, d, b, m', d', -1, {b});
  }

  lemma EnterInline(e: Env, base: int, m: Store, d: Progress, b: int)
    requires Inv(e, base, m, d, b)
    requires IsStmt(e, b) && b !in d.seen && StmtAt(e, b).payload.Inline?
    requires UpStarted(e, d, b)
    ensures Inv(e, base, m, d.(seen := d.seen + {b}), -1)
  {
    var d' := d.(seen := d.seen + {b});
    assert ObjInv(e, base, m, d, b, b);
    assert ObjInv(e, base, m, d', -1, b);
    StepKeeps(e, base, m, d, b, m, d', -1, {b});
  }

  lemma LeaveStmt(e: Env, base: int, m: Store, d: Progress, b: int)
    requires Inv(e, base, m, d, -1)
    requires IsStmt(e, b) && b in d.seen && b in m && m[b].StmtObj? && m[b].v - base in d.prog
    ensures Inv(e, base, m, d.(looping := d.looping - {b}), -1)
  {
    var d' := d.(looping := d.looping - {b});
    assert ObjInv(e, base, m, d, -1, b);
    assert ObjInv(e, base, m, d', -1, b);
    StepKeeps(e, base, m, d, -1, m, d', -1, {b});
  }

  /** Entering a shared record clears its `bin_defn_offset`. */
  function Unmarked(m: Store, a: int): Store
    requires a in m && m[a].RecObj?
  {
    if Shared(m[a].ty) then m[a := m[a].(bin := 0)] else m
  }

  lemma EnterRec(e: Env, base: int, m: Store, d: Progress, a: int)
    requires Inv(e, base, m, d, -1)
    requires IsRec(e, a) && a !in d.prog && a in m && m[a].RecObj?
    requires e.org[a].owner == SHARED || e.org[a].owner in d.seen
    ensures Inv(e, base, Unmarked(m, a), d.(prog := d.prog[a := 0], busy := d.busy + {a}), -1)
  {
    var m' := Unmarked(m, a);
    var d' := d.(prog := d.prog[a := 0], busy := d.busy + {a});
    assert ObjInv(e, base, m, d, -1, a);
    assert ObjInv(e, base, m', d', -1, a) by {
      assert FieldsInv(e, base, m', d', -1, a) by {
        forall i | 0 <= i < |m'[a].fields| ensures FieldInv(e, base, m', d', -1, a, i) {
          assert FieldInv(e, base, m, d, -1, a, i);
        }
      }
      forall b ensures ClosedBy(e, m', {}, a, b) {
        assert ClosedBy(e, m, {}, a, b);
      }
    }
    assert forall x :: Started(d', x) == Started(d, x);
    StepKeeps(e, base, m, d, -1, m', d', -1, {a});
  }

  /** A field that holds no pointer is passed over. */
  lemma SkipField(e: Env, base: int, m: Store, d: Progress, a: int, i: nat)
    requires Inv(e, base, m, d, -1)
    requires IsRec(e, a) && a in d.busy && a in d.prog && d.prog[a] == i
    requires a in m && m[a].RecObj? && i < |m[a].fields| && m[a].fields[i] == 0
    ensures Inv(e, base, m, d.(prog := d.prog[a := i + 1]), -1)
  {
    var d' := d.(prog := d.prog[a := i + 1]);
    assert ObjInv(e, base, m, d, -1, a);
    assert FieldInv(e, base, m, d, -1, a, i);
    assert ObjInv(e, base, m, d', -1, a) by {
      forall j | 0 <= j < |m[a].fields| ensures FieldInv(e, base, m, d', -1, a, j) {
        assert FieldInv(e, base, m, d, -1, a, j);
      }
    }
    StepKeeps(e, base, m, d, -1, m, d', -1, {a});
  }

  function FieldSet(m: Store, a: int, i: nat, x: int): Store
    requires a in m && m[a].RecObj? && i < |m[a].fields|
  {
    m[a := m[a].(fields := m[a].fields[i := x])]
  }

  lemma FieldConverted(e: Env, base: int, m: Store, d: Progress, a: int, i: nat, pend': int)
    requires Inv(e, base, m, d, -1)
    requires IsRec(e, a) && a in d.busy && a in d.prog && d.prog[a] == i
    requires a in m && m[a].RecObj? && i < |m[a].fields| && m[a].fields[i] != 0
    requires pend' == if m[a].ty.ValueLiteral? then -1 else a + i + m[a].fields[i]
    ensures ObjInv(e, base, FieldSet(m, a, i, base + a + i + m[a].fields[i]), d.(prog := d.prog[a := i + 1]), pend', a)
  {
    var m' := FieldSet(m, a, i, base + a + i + m[a].fields[i]);
    var d' := d.(prog := d.prog[a := i + 1]);
    assert ObjInv(e, base, m, d, -1, a);
    assert FieldInv(e, base, m, d, -1, a, i);
    assert RecWF(e.g, e.org[a].r);
    assert FieldWF(e.g, RecAt(e, a), i);
    forall j | 0 <= j < |m'[a].fields| ensures FieldInv(e, base, m', d', pend', a, j) {
      assert FieldInv(e, base, m, d, -1, a, j);
    }
    forall b ensures ClosedBy(e, m', {}, a, b) {
      assert a !in d.linked ==> ClosedBy(e, m, {}, a, b);
    }
  }

  /** A field that is not converted leads to a statement that was not entered. */
  lemma FieldTarget(e: Env, base: int, m: Store, d: Progress, a: int, i: nat)
    requires Inv(e, base, m, d, -1)
    requires IsRec(e, a) && a in d.prog && d.prog[a] == i
    requires a in m && m[a].RecObj? && i < |m[a].fields| && m[a].fields[i] != 0 && !m[a].ty.ValueLiteral?
    ensures var t := a + i + m[a].fields[i];
            && IsStmt(e, t) && t !in d.seen && UpStarted(e, d.(prog := d.prog[a := i + 1]), t)
            && i < |RecAt(e, a).fields| && RecAt(e, a).fields[i] == ToStmt(e.org[t].s)
  {
    assert ObjInv(e, base, m, d, -1, a) && FieldInv(e, base, m, d, -1, a, i);
    assert RecWF(e.g, e.org[a].r) && FieldWF(e.g, RecAt(e, a), i);
    assert ObjInv(e, base, m, d, -1, a + i + m[a].fields[i]);
  }

  /** A field that holds a pointer is made absolute, and its target is a text, or a statement
      that has not been entered yet. */
  lemma ConvertField(e: Env, base: int, m: Store, d: Progress, a: int, i: nat)
    requires Inv(e, base, m, d, -1)
    requires IsRec(e, a) && a in d.busy && a in d.prog && d.prog[a] == i
    requires a in m && m[a].RecObj? && i < |m[a].fields| && m[a].fields[i] != 0
    ensures var t := a + i + m[a].fields[i];
            var d' := d.(prog := d.prog[a := i + 1]);
            if m[a].ty.ValueLiteral? then Inv(e, base, FieldSet(m, a, i, base + t), d', -1)
            else
              && Inv(e, base, FieldSet(m, a, i, base + t), d', t)
              && IsStmt(e, t) && t !in d.seen && UpStarted(e, d', t)
              && i < |RecAt(e, a).fields| && RecAt(e, a).fields[i] == ToStmt(e.org[t].s)
  {
    var t := a + i + m[a].fields[i];
    var m' := FieldSet(m, a, i, base + t);
    var d' := d.(prog := d.prog[a := i + 1]);
    var pend' := if m[a].ty.ValueLiteral? then -1 else t;
    FieldConverted(e, base, m, d, a, i, pend');
    assert BackLinksKept(base, m, m', d);
    StepKeeps(e, base, m, d, -1, m', d', pend', {a});
    if !m[a].ty.ValueLiteral? {
      FieldTarget(e, base, m, d, a, i);
    }
  }

  /** The store after `a.next` is set to the address of `t` and `t.prev` to the address of `a`. */
  function Linked(m: Store, base: int, a: int, t: int): Store
    requires a in m && m[a].RecObj? && t in m && m[t].RecObj?
  {
    var m1 := m[a := m[a].(next := base + t)];
    m1[t := m1[t].(prev := base + a)]
  }

  lemma PrevIrrelevant(e: Env, base: int, m: Store, d: Progress, pend: int, m': Store, d': Progress, t: int)
    requires ObjInv(e, base, m, d, pend, t) && IsRec(e, t)
    requires t in m' && m'[t].RecObj? && m'[t] == m[t].(prev := m'[t].prev)
    requires Same(m, d, m[t := m[t]], d', t) && m'.Keys == m.Keys
    requires d.seen <= d'.seen && d.prog.Keys <= d'.prog.Keys
    requires t in d.linked ==> BackLinkKept(base, m, m', t)
    ensures ObjInv(e, base, m', d', pend, t)
  {
    forall i | 0 <= i < |m'[t].fields| ensures FieldInv(e, base, m', d', pend, t, i) {
      assert FieldInv(e, base, m, d, pend, t, i);
    }
    forall b ensures t !in d.linked ==> ClosedBy(e, m', {}, t, b) {
      assert t !in d.linked ==> ClosedBy(e, m, {}, t, b);
    }
  }

  /** No two converted links lead to the same record. */
  lemma LinksDiffer(e: Env, base: int, m: Store, d: Progress, a: int, t: int)
    requires Inv(e, base, m, d, -1)
    requires IsRec(e, a) && a !in d.linked && NextAt(e, a, t)
    ensures forall x :: x in d.linked ==> x in m && m[x].RecObj? && m[x].next - base != t
  {
    forall x | x in d.linked ensures x in m && m[x].RecObj? && m[x].next - base != t {
      assert ObjInv(e, base, m, d, -1, x);
      assert RecWF(e.g, e.org[x].r) && RecWF(e.g, e.org[a].r);
      assert SameSource(e, x, a) ==> x == a;
    }
  }

  lemma LinkRec(e: Env, base: int, m: Store, d: Progress, a: int, t: int)
    requires Inv(e, base, m, d, -1)
    requires IsRec(e, a) && a in m && m[a].RecObj? && Ringed(m[a].ty) && a in d.busy && a in d.prog && a !in d.linked
    requires NextAt(e, a, t) && IsRec(e, t) && t in m && m[t].RecObj?
    ensures Inv(e, base, Linked(m, base, a, t), d.(linked := d.linked + {a}), -1)
  {
    var m' := Linked(m, base, a, t);
    var d' := d.(linked := d.linked + {a});
    LinksDiffer(e, base, m, d, a, t);
    assert ObjInv(e, base, m, d, -1, a);
    assert ObjInv(e, base, m, d, -1, t);
    assert BackLinksKept(base, m, m', d);
    assert ObjInv(e, base, m', d', -1, a) by {
      forall i | 0 <= i < |m'[a].fields| ensures FieldInv(e, base, m', d', -1, a, i) {
        assert FieldInv(e, base, m, d, -1, a, i);
      }
    }
    if t != a {
      PrevIrrelevant(e, base, m, d, -1, m', d', t);
    }
    StepKeeps(e, base, m, d, -1, m', d', -1, {a, t});
  }

  lemma LeaveRec(e: Env, base: int, m: Store, d: Progress, a: int)
    requires Inv(e, base, m, d, -1)
    requires IsRec(e, a) && a in m && m[a].RecObj? && a in d.prog && d.prog[a] == Arity(m[a].ty)
    requires Ringed(m[a].ty) ==> a in d.linked && m[a].next - base in d.prog
    ensures Inv(e, base, m, d.(busy := d.busy - {a}), -1)
  {
    var d' := d.(busy := d.busy - {a});
    assert ObjInv(e, base, m, d, -1, a);
    assert ObjInv(e, base, m, d', -1, a) by {
      forall i | 0 <= i < |m[a].fields| ensures FieldInv(e, base, m, d', -1, a, i) {
        assert FieldInv(e, base, m, d, -1, a, i);
      }
    }
    StepKeeps(e, base, m, d, -1, m, d', -1, {a});
  }

  /** The recomputed cell of a record plays no part in the pointer invariant. */
  lemma Recompute(e: Env, base: int, m: Store, d: Progress, a: int, x: int)
    requires Inv(e, base, m, d, -1)
    requires IsRec(e, a) && a in m && m[a].RecObj?
    ensures Inv(e, base, m[a := m[a].(recomputed := x)], d, -1)
  {
    var m' := m[a := m[a].(recomputed := x)];
    assert ObjInv(e, base, m, d, -1, a);
    assert ObjInv(e, base, m', d, -1, a) by {
      forall i | 0 <= i < |m'[a].fields| ensures FieldInv(e, base, m', d, -1, a, i) {
        assert FieldInv(e, base, m, d, -1, a, i);
      }
      forall b ensures a !in d.linked ==> ClosedBy(e, m', {}, a, b) {
        assert a !in d.linked ==> ClosedBy(e, m, {}, a, b);
      }
    }
    StepKeeps(e, base, m, d, -1, m', d, -1, {a});
  }

  lemma FieldKeepsIds(e: Env, base: int, m: Store, d: Progress, a: int, i: nat, x: int, low: int, planId: int)
    requires FreshIds(e, m, d, low, planId) && Ids(e, base, m, d)
    requires a in m && m[a].RecObj? && i < |m[a].fields| && a in d.prog
    ensures FreshIds(e, FieldSet(m, a, i, x), d.(prog := d.prog[a := i + 1]), low, planId)
    ensures Ids(e, base, FieldSet(m, a, i, x), d.(prog := d.prog[a := i + 1]))
  {
    hide DelimAt, FreshIds, Ids;
    FreshKept(e, base, m, d, FieldSet(m, a, i, x), d.(prog := d.prog[a := i + 1]), low, planId);
  }

  lemma LinkKeepsIds(e: Env, base: int, m: Store, d: Progress, a: int, t: int, low: int, planId: int)
    requires FreshIds(e, m, d, low, planId) && Ids(e, base, m, d)
    requires a in m && m[a].RecObj? && t in m && m[t].RecObj? && IsRec(e, a) && m[a].ty == RecAt(e, a).ty
    requires m[a].ty.Column? ==> DelimAt(e, base, d, a, m[a].recomputed)
    ensures FreshIds(e, Linked(m, base, a, t), d.(linked := d.linked + {a}), low, planId)
    ensures Ids(e, base, Linked(m, base, a, t), d.(linked := d.linked + {a}))
  {
    if m[a].ty.Column? {
      DelimMore(e, base, d, d.(linked := d.linked + {a}), a, m[a].recomputed);
    }
    hide DelimAt, FreshIds, Ids;
    FreshKept(e, base, m, d, Linked(m, base, a, t), d.(linked := d.linked + {a}), low, planId);
  }

  /** The keywords of a column that has just been entered were not entered before it, so they are
      finished. */
  lemma KeywordsReady(e: Env, base: int, m: Store, d: Progress, m0: Store, d0: Progress, cur: int, t: int, k: int)
    requires Inv(e, base, m, d, -1) && Inv(e, base, m0, d0, -1)
    requires IsRec(e, cur) && cur !in d0.prog && d.busy == d0.busy + {cur} && d.looping == d0.looping
    requires IsStmt(e, t) && e.org[t].up == Field(cur, 2) && t in d.seen && StmtAt(e, t).payload.To?
    requires IsRec(e, k) && e.org[k].owner == t && k != cur
    ensures k !in d.busy && t !in d.looping && t in m && m[t].StmtObj? && m[t].v - base in d.prog
  {
    assert ObjInv(e, base, m0, d0, -1, t) && ObjInv(e, base, m0, d0, -1, k);
    assert ObjInv(e, base, m, d, -1, t);
  }

  lemma KeywordStep(e: Env, base: int, m: Store, d: Progress, m0: Store, d0: Progress, cur: int, t: int, start: int,
      k: int, j: nat)
    requires Inv(e, base, m, d, -1) && Inv(e, base, m0, d0, -1)
    requires IsRec(e, cur) && RecAt(e, cur).ty.Column? && cur !in d0.prog
    requires d.busy == d0.busy + {cur} && d.looping == d0.looping
    requires IsStmt(e, t) && e.org[t].up == Field(cur, 2) && t in d.seen
    requires StmtAt(e, t).ty.Keyword? && PayloadAt(e, t, start)
    requires StmtAt(e, t).payload.r in e.c.ring && j < |e.c.ring[StmtAt(e, t).payload.r]|
    requires k in e.org && e.org[k] == SRec(e.c.ring[StmtAt(e, t).payload.r][j], t) && k in d.prog
    ensures var ring := e.c.ring[StmtAt(e, t).payload.r];
            && IsRec(e, k) && k in m && m[k].RecObj? && |m[k].data| > 0 && |m[k].fields| > 0 && |RecAt(e, k).fields| > 0
            && (m[k].data[0] == OPTIONAL_DELIM <==> IsDelim(e.g, ring[j]))
            && (m[k].fields[0] != 0 <==> Kept(e.g, RecAt(e, k).fields[0]))
            && (m[k].fields[0] != 0 ==> ChildAt(e, k, 0, m[k].fields[0] - base) && m[k].fields[0] - base in d.seen)
            && var n := m[k].next - base;
               if n == start then j + 1 == |ring|
               else n in e.org && n in d.prog && j + 1 < |ring| && e.org[n] == SRec(ring[j + 1], t)
  {
    var r0 := StmtAt(e, t).payload.r;
    var ring := e.c.ring[r0];
    assert StmtWF(e.g, e.org[t].s) && RingWF(e.g, e.c, r0) && RingStep(e.g, ring, j);
    KeywordsReady(e, base, m, d, m0, d0, cur, t, k);
    assert RecWF(e.g, e.org[k].r);
    assert ObjInv(e, base, m, d, -1, k) && FieldInv(e, base, m, d, -1, k, 0);
    Leads(e, base, m, d, k, 0);
    var n := m[k].next - base;
    assert j + 1 == |ring| ==> SameSource(e, n, start);
  }

  lemma NothingEntered(e: Env, base: int, m: Store)
    requires Encoded(e, m) && base > 0 && (forall a :: a in e.org ==> a >= 0)
    ensures var d := Progress({}, map[], {}, {}, {}); Inv(e, base, m, d, 0)
  {
    var d := Progress({}, map[], {}, {}, {});
    forall a | a in e.org ensures ObjInv(e, base, m, d, 0, a) {
      assert ShapeAt(e, m, a);
      match e.org[a]
      case SStmt(_, _) =>
        assert StmtRel(e, m, a);
      case SRec(_, _) =>
        assert FieldsRel(e, m, a) && NextRel(e, m, a) && Closed(e, m, {}, a);
        forall i | 0 <= i < |m[a].fields| ensures FieldInv(e, base, m, d, 0, a, i) {
          assert FieldRel(e, m, a, i);
        }
      case SText(_, _) =>
    }
  }

  class Loader {
    const base: int      // address at which the blob was loaded
    var mem: Store       // the blob, by offset
    var planId: int      // config->plan_id
    ghost const e: Env
    ghost const low: int
    ghost var d: Progress

    ghost predicate Good(pend: int)
      reads this
    {
      Inv(e, base, mem, d, pend) && FreshIds(e, mem, d, low, planId) && Ids(e, base, mem, d)
    }

    constructor (blob: Store, base: int, planId: int, ghost e: Env)
      requires Encoded(e, blob) && base > 0 && (forall a :: a in e.org ==> a >= 0)
      requires IsStmt(e, 0) && e.org[0].up.Root?
      ensures this.base == base && this.e == e && low == this.planId == planId && mem == blob
      ensures Good(0) && d == Progress({}, map[], {}, {}, {})
    {
      this.base, this.e, low, this.planId, mem := base, e, planId, planId, blob;
      d := Progress({}, map[], {}, {}, {});
      new;
      NothingEntered(e, base, blob);
      NoIds(e, base, blob);
    }

    /** Converts the pointers of one record and everything below it that was not entered yet. */
    method DecompressFields(a: int, ty: StmtType)
      requires Good(-1)
      requires IsRec(e, a) && a in d.busy && a in d.prog && d.prog[a] == 0 && RecAt(e, a).ty == ty
      requires Under(e, d.busy, RecNode(e.org[a].r))
      modifies this
      ensures Good(-1)
      ensures d.busy == old(d.busy) && d.looping == old(d.looping)
      ensures Extends(e, old(d), d, {a}, {})
      ensures a in d.prog && d.prog[a] == Arity(ty) && (a in d.linked <==> a in old(d.linked))
      decreases e.org.Keys - d.seen, 2, 0
    {
      ghost var d0 := d;
      var i := 0;
      while i < Arity(ty)
        invariant i <= Arity(ty)
        invariant FieldsProgress(d0, a, ty, i)
        invariant old(e.org.Keys - d.seen) >= e.org.Keys - d.seen
      {
        hide FieldsProgress, Good;
        DecompressField(d0, a, ty, i);
        i := i + 1;
      }
    }

    /** Since `d0`, the first `i` fields of the record at `a` were converted. */
    ghost predicate FieldsProgress(d0: Progress, a: int, ty: StmtType, i: nat)
      reads this
    {
      && Good(-1) && IsRec(e, a) && RecAt(e, a).ty == ty && a in d0.busy
      && d.busy == d0.busy && d.looping == d0.looping && Under(e, d0.busy, RecNode(e.org[a].r))
      && Extends(e, d0, d, {a}, {})
      && a in d.prog && d.prog[a] == i && (a in d.linked <==> a in d0.linked)
    }

    method DecompressField(ghost d0: Progress, a: int, ty: StmtType, i: nat)
      requires FieldsProgress(d0, a, ty, i) && i < Arity(ty)
      modifies this
      ensures FieldsProgress(d0, a, ty, i + 1) && old(d.seen) <= d.seen
      decreases e.org.Keys - d.seen, 1, 1
    {
      assert ObjInv(e, base, mem, d, -1, a);
      var x := mem[a].fields[i];
      if x == 0 {
        SkipField(e, base, mem, d, a, i);
        ghost var d1 := d;
        d := d.(prog := d.prog[a := i + 1]);
        FreshKept(e, base, mem, d1, mem, d, low, planId);
      } else {
        ConvertOne(a, ty, i);
        if !ty.ValueLiteral? {
          UnderField(e, d.busy, a, i);
          DecompressHelper(a + i + x);
        }
      }
    }

    method ConvertOne(a: int, ty: StmtType, i: nat)
      requires Good(-1) && IsRec(e, a) && RecAt(e, a).ty == ty && a in d.busy && a in d.prog && d.prog[a] == i
      requires a in mem && mem[a].RecObj? && i < |mem[a].fields| && mem[a].fields[i] != 0
      modifies this
      ensures d == old(d).(prog := old(d.prog)[a := i + 1])
      ensures var t := a + i + old(mem)[a].fields[i];
              if ty.ValueLiteral? then Good(-1)
              else
                && Good(t) && IsStmt(e, t) && t !in d.seen && UpStarted(e, d, t)
                && i < |RecAt(e, a).fields| && RecAt(e, a).fields[i] == ToStmt(e.org[t].s)
    {
      assert ObjInv(e, base, mem, d, -1, a);
      ConvertField(e, base, mem, d, a, i);
      FieldKeepsIds(e, base, mem, d, a, i, base + a + i + mem[a].fields[i], low, planId);
      hide Inv, FreshIds, Ids, ObjInv;
      mem := FieldSet(mem, a, i, base + a + i + mem[a].fields[i]);
      d := d.(prog := d.prog[a := i + 1]);
    }

    /** Converts the statement at offset `b` and everything below it that was not entered yet. */
    method DecompressHelper(b: int)
      requires Good(b)
      requires IsStmt(e, b) && b !in d.seen && UpStarted(e, d, b) && Under(e, d.busy, StmtNode(e.org[b].s))
      modifies this
      ensures Good(-1)
      ensures d.busy == old(d.busy) && d.looping == old(d.looping)
      ensures Extends(e, old(d), d, {}, {}) && b in d.seen
      decreases e.org.Keys - d.seen, 1, 0
    {
      assert ObjInv(e, base, mem, d, b, b);
      assert StmtWF(e.g, e.org[b].s);
      var ty := mem[b].ty;
      if ty.DataTypeStruct? {
        EnterInline(e, base, mem, d, b);
        ghost var d1 := d;
        d := d.(seen := d.seen + {b});
        FreshKept(e, base, mem, d1, mem, d, low, planId);
        return;
      }
      EnterStmt(e, base, mem, d, b);
      ghost var d0, m0 := d, mem;
      mem := mem[b := mem[b].(v := base + b + V + mem[b].v)];
      d := d.(seen := d.seen + {b}, looping := d.looping + {b});
      FreshKept(e, base, m0, d0, mem, d, low, planId);
      var start := mem[b].v - base;
      assert ObjInv(e, base, mem, d, -1, b);
      NoneOwned(e, base, m0, d0, b, b);
      UnderPayload(e, d.busy, b);
      DecompressRing(b, start, ty);
      LeaveStatement(b, start, ty, m0, d0);
    }

    method LeaveStatement(b: int, start: int, ty: StmtType, ghost m0: Store, ghost d0: Progress)
      requires Good(-1) && IsStmt(e, b) && StmtAt(e, b).ty == ty && b in d.seen
      requires PayloadAt(e, b, start) && start in d.prog
      requires Before(e, base, m0, d0, b) && d.busy == d0.busy && d.looping == d0.looping + {b}
      requires Under(e, d.busy, RecNode(e.org[start].r))
      modifies this
      ensures Good(-1) && d == old(d).(looping := old(d).looping - {b})
    {
      assert ObjInv(e, base, mem, d, -1, b) && StmtWF(e.g, e.org[b].s);
      assert SameSource(e, start, mem[b].v - base);
      if ty.Join? {
        LeaveJoin(b, start, m0, d0);
      } else {
        LeaveStmt(e, base, mem, d, b);
        ghost var d2 := d;
        d := d.(looping := d.looping - {b});
        FreshKept(e, base, mem, d2, mem, d, low, planId);
      }
    }

    /** The join at the start of the ring takes over the identifier of the table alias that it leads to,
        which may still be the stored one if that alias is being worked on. */
    method LeaveJoin(b: int, start: int, ghost m0: Store, ghost d0: Progress)
      requires Good(-1) && IsStmt(e, b) && StmtAt(e, b).ty.Join? && b in d.seen && PayloadAt(e, b, start)
      requires b in mem && mem[b].StmtObj? && mem[b].v - base == start && start in d.prog
      requires Before(e, base, m0, d0, b) && d.busy == d0.busy && d.looping == d0.looping + {b}
      requires Under(e, d.busy, RecNode(e.org[start].r))
      modifies this
      ensures Good(-1) && d == old(d).(looping := old(d).looping - {b})
      ensures TakesOver(e, old(mem), d.busy, start, mem)
    {
      var alias := FindAlias(b, start, m0, d0);
      assert StmtWF(e.g, e.org[b].s) && ObjInv(e, base, mem, d, -1, start);
      ghost var m1, d1 := mem, d;
      TakenOver(e, base, mem, d, start, if alias.Some? then alias.value else -1);
      hide Inv, Ids, FreshIds, ObjInv, WellFormed, TakesOver, Under;
      JoinFinished(e, base, mem, d, b, start, if alias.Some? then alias.value else -1);
      if alias.Some? {
        Recompute(e, base, mem, d, start, mem[alias.value].recomputed + 1);
        mem := mem[start := mem[start].(recomputed := mem[alias.value].recomputed + 1)];
      }
      LeaveStmt(e, base, mem, d, b);
      d := d.(looping := d.looping - {b});
      FreshBeside(e, m1, d1, mem, d, start, low, planId);
    }

    /** The table alias that the start of a join ring leads to. */
    method FindAlias(b: int, start: int, ghost m0: Store, ghost d0: Progress) returns (alias: Option<int>)
      requires Good(-1) && IsStmt(e, b) && StmtAt(e, b).ty.Join? && PayloadAt(e, b, start) && start in d.prog
      requires Before(e, base, m0, d0, b) && d.busy == d0.busy && d.looping == d0.looping + {b}
      ensures IsRec(e, start) && (alias.Some? <==> JoinAlias(e.g, RecAt(e, start)).Some?)
      ensures alias.Some? ==>
                && alias.value in e.org && IsA(e, mem, alias.value, TableAlias) && alias.value in d.prog
                && e.org[alias.value] == SRec(JoinAlias(e.g, RecAt(e, start)).value, SHARED)
    {
      assert StmtWF(e.g, e.org[b].s);
      alias := None;
      RecNotEntered(e, base, m0, d0, b, start);
      Leads(e, base, mem, d, start, 0);
      if mem[start].fields[0] != 0 {
        var t := mem[start].fields[0] - base;
        assert StmtWF(e.g, e.org[t].s) && ObjInv(e, base, mem, d, -1, t);
        StmtNotEntered(e, base, m0, d0, b, start, t);
        if mem[t].ty.TableAlias? {
          alias := Some(mem[t].v - base);
          assert ObjInv(e, base, mem, d, -1, alias.value);
        } else if mem[t].ty.SetOperation? {
          var x := mem[t].v - base;
          RecNotEntered(e, base, m0, d0, b, x);
          Leads(e, base, mem, d, x, 1);
          if mem[x].fields[1] != 0 {
            var u := mem[x].fields[1] - base;
            StmtNotEntered(e, base, m0, d0, b, x, u);
            assert StmtWF(e.g, e.org[u].s) && ObjInv(e, base, mem, d, -1, u);
            if mem[u].ty.TableAlias? {
              alias := Some(mem[u].v - base);
              assert ObjInv(e, base, mem, d, -1, alias.value);
            }
          }
        }
      }
    }

    /** Enters one record of the ring that statement `b` enters at `start`: converts its fields
        and its links, and returns the offset of its successor. */
    method DecompressRecord(b: int, start: int, cur: int, ty: StmtType) returns (next: int)
      requires Good(-1)
      requires IsStmt(e, b) && b in d.seen && StmtAt(e, b).ty == ty && PayloadAt(e, b, start) && Enters(e, b, cur)
      requires RecAt(e, cur).ty == ty && cur !in d.prog && Under(e, d.busy, RecNode(e.org[cur].r))
      modifies this
      ensures Good(-1)
      ensures d.looping == old(d.looping) && d.busy == (if Ringed(ty) then old(d.busy) + {cur} else old(d.busy))
      ensures Extends(e, old(d), d, {}, {b})
      ensures forall a :: a in d.prog && a !in old(d.prog) && IsRec(e, a) && e.org[a].owner == b ==> a == cur
      ensures cur in d.prog && d.prog[cur] == Arity(ty)
      ensures if Ringed(ty) then cur in d.linked && cur in mem && mem[cur].RecObj? && mem[cur].next - base == next
          && NextAt(e, cur, next)
              else next == start
      decreases e.org.Keys - d.seen, 3, 1
    {
      hide Inv, FreshIds, Ids, DelimAt;
      ghost var m0, d0 := mem, d;
      EnterRecord(cur, ty);
      if ty.Column? {
        var delim := FindDelim(cur, m0, d0);
        SetRecomputed(cur, delim);
      }
      if Ringed(ty) {
        next := LinkRecord(b, start, cur, ty);
      } else {
        next := start;
        LeaveRecord(cur, ty);
      }
    }

    /** Clears the mark of the record and converts its fields. */
    method EnterRecord(cur: int, ty: StmtType)
      requires Good(-1)
      requires IsRec(e, cur) && RecAt(e, cur).ty == ty && cur !in d.prog
      requires e.org[cur].owner == SHARED || e.org[cur].owner in d.seen
      requires Under(e, d.busy, RecNode(e.org[cur].r))
      modifies this
      ensures Good(-1)
      ensures d.looping == old(d.looping) && d.busy == old(d.busy) + {cur} && cur !in old(d.busy)
      ensures Extends(e, old(d), d, {}, {e.org[cur].owner})
      ensures forall a :: a in d.prog && a !in old(d.prog) && IsRec(e, a) && e.org[a].owner in old(d.seen) ==> a == cur
      ensures cur in d.prog && d.prog[cur] == Arity(ty) && cur !in d.linked
      decreases e.org.Keys - d.seen, 3, 0
    {
      assert ObjInv(e, base, mem, d, -1, cur) && SHARED !in d.seen;
      EnterRec(e, base, mem, d, cur);
      hide Inv, FreshIds, Ids, ObjInv, WellFormed, Under, Extends;
      ghost var d0, m0 := d, mem;
      if Shared(ty) {
        mem := mem[cur := mem[cur].(bin := 0)];
      }
      d := d.(prog := d.prog[cur := 0], busy := d.busy + {cur});
      FreshKept(e, base, m0, d0, mem, d, low, planId);
      UnderMore(e, d0.busy, cur, RecNode(e.org[cur].r));
      ghost var d1 := d;
      DecompressFields(cur, ty);
      EnteredBelow(e, d0, d1, d, cur);
    }

    /** Makes `next` absolute, a missing one being the start of the ring, and sets the back link. */
    method LinkRecord(b: int, start: int, cur: int, ty: StmtType) returns (next: int)
      requires Good(-1)
      requires IsStmt(e, b) && StmtAt(e, b).ty == ty && PayloadAt(e, b, start) && Enters(e, b, cur)
      requires RecAt(e, cur).ty == ty && Ringed(ty) && cur in d.busy && cur in d.prog && cur !in d.linked
      requires ty.Column? && cur in mem && mem[cur].RecObj? ==> DelimAt(e, base, d, cur, mem[cur].recomputed)
      modifies this
      ensures Good(-1) && d == old(d).(linked := old(d).linked + {cur})
      ensures cur in mem && mem[cur].RecObj? && mem[cur].next - base == next && NextAt(e, cur, next)
    {
      hide FreshIds, Ids, DelimAt, ObjInv, WellFormed;
      Successor(e, base, mem, d, b, start, cur);
      next := if mem[cur].next == 0 then start else cur + LinkAt(ty) + mem[cur].next;
      LinkRec(e, base, mem, d, cur, next);
      LinkKeepsIds(e, base, mem, d, cur, next, low, planId);
      mem := mem[cur := mem[cur].(next := base + next)];
      mem := mem[next := mem[next].(prev := base + cur)];
      d := d.(linked := d.linked + {cur});
    }

    /** The value of the first delimiter keyword of a column whose keywords are converted. */
    method FindDelim(cur: int, ghost m0: Store, ghost d0: Progress) returns (x: int)
      requires Good(-1) && IsRec(e, cur) && RecAt(e, cur).ty.Column? && cur in d.prog && d.prog[cur] == Arity(Column)
      requires Inv(e, base, m0, d0, -1) && cur !in d0.prog && d.busy == d0.busy + {cur} && d.looping == d0.looping
      ensures DelimAt(e, base, d, cur, x)
    {
      hide FreshIds, Ids, WellFormed, RecShape;
      Leads(e, base, mem, d, cur, 2);
      x := 0;
      if mem[cur].fields[2] != 0 {
        var t := mem[cur].fields[2] - base;
        if mem[t].ty.Keyword? {
          x := WalkKeywords(cur, t, m0, d0);
        }
      }
    }

    method WalkKeywords(cur: int, t: int, ghost m0: Store, ghost d0: Progress) returns (x: int)
      requires Good(-1) && IsRec(e, cur) && IsStmt(e, t) && e.org[t].up == Field(cur, 2) && StmtAt(e, t).ty.Keyword?
      requires t in d.seen && t in mem && mem[t].StmtObj? && PayloadAt(e, t, mem[t].v - base)
      requires Inv(e, base, m0, d0, -1) && cur !in d0.prog && d.busy == d0.busy + {cur} && d.looping == d0.looping
      requires RecAt(e, cur).ty.Column?
      ensures StmtAt(e, t).payload.r in e.c.ring
      ensures match FirstDelim(e.g, e.c.ring[StmtAt(e, t).payload.r], 0)
              case None => x == 0
              case Some(r) => DelimOf(e, base, d, cur, r, x)
    {
      ghost var r0 := StmtAt(e, t).payload.r;
      assert StmtWF(e.g, e.org[t].s) && RingWF(e.g, e.c, r0);
      ghost var ring := e.c.ring[r0];
      var start := mem[t].v - base;
      KeywordsReady(e, base, mem, d, m0, d0, cur, t, start);
      var k := start;
      ghost var j := 0;
      while true
        invariant 0 <= j < |ring| && k in e.org && e.org[k] == SRec(ring[j], t) && k in d.prog
        invariant FirstDelim(e.g, ring, 0) == FirstDelim(e.g, ring, j)
        decreases |ring| - j
      {
        KeywordStep(e, base, mem, d, m0, d0, cur, t, start, k, j);
        if mem[k].data[0] == OPTIONAL_DELIM {
          x := mem[k].fields[0];
          assert KeywordCopy(e, cur, k, ring[j]);
          return;
        }
        k := mem[k].next - base;
        if k == start {
          break;
        }
        j := j + 1;
      }
      x := 0;
    }

    method SetRecomputed(a: int, x: int)
      requires Good(-1) && IsRec(e, a) && a in d.busy && RecAt(e, a).ty.Column? && a !in d.linked
      modifies `mem
      ensures Good(-1)
      ensures a in mem && a in old(mem) && old(mem)[a].RecObj? && mem[a] == old(mem)[a].(recomputed := x)
    {
      assert ObjInv(e, base, mem, d, -1, a);
      Recompute(e, base, mem, d, a, x);
      ghost var m0 := mem;
      mem := mem[a := mem[a].(recomputed := x)];
      FreshKept(e, base, m0, d, mem, d, low, planId);
    }

    /** A record that is not in a ring is finished once its fields are; a table alias then takes
        the next free identifier. */
    method LeaveRecord(a: int, ty: StmtType)
      requires Good(-1) && IsRec(e, a) && a in d.busy && a in d.prog
      requires RecAt(e, a).ty == ty && !Ringed(ty) && d.prog[a] == Arity(ty)
      modifies this
      ensures Good(-1) && d == old(d).(busy := old(d).busy - {a})
      ensures a in old(mem) && old(mem)[a].RecObj?
      ensures if ty.TableAlias?
              then mem == old(mem)[a := old(mem)[a].(recomputed := old(planId))] && planId == old(planId) + 1
              else mem == old(mem) && planId == old(planId)
    {
      assert ObjInv(e, base, mem, d, -1, a);
      LeaveRec(e, base, mem, d, a);
      ghost var d0, m0 := d, mem;
      d := d.(busy := d.busy - {a});
      if ty.TableAlias? {
        Recompute(e, base, mem, d, a, planId);
        AliasFinished(e, base, m0, d0, a, planId);
        FreshNext(e, m0, d0, a, low, planId);
        mem := mem[a := mem[a].(recomputed := planId)];
        planId := planId + 1;
      } else {
        FreshKept(e, base, m0, d0, mem, d, low, planId);
      }
    }

    /** Walks the ring that statement `b` enters at `start`, up to the first record that was
        entered already or until the ring closes. */
    method DecompressRing(b: int, start: int, ty: StmtType)
      requires Good(-1)
      requires IsStmt(e, b) && b in d.seen && b in d.looping && StmtAt(e, b).ty == ty && PayloadAt(e, b, start)
      requires forall a :: a in d.prog && IsRec(e, a) ==> e.org[a].owner != b
      requires Under(e, d.busy, RecNode(StmtAt(e, b).payload.r))
      modifies this
      ensures Good(-1)
      ensures d.busy == old(d.busy) && d.looping == old(d.looping)
      ensures Extends(e, old(d), d, {}, {b}) && start in d.prog
      decreases e.org.Keys - d.seen, 5
    {
      StartRing(e, d, b, start, ty);
      hide OnRing;
      var cur := start;
      var more := true;
      ghost var k, last := 0, -1;   // `last` is the ring record whose successor is `cur`, if any
      while more
        invariant OnRing(old(d), b, start, ty, cur, more, k, last) && old(d).seen <= d.seen
        decreases e.org.Keys - d.prog.Keys, more
      {
        cur, more, k, last := RingRound(old(d), b, start, ty, cur, k, last);
      }
      EndWalk(old(d), b, start, ty, cur, k, last);
    }

    /** The walk over the ring that statement `b` enters at `start`, begun with progress `d0`. */
    ghost predicate OnRing(d0: Progress, b: int, start: int, ty: StmtType, cur: int, more: bool, k: nat, last: int)
      reads this
    {
      && Good(-1) && Walking(e, d0, d, b, start, ty, cur, more, k, last)
      && Under(e, d0.busy, RecNode(StmtAt(e, b).payload.r))
    }

    /** One round: stops at a record that was entered before. */
    method RingRound(ghost d0: Progress, b: int, start: int, ty: StmtType, cur: int, ghost k: nat, ghost last: int)
      returns (next: int, more: bool, ghost k': nat, ghost last': int)
      requires OnRing(d0, b, start, ty, cur, true, k, last)
      modifies this
      ensures OnRing(d0, b, start, ty, next, more, k', last') && old(d.seen) <= d.seen
      ensures (d.prog == old(d.prog) && !more) || e.org.Keys - d.prog.Keys < e.org.Keys - old(d.prog).Keys
      decreases e.org.Keys - d.seen, 4, 1
    {
      hide Inv, FreshIds, Ids, Walking, Extends, Under;
      WalkAt(e, d0, d, b, start, ty, cur, k, last);
      MarkTells(e, base, mem, d, cur);
      if Shared(ty) && mem[cur].bin == 0 {
        WalkStops(e, d0, d, b, start, ty, cur, k, last);
        next, more, k', last' := cur, false, k, last;
      } else {
        next := RingElement(d0, b, start, ty, cur, k, last);
        more, k', last' := next != start, k + 1, if Ringed(ty) then cur else -1;
      }
    }

    ghost method EndWalk(d0: Progress, b: int, start: int, ty: StmtType, cur: int, k: nat, last: int)
      requires OnRing(d0, b, start, ty, cur, false, k, last)
      modifies `d
      ensures Good(-1) && d.busy == d0.busy && d.looping == d0.looping
      ensures Extends(e, d0, d, {}, {b}) && start in d.prog
    {
      WalkEnds(e, d0, d, b, start, ty, cur, k, last);
      hide Inv, FreshIds, Ids, Walking, Extends;
      if last != -1 {
        ExtendsLess(e, d0, d, {}, {b}, last);
        DropLast(last, cur);
      }
    }

    /** One round of the walk, at a record that was not entered yet. */
    method RingElement(ghost d0: Progress, b: int, start: int, ty: StmtType, cur: int, ghost k: nat,
        ghost last: int) returns (next: int)
      requires Good(-1) && Walking(e, d0, d, b, start, ty, cur, true, k, last)
      requires Shared(ty) ==> cur !in d.prog
      requires Under(e, d0.busy, RecNode(StmtAt(e, b).payload.r))
      modifies this
      ensures Good(-1) && Walking(e, d0, d, b, start, ty, next, next != start, k + 1, if Ringed(ty) then cur else -1)
      ensures e.org.Keys - d.prog.Keys < e.org.Keys - old(d.prog).Keys && old(d.seen) <= d.seen
      decreases e.org.Keys - d.seen, 4, 0
    {
      assert cur !in d.prog by {
        assert RingWF(e.g, e.c, StmtAt(e, b).payload.r);
      }
      assert ObjInv(e, base, mem, d, -1, cur) && WellFormed(e.g, e.c) && RecsDistinct(e);
      ghost var d1 := d;
      WalkAt(e, d0, d, b, start, ty, cur, k, last);
      UnderWalk(e, d0, d, b, start, ty, cur, k, last);
      hide Inv, FreshIds, Ids, WellFormed, RecsDistinct, Walking, Under, Extends, LastOfRing;
      next := DecompressRecord(b, start, cur, ty);
      FewerLeft(e, d1, d, b, cur);
      WalkLast(e, d0, d1, d, b, start, ty, cur, k, last);
      if last != -1 {
        ExtendsLess(e, d1, d, {}, {b}, last);
        DropLast(last, cur);
      }
      Advance(e, d0, d1, d, b, start, ty, cur, next, k, last);
    }

    ghost method DropLast(last: int, cur: int)
      requires Good(-1)
      requires IsRec(e, last) && last in d.linked && last in d.prog && d.prog[last] == Arity(RecAt(e, last).ty)
      requires Ringed(RecAt(e, last).ty)
      requires NextAt(e, last, cur) && cur in d.prog
      modifies `d
      ensures Good(-1) && d == old(d).(busy := old(d).busy - {last})
    {
      assert ObjInv(e, base, mem, d, -1, last);
      assert ObjInv(e, base, mem, d, -1, cur);
      assert SameSource(e, cur, mem[last].next - base);
      LeaveRec(e, base, mem, d, last);
      ghost var d0 := d;
      d := d.(busy := d.busy - {last});
      FreshKept(e, base, mem, d0, mem, d, low, planId);
    }
  }

  /** Where the successor of a record in the ring that `b` enters at `start` is to be found. */
  lemma Successor(e: Env, base: int, m: Store, d: Progress, b: int, start: int, cur: int)
    requires Inv(e, base, m, d, -1)
    requires IsStmt(e, b) && PayloadAt(e, b, start) && Enters(e, b, cur) && cur !in d.linked && Ringed(RecAt(e, cur).ty)
    ensures cur in m && m[cur].RecObj? && m[cur].ty == RecAt(e, cur).ty
    ensures var t := if m[cur].next == 0 then start else cur + LinkAt(m[cur].ty) + m[cur].next;
            NextAt(e, cur, t) && IsRec(e, t) && t in m && m[t].RecObj?
  {
    assert ObjInv(e, base, m, d, -1, cur);
    assert ClosedBy(e, m, {}, cur, b);
    var t := if m[cur].next == 0 then start else cur + LinkAt(m[cur].ty) + m[cur].next;
    assert RecWF(e.g, e.org[cur].r);
    assert ObjInv(e, base, m, d, -1, t);
  }

  /** `last` is the only record that the ring walk still holds, and `cur` is its successor. */
  ghost predicate LastOfRing(e: Env, d: Progress, busy0: set<int>, last: int, cur: int, ty: StmtType) {
    && d.busy == busy0 + {last} && last !in busy0
    && IsRec(e, last) && RecAt(e, last).ty == ty && last in d.prog && last in d.linked
    && d.prog[last] == Arity(ty) && NextAt(e, last, cur)
  }

  ghost predicate Entering(e: Env, b: int, start: int, ty: StmtType) {
    && IsStmt(e, b) && StmtAt(e, b).ty == ty && PayloadAt(e, b, start)
    && StmtAt(e, b).payload.r in e.g.recs && StmtAt(e, b).payload.r in e.c.ring
  }

  /** State of the walk over the ring that statement `b` enters at `start`; `d0` is the progress
      at its beginning. */
  ghost predicate Walking(e: Env, d0: Progress, d: Progress, b: int, start: int, ty: StmtType, cur: int, more: bool,
      k: int, last: int) {
    && Entering(e, b, start, ty)
    && var ring := e.c.ring[StmtAt(e, b).payload.r];
    && 0 <= k <= |ring| && last >= -1 && d.looping == d0.looping
    && b in d0.seen && Extends(e, d0, d, {}, {b})
    && (k > 0 ==> start in d.prog)
    && (more ==>
          && k < |ring| && cur in e.org && e.org[cur] == SRec(ring[k], Owner(ty, b))
          && ring[k] in e.g.recs && e.g.recs[ring[k]].ty == ty)
    && (more && k == 0 ==> cur == start)
    && (!more ==> cur in d.prog && start in d.prog)
    && (last == -1 ==> d.busy == d0.busy)
    && (last != -1 ==> Ringed(ty) && LastOfRing(e, d, d0.busy, last, cur, ty))
    && (forall a :: a in d.prog && IsRec(e, a) && e.org[a].owner == b ==> e.org[a].r in ring[..k])
  }

  lemma WalkAt(e: Env, d0: Progress, d: Progress, b: int, start: int, ty: StmtType, cur: int, k: int, last: int)
    requires Walking(e, d0, d, b, start, ty, cur, true, k, last)
    ensures IsRec(e, cur) && RecAt(e, cur).ty == ty && d0.seen <= d.seen
    ensures IsStmt(e, b) && StmtAt(e, b).ty == ty && PayloadAt(e, b, start) && b in d.seen && Enters(e, b, cur)
  {
  }

  /** The record before the one that the walk has just converted can be released. */
  lemma WalkLast(e: Env, d0: Progress, d1: Progress, d: Progress, b: int, start: int, ty: StmtType, cur: int, k: int,
      last: int)
    requires Walking(e, d0, d1, b, start, ty, cur, true, k, last) && Extends(e, d1, d, {}, {b}) && cur !in d1.prog
    ensures last == -1 ==> d1.busy == d0.busy
    ensures last != -1 ==>
              && (d1.busy + {cur}) - {last} == d0.busy + {cur} && Ringed(ty)
              && IsRec(e, last) && RecAt(e, last).ty == ty && last in d.linked && last in d.prog
              && d.prog[last] == Arity(ty) && NextAt(e, last, cur) && last in d1.prog
  {
  }

  lemma FewerLeft(e: Env, d: Progress, d': Progress, b: int, a: int)
    requires Extends(e, d, d', {}, {b}) && a in d'.prog && a !in d.prog && a in e.org
    ensures e.org.Keys - d'.prog.Keys < e.org.Keys - d.prog.Keys && d.seen <= d'.seen
  {
    assert a in e.org.Keys - d.prog.Keys;
  }

  lemma MarkTells(e: Env, base: int, m: Store, d: Progress, a: int)
    requires Inv(e, base, m, d, -1) && IsRec(e, a)
    ensures a in m && m[a].RecObj?
    ensures Shared(RecAt(e, a).ty) ==> (m[a].bin == 0 <==> a in d.prog)
  {
    assert ObjInv(e, base, m, d, -1, a);
  }

  /** The walk meets a record that was entered before. */
  lemma WalkStops(e: Env, d0: Progress, d: Progress, b: int, start: int, ty: StmtType, cur: int, k: int, last: int)
    requires Walking(e, d0, d, b, start, ty, cur, true, k, last) && cur in d.prog
    ensures Walking(e, d0, d, b, start, ty, cur, false, k, last)
  {
  }

  lemma WalkEnds(e: Env, d0: Progress, d: Progress, b: int, start: int, ty: StmtType, cur: int, k: int, last: int)
    requires Walking(e, d0, d, b, start, ty, cur, false, k, last)
    ensures Extends(e, d0, d, {}, {b}) && start in d.prog && cur in d.prog && d.looping == d0.looping
    ensures if last == -1 then d.busy == d0.busy
            else Ringed(ty) && LastOfRing(e, d, d0.busy, last, cur, ty) && d.busy - {last} == d0.busy
  {
  }

  lemma ExtendsLess(e: Env, d0: Progress, d: Progress, free: set<int>, owners: set<int>, last: int)
    requires Extends(e, d0, d, free, owners)
    ensures Extends(e, d0, d.(busy := d.busy - {last}), free, owners)
  {
  }

  /** A record was entered and then all below it. */
  lemma EnteredBelow(e: Env, d0: Progress, d1: Progress, d: Progress, a: int)
    requires IsRec(e, a) && a !in d0.prog && (e.org[a].owner == SHARED || e.org[a].owner in d0.seen)
    requires d1 == d0.(prog := d0.prog[a := 0], busy := d0.busy + {a}) && Extends(e, d1, d, {a}, {})
    requires SHARED !in d0.seen
    ensures Extends(e, d0, d, {}, {e.org[a].owner})
    ensures forall x :: x in d.prog && x !in d0.prog && IsRec(e, x) && e.org[x].owner in d0.seen ==> x == a
  {
  }

  /** A table alias is in no ring, so the walk adds none to those being worked on. */
  lemma UnderWalk(e: Env, d0: Progress, d: Progress, b: int, start: int, ty: StmtType, cur: int, k: nat, last: int)
    requires WellFormed(e.g, e.c) && Walking(e, d0, d, b, start, ty, cur, true, k, last)
    requires Under(e, d0.busy, RecNode(StmtAt(e, b).payload.r))
    ensures Under(e, d.busy, RecNode(e.org[cur].r))
  {
    assert RingWF(e.g, e.c, StmtAt(e, b).payload.r);
    UnderRing(e, d0.busy, StmtAt(e, b).payload.r, k);
    if last != -1 {
      UnderMore(e, d0.busy, last, RecNode(e.org[cur].r));
    }
  }

  lemma StartRing(e: Env, d: Progress, b: int, start: int, ty: StmtType)
    requires WellFormed(e.g, e.c)
    requires IsStmt(e, b) && b in d.seen && StmtAt(e, b).ty == ty && PayloadAt(e, b, start)
    requires forall a :: a in d.prog && IsRec(e, a) ==> e.org[a].owner != b
    ensures Walking(e, d, d, b, start, ty, start, true, 0, -1)
  {
    assert StmtWF(e.g, e.org[b].s) && RingWF(e.g, e.c, StmtAt(e, b).payload.r);
  }

  /** The walk after the record at `cur` was converted and the record before it released. */
  lemma Advance(e: Env, d0: Progress, d1: Progress, d: Progress, b: int, start: int, ty: StmtType, cur: int,
      next: int, k: nat, last: int)
    requires WellFormed(e.g, e.c) && RecsDistinct(e) && (forall a :: a in e.org ==> a >= 0)
    requires Walking(e, d0, d1, b, start, ty, cur, true, k, last)
    requires cur !in d1.prog && cur !in d1.busy && d.looping == d1.looping
    requires d.busy == d0.busy + (if Ringed(ty) then {cur} else {})
    requires Extends(e, d1, d, {}, {b})
    requires forall a :: a in d.prog && a !in d1.prog && IsRec(e, a) && e.org[a].owner == b ==> a == cur
    requires cur in d.prog && d.prog[cur] == Arity(ty)
    requires IsRec(e, cur) && if Ringed(ty) then cur in d.linked && NextAt(e, cur, next) else next == start
    ensures Walking(e, d0, d, b, start, ty, next, next != start, k + 1, if Ringed(ty) then cur else -1)
  {
    if Ringed(ty) {
      RingAdvance(e, b, start, cur, next, k);
      assert StmtWF(e.g, e.org[b].s) && RingWF(e.g, e.c, StmtAt(e, b).payload.r);
    }
  }

  /** The successor of ring element `k` is element `k + 1`, or the start of the walk. */
  lemma RingAdvance(e: Env, b: int, start: int, cur: int, next: int, k: nat)
    requires WellFormed(e.g, e.c) && RecsDistinct(e)
    requires IsStmt(e, b) && PayloadAt(e, b, start) && IsRec(e, cur) && NextAt(e, cur, next)
    requires StmtAt(e, b).payload.r in e.g.recs && StmtAt(e, b).payload.r in e.c.ring
    requires var ring := e.c.ring[StmtAt(e, b).payload.r];
             k < |ring| && e.org[cur] == SRec(ring[k], Owner(StmtAt(e, b).ty, b))
    ensures var ring := e.c.ring[StmtAt(e, b).payload.r];
            next != start ==> k + 1 < |ring| && ring[0] in e.g.recs && RingStep(e.g, ring, k + 1)
                              && e.org[next] == SRec(ring[k + 1], Owner(StmtAt(e, b).ty, b))
  {
    var r := StmtAt(e, b).payload.r;
    assert RingWF(e.g, e.c, r) && RingStep(e.g, e.c.ring[r], k);
    if k + 1 == |e.c.ring[r]| {
      assert SameSource(e, next, start);
    } else {
      assert RingStep(e.g, e.c.ring[r], k + 1);
    }
  }

  /** A statement that was not entered yet owns no entered record. */
  lemma NoneOwned(e: Env, base: int, m: Store, d: Progress, pend: int, b: int)
    requires Inv(e, base, m, d, pend) && IsStmt(e, b) && b !in d.seen
    ensures forall a :: a in d.prog && IsRec(e, a) ==> e.org[a].owner != b
  {
    forall a | a in d.prog && IsRec(e, a) ensures e.org[a].owner != b {
      assert ObjInv(e, base, m, d, pend, a);
    }
  }
}
