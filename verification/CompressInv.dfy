/**
 What the writing pass of the serializer keeps true of the buffer while it is half written, and
 the proof that each single write keeps it.
 */
module CompressInv {
  import opened ParseGraph
  import opened Blob

  /** The value of `bin_defn_offset` for a record that was counted but not written yet. */
  const MAX_BIN_DEFN_OFFSET: int := 0xFFFF_FFFF_FFFF_FFFF

  /** What the writing pass changes: the marks in the graph, the buffer and the length so far. */
  datatype Output = Output(bin: map<nat, int>, out: Store, len: int)

  /** `done` says how many pointer fields of each record are set, `looping` are the statements
      whose ring is still being written, and `todo` are the shared records that were counted. */
  datatype Status = Status(done: map<int, nat>, looping: set<int>, todo: set<nat>)

  ghost predicate Written(w: Output, r: nat) {
    r in w.bin && w.bin[r] != MAX_BIN_DEFN_OFFSET
  }

  /** The pointer that `pend` holds leads to the end of the buffer, where its target goes next. */
  ghost predicate PendStmt(e: Env, w: Output, pend: int, a: int) {
    a == pend && StmtShape(e, w.out, a) && StmtAt(e, a).payload.To? && w.out[a].v == w.len - (a + V)
  }

  ghost predicate PendNext(e: Env, w: Output, pend: int, a: int) {
    && a == pend && RecShape(e, w.out, a) && Ringed(w.out[a].ty)
    && w.out[a].next == w.len - (a + LinkAt(w.out[a].ty))
  }

  ghost predicate RingWritten(e: Env, w: Output, r: nat) {
    && r in e.c.ring
    && forall j {:trigger e.c.ring[r][j]} :: 0 <= j < |e.c.ring[r]| ==> Written(w, e.c.ring[r][j])
  }

  ghost predicate StmtInv(e: Env, w: Output, x: Status, pend: int, a: int) {
    && (StmtRel(e, w.out, a) || PendStmt(e, w, pend, a))
    && StmtShape(e, w.out, a)
    && (a !in x.looping && StmtAt(e, a).payload.To? && Shared(StmtAt(e, a).ty) ==>
          RingWritten(e, w, StmtAt(e, a).payload.r))
  }

  ghost predicate FieldsInv(e: Env, w: Output, x: Status, a: int) {
    && RecShape(e, w.out, a) && a in x.done && x.done[a] <= |w.out[a].fields|
    && forall i {:trigger FieldRel(e, w.out, a, i)} :: 0 <= i < x.done[a] ==> FieldRel(e, w.out, a, i)
  }

  ghost predicate NextInv(e: Env, w: Output, x: Status, pend: int, a: int) {
    && (NextRel(e, w.out, a) || PendNext(e, w, pend, a))
    && Closed(e, w.out, x.looping, a)
  }

  /** A shared record knows its copy, an unshared one belongs to a statement in the buffer. */
  ghost predicate MarkInv(e: Env, base: int, w: Output, a: int) {
    && RecShape(e, w.out, a) && w.out[a].recomputed == RecAt(e, a).recomputed
    && if Shared(RecAt(e, a).ty) then
         e.org[a].owner == SHARED && w.out[a].bin != 0 && Written(w, e.org[a].r) && w.bin[e.org[a].r] == base + a
       else e.org[a].owner >= 0 && e.org[a].owner in e.org
  }

  ghost predicate ObjInv(e: Env, base: int, w: Output, x: Status, pend: int, a: int) {
    && ShapeAt(e, w.out, a)
    && 0 <= a && a + Size(w.out[a]) <= w.len
    && match e.org[a]
       case SStmt(_, _) => StmtInv(e, w, x, pend, a)
       case SRec(_, _) => FieldsInv(e, w, x, a) && NextInv(e, w, x, pend, a) && MarkInv(e, base, w, a)
       case SText(_, _) => true
  }

  ghost predicate Apart(m: Store, a: int, b: int) {
    a in m && b in m && a < b ==> a + Size(m[a]) <= b
  }

  /** The mark of a shared record is the address of its copy. */
  ghost predicate WrittenAt(e: Env, base: int, w: Output, r: nat) {
    && r in w.bin
    && (w.bin[r] != MAX_BIN_DEFN_OFFSET ==>
          w.bin[r] - base in e.org && e.org[w.bin[r] - base] == SRec(r, SHARED))
  }

  ghost predicate Inv(e: Env, base: int, w: Output, x: Status, pend: int) {
    && WellFormed(e.g, e.c) && RecsDistinct(e)
    && base > 0 && w.len >= 0
    && w.out.Keys == e.org.Keys && x.done.Keys <= e.org.Keys && x.looping <= e.org.Keys
    && (forall a {:trigger ObjInv(e, base, w, x, pend, a)} :: a in e.org ==> ObjInv(e, base, w, x, pend, a))
    && (forall a, b {:trigger Apart(w.out, a, b)} :: Apart(w.out, a, b))
    && (forall r {:trigger WrittenAt(e, base, w, r)} :: r in x.todo ==> WrittenAt(e, base, w, r))
  }

  // ----- frames

  /** From `e` to `e'` the buffer only gained objects. */
  ghost predicate Grown(e: Env, e': Env) {
    && e'.g == e.g && e'.c == e.c && e'.isView == e.isView
    && forall a :: a in e.org ==> a in e'.org && e'.org[a] == e.org[a]
  }

  lemma GrownRel(e: Env, m: Store, e': Env, m': Store, a: int)
    requires Grown(e, e') && a in e.org && a in m && a in m' && m'[a] == m[a]
    ensures ShapeAt(e, m, a) ==> ShapeAt(e', m', a)
    ensures StmtRel(e, m, a) ==> StmtRel(e', m', a)
    ensures NextRel(e, m, a) ==> NextRel(e', m', a)
    ensures forall i :: FieldRel(e, m, a, i) ==> FieldRel(e', m', a, i)
  {
  }

  /** Every statement with a record that `e'` has and `e` has not is in `open`. */
  ghost predicate NewStmtsIn(e: Env, e': Env, open: set<int>) {
    forall b :: b in e'.org && b !in e.org && IsStmt(e', b) && StmtAt(e', b).payload.To? ==> b in open
  }

  lemma GrownClosed(e: Env, m: Store, open: set<int>, e': Env, m': Store, open': set<int>, a: int)
    requires Grown(e, e') && a in e.org && a in m && a in m' && m'[a] == m[a]
    requires Closed(e, m, open, a) && open <= open' && NewStmtsIn(e, e', open')
    ensures Closed(e', m', open', a)
  {
    forall b ensures ClosedBy(e', m', open', a, b) {
      assert ClosedBy(e, m, open, a, b);
    }
  }

  /** Marks only move from counted to written. */
  ghost predicate MarksGrown(w: Output, w': Output) {
    && w'.bin.Keys == w.bin.Keys
    && forall r :: r in w.bin && w.bin[r] != MAX_BIN_DEFN_OFFSET ==> w'.bin[r] == w.bin[r]
  }

  ghost predicate Step(e: Env, w: Output, x: Status, e': Env, w': Output, x': Status, touched: set<int>) {
    && Grown(e, e') && MarksGrown(w, w')
    && w'.out.Keys == e'.org.Keys && w.len <= w'.len && x'.done.Keys <= e'.org.Keys && x'.looping <= e'.org.Keys
    && x'.todo == x.todo && x.looping <= x'.looping && NewStmtsIn(e, e', x'.looping)
    && (forall a :: a in e'.org && a !in e.org ==> a in touched)
    && (forall a :: a in e.org && a !in touched ==> a in w.out && a in w'.out && w'.out[a] == w.out[a])
    && (forall a :: a in x.done && a !in touched ==> a in x'.done && x'.done[a] == x.done[a])
  }

  lemma KeepObj(e: Env, base: int, w: Output, x: Status, pend: int, e': Env, w': Output, x': Status, pend': int,
      touched: set<int>, a: int)
    requires ObjInv(e, base, w, x, pend, a)
    requires Step(e, w, x, e', w', x', touched)
    requires a in e.org && a !in touched
    requires a != pend || (IsStmt(e, a) && StmtRel(e', w'.out, a)) || (IsRec(e, a) && NextRel(e', w'.out, a))
    ensures ObjInv(e', base, w', x', pend', a)
  {
    GrownRel(e, w.out, e', w'.out, a);
    if e.org[a].SRec? {
      GrownClosed(e, w.out, x.looping, e', w'.out, x'.looping, a);
      forall i | 0 <= i < x'.done[a] ensures FieldRel(e', w'.out, a, i) {
        assert FieldRel(e, w.out, a, i);
      }
    }
  }

  lemma StepKeeps(e: Env, base: int, w: Output, x: Status, pend: int, e': Env, w': Output, x': Status, pend': int,
      touched: set<int>)
    requires Inv(e, base, w, x, pend)
    requires Step(e, w, x, e', w', x', touched)
    requires pend >= 0 && pend in e.org ==>
      || pend in touched || (IsStmt(e, pend) && StmtRel(e', w'.out, pend))
      || (IsRec(e, pend) && NextRel(e', w'.out, pend))
    requires forall a :: a in touched && a in e'.org ==> ObjInv(e', base, w', x', pend', a)
    requires RecsDistinct(e')
    requires forall a, b {:trigger Apart(w'.out, a, b)} :: Apart(w'.out, a, b)
    requires forall r {:trigger WrittenAt(e', base, w', r)} :: r in x.todo ==> WrittenAt(e', base, w', r)
    ensures Inv(e', base, w', x', pend')
  {
    forall a | a in e'.org ensures ObjInv(e', base, w', x', pend', a) {
      if a !in touched {
        assert ObjInv(e, base, w, x, pend, a);
        KeepObj(e, base, w, x, pend, e', w', x', pend', touched, a);
      }
    }
  }

  /** Sizes do not change when an object is rewritten in place. */
  lemma ApartKept(m: Store, m': Store)
    requires m'.Keys == m.Keys && forall a :: a in m ==> Size(m'[a]) == Size(m[a])
    requires forall a, b {:trigger Apart(m, a, b)} :: Apart(m, a, b)
    ensures forall a, b {:trigger Apart(m', a, b)} :: Apart(m', a, b)
  {
    forall a, b ensures Apart(m', a, b) {
      assert Apart(m, a, b);
    }
  }

  /** A new object goes to the end of the buffer. */
  lemma ApartAppend(m: Store, m': Store, n: int)
    requires m'.Keys == m.Keys + {n} && n !in m && forall a :: a in m ==> m'[a] == m[a] && a + Size(m[a]) <= n
    requires forall a, b {:trigger Apart(m, a, b)} :: Apart(m, a, b)
    ensures forall a, b {:trigger Apart(m', a, b)} :: Apart(m', a, b)
  {
    forall a, b ensures Apart(m', a, b) {
      assert Apart(m, a, b);
    }
  }

  lemma InBounds(e: Env, base: int, w: Output, x: Status, pend: int)
    requires Inv(e, base, w, x, pend)
    ensures forall a :: a in w.out ==> 0 <= a && a + Size(w.out[a]) <= w.len
    ensures w.len !in w.out
  {
    forall a | a in w.out ensures 0 <= a && a + Size(w.out[a]) <= w.len {
      assert ObjInv(e, base, w, x, pend, a);
    }
  }

  lemma WrittenKept(e: Env, base: int, w: Output, todo: set<nat>, e': Env, w': Output)
    requires Grown(e, e') && w'.bin == w.bin
    requires forall r {:trigger WrittenAt(e, base, w, r)} :: r in todo ==> WrittenAt(e, base, w, r)
    ensures forall r {:trigger WrittenAt(e', base, w', r)} :: r in todo ==> WrittenAt(e', base, w', r)
  {
    forall r | r in todo ensures WrittenAt(e', base, w', r) {
      assert WrittenAt(e, base, w, r);
    }
  }

  lemma DistinctKept(e: Env, e': Env)
    requires Grown(e, e') && RecsDistinct(e)
    requires forall a :: a in e'.org && a !in e.org ==> !e'.org[a].SRec?
    ensures RecsDistinct(e')
  {
    forall a, b | SameSource(e', a, b) ensures a == b {
      assert SameSource(e, a, b);
    }
  }

  // ----- one write each

  ghost function WithStmt(e: Env, w: Output, s: nat, up: Up): Env {
    e.(org := e.org[w.len := SStmt(s, up)])
  }

  /** A statement whose payload is inline. */
  lemma AppendInline(e: Env, base: int, w: Output, x: Status, s: nat, up: Up)
    requires Inv(e, base, w, x, -1)
    requires s in e.g.stmts && !Dropped(e.g.stmts[s]) && e.g.stmts[s].payload.Inline?
    ensures var st := e.g.stmts[s];
            var w' := w.(out := w.out[w.len := StmtObj(st.ty, st.payload.word, st.extra)], len := w.len + STMT_SIZE);
            Inv(WithStmt(e, w, s, up), base, w', x, -1)
  {
    var st := e.g.stmts[s];
    var w' := w.(out := w.out[w.len := StmtObj(st.ty, st.payload.word, st.extra)], len := w.len + STMT_SIZE);
    var e' := WithStmt(e, w, s, up);
    InBounds(e, base, w, x, -1);
    ApartAppend(w.out, w'.out, w.len);
    WrittenKept(e, base, w, x.todo, e', w');
    DistinctKept(e, e');
    assert ObjInv(e', base, w', x, -1, w.len);
    StepKeeps(e, base, w, x, -1, e', w', x, -1, {w.len});
  }

  /** A statement whose payload record is written next, or pointed to instead. */
  lemma AppendStmt(e: Env, base: int, w: Output, x: Status, s: nat, up: Up)
    requires Inv(e, base, w, x, -1)
    requires s in e.g.stmts && e.g.stmts[s].payload.To?
    ensures var st := e.g.stmts[s];
            var w' := w.(out := w.out[w.len := StmtObj(st.ty, STMT_SIZE - V, st.extra)], len := w.len + STMT_SIZE);
            Inv(WithStmt(e, w, s, up), base, w', x.(looping := x.looping + {w.len}), w.len)
  {
    var st := e.g.stmts[s];
    var w' := w.(out := w.out[w.len := StmtObj(st.ty, STMT_SIZE - V, st.extra)], len := w.len + STMT_SIZE);
    var e' := WithStmt(e, w, s, up);
    var x' := x.(looping := x.looping + {w.len});
    InBounds(e, base, w, x, -1);
    ApartAppend(w.out, w'.out, w.len);
    WrittenKept(e, base, w, x.todo, e', w');
    DistinctKept(e, e');
    assert ObjInv(e', base, w', x', w.len, w.len);
    StepKeeps(e, base, w, x, -1, e', w', x', w.len, {w.len});
  }

  lemma AppendText(e: Env, base: int, w: Output, x: Status, text: string, up: Up)
    requires Inv(e, base, w, x, -1)
    ensures var w' := w.(out := w.out[w.len := TextObj(text)], len := w.len + |text| + 1);
            Inv(e.(org := e.org[w.len := SText(text, up)]), base, w', x, -1)
  {
    var w' := w.(out := w.out[w.len := TextObj(text)], len := w.len + |text| + 1);
    var e' := e.(org := e.org[w.len := SText(text, up)]);
    InBounds(e, base, w, x, -1);
    ApartAppend(w.out, w'.out, w.len);
    WrittenKept(e, base, w, x.todo, e', w');
    DistinctKept(e, e');
    StepKeeps(e, base, w, x, -1, e', w', x, -1, {w.len});
  }

  /** A statement that leads to a shared record written before. */
  lemma PointStmt(e: Env, base: int, w: Output, x: Status, a: int)
    requires Inv(e, base, w, x, a)
    requires IsStmt(e, a) && StmtAt(e, a).payload.To? && a in x.looping && a in w.out && w.out[a].StmtObj?
    requires Shared(StmtAt(e, a).ty) && StmtAt(e, a).payload.r in x.todo && Written(w, StmtAt(e, a).payload.r)
    ensures Inv(e, base, w.(out := w.out[a := w.out[a].(v := w.bin[StmtAt(e, a).payload.r] - (base + a + V))]), x, -1)
  {
    var r := StmtAt(e, a).payload.r;
    var w' := w.(out := w.out[a := w.out[a].(v := w.bin[r] - (base + a + V))]);
    assert ObjInv(e, base, w, x, a, a);
    assert StmtWF(e.g, e.org[a].s);
    assert WrittenAt(e, base, w, r);
    assert Apart(w.out, a, w.bin[r] - base);
    ApartKept(w.out, w'.out);
    WrittenKept(e, base, w, x.todo, e, w');
    assert ObjInv(e, base, w', x, -1, a);
    StepKeeps(e, base, w, x, a, e, w', x, -1, {a});
  }

  /** The record that `pend` waits for. */
  ghost predicate Awaits(e: Env, pend: int, src: Src) {
    && (IsStmt(e, pend) && StmtAt(e, pend).payload.To? ==>
          src == SRec(StmtAt(e, pend).payload.r, Owner(StmtAt(e, pend).ty, pend)))
    && (IsRec(e, pend) ==> src == SRec(RecAt(e, pend).next, e.org[pend].owner))
  }

  ghost function NewRec(e: Env, r: nat, bin: int): Obj
    requires r in e.g.recs && |e.g.recs[r].data| == ScalarCount(e.g.recs[r].ty)
  {
    var q := e.g.recs[r];
    RecObj(q.ty, seq(Arity(q.ty), i => 0), Copied(q.ty, q.data, e.isView), q.recomputed, bin, 0, 0)
  }

  ghost function WithRec(e: Env, base: int, w: Output, r: nat): Output
    requires r in e.g.recs && |e.g.recs[r].data| == ScalarCount(e.g.recs[r].ty)
  {
    var shared := Shared(e.g.recs[r].ty);
    Output(if shared then w.bin[r := base + w.len] else w.bin,
           w.out[w.len := NewRec(e, r, if shared then base + w.len else 0)],
           w.len + RecSize(e.g.recs[r].ty))
  }

  lemma AppendedRec(e: Env, base: int, w: Output, x: Status, pend: int, r: nat, owner: int)
    requires Inv(e, base, w, x, pend)
    requires r in e.g.recs && |e.g.recs[r].data| == ScalarCount(e.g.recs[r].ty)
    requires if Shared(e.g.recs[r].ty) then owner == SHARED && r in w.bin && !Written(w, r)
        && base + w.len != MAX_BIN_DEFN_OFFSET
             else owner >= 0 && owner in e.org && owner in x.looping
    ensures var e' := e.(org := e.org[w.len := SRec(r, owner)]);
            ObjInv(e', base, WithRec(e, base, w, r), x.(done := x.done[w.len := 0]), -1, w.len)
  {
    var e' := e.(org := e.org[w.len := SRec(r, owner)]);
    var w' := WithRec(e, base, w, r);
    assert RecWF(e.g, r);
    CopiedKept(e.g.recs[r].ty, e.isView, e.g.recs[r].data);
    InBounds(e, base, w, x, pend);
    forall b ensures ClosedBy(e', w'.out, x.looping, w.len, b) {
      if b in e.org {
        assert ObjInv(e, base, w, x, pend, b);
      }
    }
  }

  lemma RecStep(e: Env, base: int, w: Output, x: Status, pend: int, r: nat, owner: int)
    requires Inv(e, base, w, x, pend) && w.len !in w.out
    requires r in e.g.recs && |e.g.recs[r].data| == ScalarCount(e.g.recs[r].ty)
    requires Shared(e.g.recs[r].ty) ==> r in w.bin && !Written(w, r) && base + w.len != MAX_BIN_DEFN_OFFSET
    ensures Step(e, w, x, e.(org := e.org[w.len := SRec(r, owner)]), WithRec(e, base, w, r),
                 x.(done := x.done[w.len := 0]), {w.len})
  {
    hide ObjInv, RecsDistinct, WrittenAt;
  }

  /** A record goes to the end of the buffer, where `pend` already points. */
  lemma AppendRec(e: Env, base: int, w: Output, x: Status, pend: int, r: nat, owner: int)
    requires Inv(e, base, w, x, pend)
    requires r in e.g.recs && |e.g.recs[r].data| == ScalarCount(e.g.recs[r].ty)
    requires if Shared(e.g.recs[r].ty) then owner == SHARED && r in w.bin && !Written(w, r)
        && base + w.len != MAX_BIN_DEFN_OFFSET
             else owner >= 0 && owner in e.org && owner in x.looping
    requires forall a :: a in e.org ==> e.org[a] != SRec(r, owner)
    requires pend == -1 || IsStmt(e, pend) || IsRec(e, pend)
    requires Awaits(e, pend, SRec(r, owner))
    ensures Inv(e.(org := e.org[w.len := SRec(r, owner)]), base, WithRec(e, base, w, r),
        x.(done := x.done[w.len := 0]), -1)
  {
    var e' := e.(org := e.org[w.len := SRec(r, owner)]);
    var w' := WithRec(e, base, w, r);
    var x' := x.(done := x.done[w.len := 0]);
    hide ObjInv, RecsDistinct, Awaits, WrittenAt, Step;
    InBounds(e, base, w, x, pend);
    ApartAppend(w.out, w'.out, w.len);
    AppendedRec(e, base, w, x, pend, r, owner);
    WrittenAppend(e, base, w, x.todo, r, owner);
    RecStep(e, base, w, x, pend, r, owner);
    DistinctAppend(e, w.len, r, owner);
    if pend != -1 {
      PendResolved(e, base, w, x, pend, e', w', SRec(r, owner));
    }
    StepKeeps(e, base, w, x, pend, e', w', x', -1, {w.len});
  }

  lemma WrittenAppend(e: Env, base: int, w: Output, todo: set<nat>, r: nat, owner: int)
    requires r in e.g.recs && |e.g.recs[r].data| == ScalarCount(e.g.recs[r].ty) && w.len !in e.org
    requires Shared(e.g.recs[r].ty) ==> owner == SHARED
    requires forall q {:trigger WrittenAt(e, base, w, q)} :: q in todo ==> WrittenAt(e, base, w, q)
    ensures var e', w' := e.(org := e.org[w.len := SRec(r, owner)]), WithRec(e, base, w, r);
            forall q {:trigger WrittenAt(e', base, w', q)} :: q in todo ==> WrittenAt(e', base, w', q)
  {
    var e', w' := e.(org := e.org[w.len := SRec(r, owner)]), WithRec(e, base, w, r);
    forall q | q in todo ensures WrittenAt(e', base, w', q) {
      assert WrittenAt(e, base, w, q);
    }
  }

  lemma DistinctAppend(e: Env, n: int, r: nat, owner: int)
    requires RecsDistinct(e) && forall a :: a in e.org ==> e.org[a] != SRec(r, owner)
    requires n !in e.org
    ensures RecsDistinct(e.(org := e.org[n := SRec(r, owner)]))
  {
    var e' := e.(org := e.org[n := SRec(r, owner)]);
    forall a, b | SameSource(e', a, b) ensures a == b {
      assert a != n && b != n ==> SameSource(e, a, b);
    }
  }

  lemma PendResolved(e: Env, base: int, w: Output, x: Status, pend: int, e': Env, w': Output, src: Src)
    requires Inv(e, base, w, x, pend)
    requires Grown(e, e') && pend in w'.out && pend in w.out && w'.out[pend] == w.out[pend]
    requires IsStmt(e, pend) || IsRec(e, pend)
    requires Awaits(e, pend, src) && w.len in e'.org && e'.org[w.len] == src
    ensures (IsStmt(e, pend) && StmtRel(e', w'.out, pend)) || (IsRec(e, pend) && NextRel(e', w'.out, pend))
  {
    assert ObjInv(e, base, w, x, pend, pend);
    GrownRel(e, w.out, e', w'.out, pend);
  }

  lemma FieldWritten(e: Env, base: int, w: Output, x: Status, a: int, i: nat, p: int, y: int)
    requires ObjInv(e, base, w, x, -1, a) && Apart(w.out, a, p)
    requires IsRec(e, a) && a in x.done && x.done[a] == i && a in w.out && w.out[a].RecObj?
    requires i < |w.out[a].fields| && i < |RecAt(e, a).fields|
    requires if Kept(e.g, RecAt(e, a).fields[i]) then p > a && ChildAt(e, a, i, p) && p in w.out && y == p - (a + i)
             else y == 0
    ensures ObjInv(e, base, w.(out := w.out[a := w.out[a].(fields := w.out[a].fields[i := y])]),
                   x.(done := x.done[a := i + 1]), -1, a)
  {
    var w' := w.(out := w.out[a := w.out[a].(fields := w.out[a].fields[i := y])]);
    assert FieldRel(e, w'.out, a, i);
    forall j | 0 <= j < i ensures FieldRel(e, w'.out, a, j) {
      assert FieldRel(e, w.out, a, j);
    }
    forall b ensures ClosedBy(e, w'.out, x.looping, a, b) {
      assert ClosedBy(e, w.out, x.looping, a, b);
    }
  }

  /** The pointer to child `i` of record `a` is set once the child has been written. */
  lemma SetField(e: Env, base: int, w: Output, x: Status, a: int, i: nat, p: int)
    requires Inv(e, base, w, x, -1)
    requires IsRec(e, a) && a in x.done && x.done[a] == i && a in w.out && w.out[a].RecObj?
    requires i < |w.out[a].fields| && i < |RecAt(e, a).fields|
    requires Kept(e.g, RecAt(e, a).fields[i]) ==> p > a && ChildAt(e, a, i, p)
    ensures var y := if Kept(e.g, RecAt(e, a).fields[i]) then p - (a + i) else 0;
            Inv(e, base, w.(out := w.out[a := w.out[a].(fields := w.out[a].fields[i := y])]),
                x.(done := x.done[a := i + 1]), -1)
  {
    hide ObjInv, WrittenAt, RecsDistinct;
    var y := if Kept(e.g, RecAt(e, a).fields[i]) then p - (a + i) else 0;
    var w' := w.(out := w.out[a := w.out[a].(fields := w.out[a].fields[i := y])]);
    assert ObjInv(e, base, w, x, -1, a);
    assert Apart(w.out, a, p);
    ApartKept(w.out, w'.out);
    WrittenKept(e, base, w, x.todo, e, w');
    FieldWritten(e, base, w, x, a, i, p, y);
    StepKeeps(e, base, w, x, -1, e, w', x.(done := x.done[a := i + 1]), -1, {a});
  }

  lemma NextWritten(e: Env, base: int, w: Output, x: Status, a: int, t: int)
    requires ObjInv(e, base, w, x, -1, a) && Apart(w.out, a, t) && Apart(w.out, t, a)
    requires IsRec(e, a) && a in w.out && w.out[a].RecObj? && Ringed(w.out[a].ty)
    requires (t != a && t in w.out && NextAt(e, a, t)) || (t == w.len && a + Size(w.out[a]) <= w.len)
    ensures var w' := w.(out := w.out[a := w.out[a].(next := t - (a + LinkAt(w.out[a].ty)))]);
            w'.out[a].next != 0 && ObjInv(e, base, w', x, if t == w.len then a else -1, a)
  {
    var w' := w.(out := w.out[a := w.out[a].(next := t - (a + LinkAt(w.out[a].ty)))]);
    forall j | 0 <= j < x.done[a] ensures FieldRel(e, w'.out, a, j) {
      assert FieldRel(e, w.out, a, j);
    }
  }

  /** The ring link of record `a` is set, to a record written before or to the end of the buffer. */
  lemma SetNext(e: Env, base: int, w: Output, x: Status, a: int, t: int)
    requires Inv(e, base, w, x, -1)
    requires IsRec(e, a) && a in w.out && w.out[a].RecObj? && Ringed(w.out[a].ty)
    requires (t != a && NextAt(e, a, t)) || t == w.len
    ensures var w' := w.(out := w.out[a := w.out[a].(next := t - (a + LinkAt(w.out[a].ty)))]);
            w'.out[a].next != 0 && Inv(e, base, w', x, if t == w.len then a else -1)
  {
    hide ObjInv, WrittenAt, RecsDistinct;
    var w' := w.(out := w.out[a := w.out[a].(next := t - (a + LinkAt(w.out[a].ty)))]);
    InBounds(e, base, w, x, -1);
    assert ObjInv(e, base, w, x, -1, a);
    assert Apart(w.out, a, t) && Apart(w.out, t, a);
    ApartKept(w.out, w'.out);
    WrittenKept(e, base, w, x.todo, e, w');
    NextWritten(e, base, w, x, a, t);
    StepKeeps(e, base, w, x, -1, e, w', x, if t == w.len then a else -1, {a});
  }

  /** The ring of statement `b` is complete: only the record before its start can lack a link. */
  lemma EndRing(e: Env, base: int, w: Output, x: Status, b: int)
    requires Inv(e, base, w, x, -1)
    requires IsStmt(e, b) && StmtAt(e, b).payload.To?
    requires Shared(StmtAt(e, b).ty) ==> RingWritten(e, w, StmtAt(e, b).payload.r)
    requires forall a {:trigger Enters(e, b, a)} ::
      Enters(e, b, a) && a in w.out && w.out[a].RecObj? && w.out[a].next == 0 ==>
               RecAt(e, a).next == StmtAt(e, b).payload.r
    ensures Inv(e, base, w, x.(looping := x.looping - {b}), -1)
  {
    var x' := x.(looping := x.looping - {b});
    forall a | a in e.org ensures ObjInv(e, base, w, x', -1, a) {
      assert ObjInv(e, base, w, x, -1, a);
      if e.org[a].SRec? {
        forall y ensures ClosedBy(e, w.out, x'.looping, a, y) {
          assert ClosedBy(e, w.out, x.looping, a, y);
        }
      }
    }
  }

  /** What a call leaves alone: it only appends objects, completes the records that it appends,
      and appends unshared records only for `owners` or for statements of its own.  In records
      written before, it may only set a missing link. */
  ghost predicate Extends(e: Env, w: Output, x: Status, e': Env, w': Output, x': Status, free: set<int>,
      owners: set<int>) {
    && Grown(e, e') && MarksGrown(w, w') && w.len <= w'.len
    && x'.looping == x.looping && x'.todo == x.todo
    && (forall a :: a in x.done && a !in free ==> a in x'.done && x'.done[a] == x.done[a])
    && (forall a :: a in e'.org && a !in e.org ==> a >= w.len)
    && (forall a {:trigger IsRec(e', a)} :: IsRec(e', a) && a !in e.org && a !in free ==>
          && a in x'.done && x'.done[a] == Arity(RecAt(e', a).ty)
          && (e'.org[a].owner == SHARED || e'.org[a].owner in owners || e'.org[a].owner !in e.org))
    && (forall a {:trigger Linked(w, a)} :: a in e.org && Linked(w, a) ==> Linked(w', a))
  }

  ghost predicate Linked(w: Output, a: int) {
    a in w.out && w.out[a].RecObj? && w.out[a].next != 0
  }

  lemma ExtendsSelf(e: Env, w: Output, x: Status, free: set<int>, owners: set<int>)
    ensures Extends(e, w, x, e, w, x, free, owners)
  {
  }

  /** A write to a record that keeps its link. */
  lemma ExtendsWrite(e: Env, w: Output, x: Status, e1: Env, w1: Output, x1: Status, w2: Output, x2: Status, a: int,
      free: set<int>, owners: set<int>)
    requires Extends(e, w, x, e1, w1, x1, free, owners) && a in w1.out && a in w2.out
    requires w2 == w1.(out := w1.out[a := w2.out[a]]) && (Linked(w1, a) ==> Linked(w2, a))
    requires x2.looping == x1.looping && x2.todo == x1.todo && x2.done.Keys == x1.done.Keys
    requires forall b :: b in x1.done && b != a ==> x2.done[b] == x1.done[b]
    requires x2.done == x1.done || (a in e.org && a in free)
    ensures Extends(e, w, x, e1, w2, x2, free, owners)
  {
    forall b | b in e.org && Linked(w, b) ensures Linked(w2, b) {
      assert Linked(w1, b);
    }
  }

  lemma ExtendsAt(e: Env, w: Output, x: Status, e1: Env, w1: Output, x1: Status, free: set<int>, owners: set<int>,
      a: int)
    requires Extends(e, w, x, e1, w1, x1, free, owners)
    ensures a in e.org ==> a in e1.org && e1.org[a] == e.org[a]
    ensures IsRec(e, a) ==> IsRec(e1, a)
    ensures a in x.done && a !in free ==> a in x1.done && x1.done[a] == x.done[a]
    ensures a in e.org && Linked(w, a) ==> Linked(w1, a)
    ensures x1.todo == x.todo && x1.looping == x.looping
  {
  }

  lemma ExtendsFree(e: Env, w: Output, x: Status, e1: Env, w1: Output, x1: Status, free: set<int>, owners: set<int>)
    requires Extends(e, w, x, e1, w1, x1, {}, {})
    ensures Extends(e, w, x, e1, w1, x1, free, owners)
  {
  }

  lemma ExtendsTrans(e: Env, w: Output, x: Status, e1: Env, w1: Output, x1: Status, e2: Env, w2: Output, x2: Status,
                     free: set<int>, owners: set<int>)
    requires Extends(e, w, x, e1, w1, x1, free, owners)
    requires Extends(e1, w1, x1, e2, w2, x2, free, owners)
    ensures Extends(e, w, x, e2, w2, x2, free, owners)
  {
    forall a | IsRec(e2, a) && a !in e.org && a !in free
      ensures a in x2.done && x2.done[a] == Arity(RecAt(e2, a).ty)
              && (e2.org[a].owner == SHARED || e2.org[a].owner in owners || e2.org[a].owner !in e.org)
    {
      if a in e1.org { assert IsRec(e1, a); }
    }
    forall a | a in e.org && Linked(w, a) ensures Linked(w2, a) {
      assert Linked(w1, a);
    }
  }

  /** Appending a record and completing it. */
  lemma ExtendsRec(e: Env, base: int, w: Output, x: Status, pend: int, r: nat, owner: int, e2: Env, w2: Output,
      x2: Status)
    requires Inv(e, base, w, x, pend)
    requires r in e.g.recs && |e.g.recs[r].data| == ScalarCount(e.g.recs[r].ty)
    requires Shared(e.g.recs[r].ty) ==> owner == SHARED && r in w.bin && !Written(w, r)
    requires Extends(e.(org := e.org[w.len := SRec(r, owner)]), WithRec(e, base, w, r), x.(done := x.done[w.len := 0]),
                     e2, w2, x2, {w.len}, {})
    requires w.len in x2.done && x2.done[w.len] == Arity(e.g.recs[r].ty)
    ensures Extends(e, w, x, e2, w2, x2, {}, {owner})
    ensures forall q {:trigger IsRec(e2, q)} ::
      IsRec(e2, q) && q !in e.org && e2.org[q].owner != SHARED && e2.org[q].owner in e.org ==> q == w.len
  {
    var e1, w1 := e.(org := e.org[w.len := SRec(r, owner)]), WithRec(e, base, w, r);
    InBounds(e, base, w, x, pend);
    forall a | a in e.org && Linked(w, a) ensures Linked(w2, a) {
      assert Linked(w1, a);
    }
    forall a | IsRec(e2, a) && a !in e.org
      ensures a in x2.done && x2.done[a] == Arity(RecAt(e2, a).ty)
              && (e2.org[a].owner == SHARED || e2.org[a].owner in {owner} || e2.org[a].owner !in e.org)
    {
    }
  }

  /** The ring that the statement at `a` enters at `r0` is written up to element `k`: element `j`
      is at `es[j]`, and all but the last are linked to their successors. */
  ghost predicate RingState(e: Env, w: Output, a: int, r0: nat, k: nat, es: seq<int>) {
    && IsStmt(e, a) && StmtAt(e, a).payload == To(r0) && r0 in e.c.ring && k <= |e.c.ring[r0]| && |es| == k
    && var ring, owner := e.c.ring[r0], Owner(StmtAt(e, a).ty, a);
    && (forall j {:trigger es[j]} :: 0 <= j < k ==> es[j] in e.org && e.org[es[j]] == SRec(ring[j], owner))
    && (forall j {:trigger es[j]} :: 0 <= j < k - 1 ==> Linked(w, es[j]))
    && (forall q {:trigger IsRec(e, q)} :: IsRec(e, q) && e.org[q].owner == a ==> e.org[q].r in ring[..k])
  }

  /** A complete ring meets the precondition of `EndRing`. */
  lemma RingComplete(e: Env, base: int, w: Output, x: Status, a: int, r0: nat, es: seq<int>)
    requires Inv(e, base, w, x, -1) && r0 in e.c.ring && r0 in e.g.recs
    requires RingState(e, w, a, r0, |e.c.ring[r0]|, es)
    ensures Shared(StmtAt(e, a).ty) ==> RingWritten(e, w, r0)
    ensures forall q {:trigger Enters(e, a, q)} ::
      Enters(e, a, q) && q in w.out && w.out[q].RecObj? && w.out[q].next == 0 ==>
              RecAt(e, q).next == r0
  {
    var ring := e.c.ring[r0];
    assert RingWF(e.g, e.c, r0) && StmtWF(e.g, e.org[a].s);
    forall j | 0 <= j < |ring| ensures Shared(StmtAt(e, a).ty) ==> Written(w, ring[j]) {
      assert RingStep(e.g, ring, j);
      assert ObjInv(e, base, w, x, -1, es[j]);
    }
    forall q | Enters(e, a, q) && q in w.out && w.out[q].RecObj? && w.out[q].next == 0 ensures RecAt(e, q).next == r0 {
      var j :| 0 <= j < |ring| && ring[j] == e.org[q].r;
      assert RingStep(e.g, ring, j);
      assert SameSource(e, q, es[j]);
    }
  }

  /** Linking the last element written to the next element of the ring. */
  lemma LinkNext(e: Env, base: int, w: Output, x: Status, a: int, r0: nat, k: nat, es: seq<int>, t: int)
    requires Inv(e, base, w, x, -1) && r0 in e.c.ring && r0 in e.g.recs && 0 < k < |e.c.ring[r0]|
    requires RingState(e, w, a, r0, k, es)
    requires Ringed(StmtAt(e, a).ty)
    requires t == w.len || (t in e.org && e.org[t] == SRec(e.c.ring[r0][k], Owner(StmtAt(e, a).ty, a)))
    ensures var l := es[k - 1];
            && l in w.out && w.out[l].RecObj? && IsRec(e, l) && w.out[l].ty == StmtAt(e, a).ty
            && RecAt(e, l).next == e.c.ring[r0][k] && e.org[l].owner == Owner(StmtAt(e, a).ty, a)
            && var w' := w.(out := w.out[l := w.out[l].(next := t - (l + LinkAt(w.out[l].ty)))]);
            && Inv(e, base, w', x, if t == w.len then l else -1)
            && RingState(e, w', a, r0, k, es) && Linked(w', l)
  {
    var l, ring := es[k - 1], e.c.ring[r0];
    assert RingWF(e.g, e.c, r0) && StmtWF(e.g, e.org[a].s) && RingStep(e.g, ring, k - 1) && RingStep(e.g, ring, k);
    assert ObjInv(e, base, w, x, -1, l);
    SetNext(e, base, w, x, l, t);
    var w' := w.(out := w.out[l := w.out[l].(next := t - (l + LinkAt(w.out[l].ty)))]);
    assert forall q :: Linked(w, q) ==> Linked(w', q);
  }

  /** The ring after one more element. */
  lemma RingGrown(e: Env, w: Output, x: Status, e': Env, w': Output, x': Status, a: int, r0: nat, k: nat,
      es: seq<int>, l: int)
    requires WellFormed(e.g, e.c) && r0 in e.g.recs && r0 in e.c.ring && k < |e.c.ring[r0]|
    requires RingState(e, w, a, r0, k, es) && (k > 0 ==> Linked(w, es[k - 1]))
    requires Extends(e, w, x, e', w', x', {}, {Owner(StmtAt(e, a).ty, a)})
    requires l in e'.org && e'.org[l] == SRec(e.c.ring[r0][k], Owner(StmtAt(e, a).ty, a))
    requires forall q {:trigger IsRec(e', q)} :: IsRec(e', q) && q !in e.org && e'.org[q].owner == a ==> q == l
    ensures RingState(e', w', a, r0, k + 1, es + [l])
  {
    var es' := es + [l];
    forall j | 0 <= j < k ensures Linked(w', es'[j]) {
      assert es'[j] == es[j];
      assert Linked(w, es[j]);
    }
    forall q | IsRec(e', q) && e'.org[q].owner == a ensures e'.org[q].r in e.c.ring[r0][..k + 1] {
      if q in e.org { assert IsRec(e, q); }
    }
  }

  /** The next element of the ring has no copy yet, unless it is a shared record written before. */
  lemma NoCopy(e: Env, base: int, w: Output, x: Status, pend: int, a: int, r0: nat, k: nat, es: seq<int>)
    requires Inv(e, base, w, x, pend) && r0 in e.c.ring && r0 in e.g.recs && k < |e.c.ring[r0]|
    requires RingState(e, w, a, r0, k, es)
    requires Shared(StmtAt(e, a).ty) ==> !Written(w, e.c.ring[r0][k])
    ensures forall q :: q in e.org ==> e.org[q] != SRec(e.c.ring[r0][k], Owner(StmtAt(e, a).ty, a))
  {
    var cur := e.c.ring[r0][k];
    assert RingWF(e.g, e.c, r0) && StmtWF(e.g, e.org[a].s) && RingStep(e.g, e.c.ring[r0], k);
    forall q | q in e.org ensures e.org[q] != SRec(cur, Owner(StmtAt(e, a).ty, a)) {
      assert ObjInv(e, base, w, x, pend, q);
      assert IsRec(e, q) || !e.org[q].SRec?;
    }
  }

  lemma FirstOfRing(e: Env, base: int, w: Output, x: Status, a: int, r0: nat)
    requires Inv(e, base, w, x, a) && IsStmt(e, a) && StmtAt(e, a).payload == To(r0)
    requires forall q {:trigger IsRec(e, q)} :: IsRec(e, q) ==> e.org[q].owner != a
    ensures r0 in e.g.recs && r0 in e.c.ring && |e.c.ring[r0]| > 0 && e.c.ring[r0][0] == r0
    ensures RingState(e, w, a, r0, 0, [])
    ensures
      || (Shared(StmtAt(e, a).ty) && Written(w, r0))
      || (forall q :: q in e.org ==> e.org[q] != SRec(r0, Owner(StmtAt(e, a).ty, a)))
    ensures Awaits(e, a, SRec(r0, Owner(StmtAt(e, a).ty, a)))
  {
    assert StmtWF(e.g, e.org[a].s) && RingWF(e.g, e.c, r0);
    if !(Shared(StmtAt(e, a).ty) && Written(w, r0)) {
      NoCopy(e, base, w, x, a, a, r0, 0, []);
    }
  }

  /** Nothing belongs to a statement that is not in the buffer yet. */
  lemma NothingOwned(e: Env, base: int, w: Output, x: Status, s: nat, up: Up)
    requires Inv(e, base, w, x, -1)
    ensures forall q {:trigger IsRec(WithStmt(e, w, s, up), q)} :: IsRec(WithStmt(e, w, s, up), q) ==>
      WithStmt(e, w, s, up).org[q].owner != w.len
  {
    InBounds(e, base, w, x, -1);
    forall q | IsRec(WithStmt(e, w, s, up), q) ensures e.org[q].owner != w.len {
      assert ObjInv(e, base, w, x, -1, q);
    }
  }

  /** Appending a statement and its ring, seen from before. */
  lemma ExtendsStmt(e: Env, base: int, w: Output, x: Status, s: nat, up: Up, w1: Output, e2: Env, w2: Output,
      x2: Status, owner: int)
    requires Inv(e, base, w, x, -1)
    requires w1.bin == w.bin && w1.len >= w.len && (forall a :: a in w.out ==> a in w1.out && w1.out[a] == w.out[a])
    requires Extends(WithStmt(e, w, s, up), w1, x.(looping := x.looping + {w.len}), e2, w2, x2, {}, {owner})
    requires owner == SHARED || owner == w.len
    ensures x2.looping - {w.len} == x.looping
    ensures Extends(e, w, x, e2, w2, x2.(looping := x.looping), {}, {})
    ensures w.len in e2.org && e2.org[w.len] == SStmt(s, up)
  {
    InBounds(e, base, w, x, -1);
    forall a | a in e.org && Linked(w, a) ensures Linked(w2, a) {
      assert Linked(w1, a);
    }
  }

  /** Setting the link before element `k` of a ring: its target is the copy of a shared record
      written before, or the end of the buffer, where the element has no copy yet and goes next. */
  lemma LinkReady(e: Env, base: int, w: Output, x: Status, a: int, r0: nat, k: nat, es: seq<int>, ahead: bool, t: int)
    requires Inv(e, base, w, x, -1) && r0 in e.c.ring && r0 in e.g.recs && 0 < k < |e.c.ring[r0]|
    requires RingState(e, w, a, r0, k, es) && Ringed(StmtAt(e, a).ty)
    requires var cur, ty := e.c.ring[r0][k], StmtAt(e, a).ty;
             && (Shared(ty) ==> cur in x.todo)
             && ahead == !(Shared(ty) && Written(w, cur))
             && (ahead ==> t == w.len) && (!ahead ==> t == w.bin[cur] - base)
    ensures var l, ty := es[k - 1], StmtAt(e, a).ty;
            && l in w.out && w.out[l].RecObj? && w.out[l].ty == ty
            && var w' := w.(out := w.out[l := w.out[l].(next := t - (l + LinkAt(ty)))]);
            && Inv(e, base, w', x, if ahead then l else -1)
            && RingState(e, w', a, r0, k, es) && Linked(w', l)
            && Extends(e, w, x, e, w', x, {}, {Owner(ty, a)})
    ensures ahead ==> IsRec(e, es[k - 1]) && Awaits(e, es[k - 1], SRec(e.c.ring[r0][k], Owner(StmtAt(e, a).ty, a)))
                      && (forall q :: q in e.org ==> e.org[q] != SRec(e.c.ring[r0][k], Owner(StmtAt(e, a).ty, a)))
  {
    var l, cur, ty := es[k - 1], e.c.ring[r0][k], StmtAt(e, a).ty;
    if Shared(ty) {
      assert WrittenAt(e, base, w, cur);
    }
    InBounds(e, base, w, x, -1);
    LinkNext(e, base, w, x, a, r0, k, es, t);
    var w' := w.(out := w.out[l := w.out[l].(next := t - (l + LinkAt(ty)))]);
    ExtendsSelf(e, w, x, {}, {Owner(ty, a)});
    ExtendsWrite(e, w, x, e, w, x, w', x, l, {}, {Owner(ty, a)});
    if ahead {
      NoCopy(e, base, w, x, -1, a, r0, k, es);
    }
  }
}
