/**
 The serializer: one pass over the graph that counts cells and marks the shared records it met,
 and a second pass that writes the buffer.
 */
module Compress {
  import opened Common
  import opened ParseGraph
  import opened Blob
  import opened Walk
  import opened CompressInv

  /** The state at which the writing of a record's fields or of a ring began. */
  datatype Before = Before(e: Env, w: Output, x: Status, met: set<nat>, log: seq<Item>)

  // ----- counting pass

  ghost predicate Ready(g: Graph, c: Cert, w: Output) {
    WellFormed(g, c) && w.bin.Keys == g.recs.Keys && w.len >= 0
  }

  /** The shared records that the counting pass has met. */
  ghost function Counted(g: Graph, w: Output): set<nat> {
    set r | r in g.recs && Shared(g.recs[r].ty) && r in w.bin && w.bin[r] == MAX_BIN_DEFN_OFFSET
  }

  /** The counting pass has taken trip `t` since the length was `n` and the log `log0`. */
  ghost predicate CountedTrip(g: Graph, c: Cert, w: Output, log: seq<Item>, t: Trip, n: int, log0: seq<Item>) {
    Ready(g, c, w) && Counted(g, w) == t.met && log == log0 + t.items && w.len == n + TotalSize(g, t.items)
  }

  // ----- writing pass

  ghost predicate Good(g: Graph, c: Cert, isView: bool, base: int, e: Env, w: Output, x: Status, pend: int) {
    && Ready(g, c, w) && e.g == g && e.c == c && e.isView == isView
    && (forall r :: r in x.todo ==> r in g.recs && Shared(g.recs[r].ty))
    && Inv(e, base, w, x, pend)
  }

  /** The counted records that have been written. */
  ghost function Met(w: Output, x: Status): set<nat> {
    set r | r in x.todo && r in w.bin && w.bin[r] != MAX_BIN_DEFN_OFFSET
  }

  lemma MetWith(e: Env, base: int, w: Output, x: Status, r: nat)
    requires r in e.g.recs && |e.g.recs[r].data| == ScalarCount(e.g.recs[r].ty)
    requires Shared(e.g.recs[r].ty) ==> r in x.todo && base + w.len != MAX_BIN_DEFN_OFFSET
    ensures Met(WithRec(e, base, w, r), x.(done := x.done[w.len := 0])) ==
            if Shared(e.g.recs[r].ty) then Met(w, x) + {r} else Met(w, x)
  {
  }

  /** Trip `t`, begun at length `n`, stays within the counted records and the address space. */
  ghost predicate Room(g: Graph, base: int, n: int, x: Status, t: Trip) {
    t.met <= x.todo && base + n + TotalSize(g, t.items) <= MAX_BIN_DEFN_OFFSET
  }

  /** The writing pass has taken trip `t` since the length was `n` and the log `log0`. */
  ghost predicate WroteTrip(g: Graph, w: Output, x: Status, log: seq<Item>, t: Trip, n: int, log0: seq<Item>) {
    Met(w, x) == t.met && log == log0 + t.items && w.len == n + TotalSize(g, t.items)
  }

  /** Since `was`, the first `i` fields of the record at `a` were set. */
  ghost predicate FieldsProgress(g: Graph, c: Cert, isView: bool, base: int, e: Env, w: Output, x: Status,
      log: seq<Item>, was: Before, a: int, r: nat, i: nat) {
    && Good(g, c, isView, base, e, w, x, -1)
    && IsRec(e, a) && e.org[a].r == r && a in x.done && x.done[a] == i <= |g.recs[r].fields|
    && WroteTrip(g, w, x, log, WalkFields(g, c, was.met, r, i), was.w.len, was.log)
    && Extends(was.e, was.w, was.x, e, w, x, {a}, {}) && x.todo == was.x.todo
    && Room(g, base, was.w.len, x, WalkFields(g, c, was.met, r, |g.recs[r].fields|))
  }

  lemma FieldsBegun(g: Graph, c: Cert, isView: bool, base: int, e: Env, w: Output, x: Status, log: seq<Item>, a: int,
      r: nat)
    requires Good(g, c, isView, base, e, w, x, -1) && IsRec(e, a) && e.org[a].r == r && a in x.done && x.done[a] == 0
    requires Room(g, base, w.len, x, WalkFields(g, c, Met(w, x), r, |g.recs[r].fields|))
    ensures r in g.recs && FieldsProgress(g, c, isView, base, e, w, x, log, Before(e, w, x, Met(w, x), log), a, r, 0)
  {
    hide Inv, Extends, WalkFields;
    ExtendsSelf(e, w, x, {a}, {});
    WalkNoFields(g, c, Met(w, x), r);
  }

  lemma FieldsFinished(g: Graph, c: Cert, isView: bool, base: int, e: Env, w: Output, x: Status, log: seq<Item>,
      was: Before, a: int, r: nat, i: nat)
    requires FieldsProgress(g, c, isView, base, e, w, x, log, was, a, r, i)
    ensures r in g.recs && |g.recs[r].fields| == Arity(g.recs[r].ty) && Good(g, c, isView, base, e, w, x, -1)
    ensures WroteTrip(g, w, x, log, WalkFields(g, c, was.met, r, i), was.w.len, was.log)
    ensures Extends(was.e, was.w, was.x, e, w, x, {a}, {}) && x.todo == was.x.todo
    ensures IsRec(e, a) && a in x.done && x.done[a] == i
  {
    assert RecWF(g, r);
  }

  ghost predicate Walkable(g: Graph, c: Cert, e: Env, x: Status, a: int, r0: nat, ty: StmtType) {
    && IsStmt(e, a) && StmtAt(e, a).ty == ty && StmtAt(e, a).payload == To(r0)
    && a >= 0 && a in x.looping && r0 in g.recs && g.recs[r0].ty == ty && r0 in c.ring
  }

  /** Since `was`, the first `k` elements of the ring that the statement at `a` enters were written;
      `l` is the copy of the last one and `cur` comes next. */
  ghost predicate RingProgress(g: Graph, c: Cert, isView: bool, base: int, e: Env, w: Output, x: Status, log: seq<Item>,
                               was: Before, a: int, r0: nat, ty: StmtType, k: nat, es: seq<int>, l: int, cur: nat) {
    && Good(g, c, isView, base, e, w, x, -1)
    && Walkable(g, c, e, x, a, r0, ty) && 1 <= k <= |c.ring[r0]|
    && (if cur == r0 then k == |c.ring[r0]| else k < |c.ring[r0]| && cur == c.ring[r0][k])
    && RingState(e, w, a, r0, k, es) && |es| == k && es[k - 1] == l
    && WroteTrip(g, w, x, log, WalkRing(g, c, was.met, r0, k), was.w.len, was.log)
    && Extends(was.e, was.w, was.x, e, w, x, {}, {Owner(ty, a)}) && x.todo == was.x.todo
    && Room(g, base, was.w.len, x, WalkRing(g, c, was.met, r0, |c.ring[r0]|))
  }

  lemma RingFinished(g: Graph, c: Cert, isView: bool, base: int, e: Env, w: Output, x: Status, log: seq<Item>,
                     was: Before, a: int, r0: nat, ty: StmtType, k: nat, es: seq<int>, l: int)
    requires RingProgress(g, c, isView, base, e, w, x, log, was, a, r0, ty, k, es, l, r0)
    ensures r0 in g.recs && r0 in c.ring && k == |c.ring[r0]| && Good(g, c, isView, base, e, w, x, -1)
        && Walkable(g, c, e, x, a, r0, ty)
    ensures WroteTrip(g, w, x, log, WalkRing(g, c, was.met, r0, k), was.w.len, was.log)
    ensures Extends(was.e, was.w, was.x, e, w, x, {}, {Owner(ty, a)}) && x.todo == was.x.todo
    ensures RingState(e, w, a, r0, k, es)
  {
  }

  lemma RingBegun(g: Graph, c: Cert, isView: bool, base: int, e: Env, w: Output, x: Status, log: seq<Item>,
                  was: Before, a: int, r0: nat, ty: StmtType, l: int)
    requires Good(g, c, isView, base, e, w, x, -1) && Walkable(g, c, e, x, a, r0, ty) && |c.ring[r0]| > 0
    requires WroteTrip(g, w, x, log, WalkRing(g, c, was.met, r0, 1), was.w.len, was.log)
    requires Extends(was.e, was.w, was.x, e, w, x, {}, {Owner(ty, a)}) && x.todo == was.x.todo
    requires RingState(e, w, a, r0, 1, [l])
    requires Room(g, base, was.w.len, was.x, WalkRing(g, c, was.met, r0, |c.ring[r0]|))
    ensures RingProgress(g, c, isView, base, e, w, x, log, was, a, r0, ty, 1, [l], l, g.recs[r0].next)
  {
    hide Inv, Extends, RingState, WalkRing, TotalSize, Met;
    RingNext(g, c, r0, 0);
    RingHead(g, c, r0);
  }

  // ----- the trips of a statement with its ring, of one more field and of one more ring element

  lemma PayloadRoom(g: Graph, c: Cert, base: int, w: Output, x: Status, met: set<nat>, s: nat)
    requires WellFormed(g, c) && s in g.stmts && g.stmts[s].payload.To?
    requires Room(g, base, w.len, x, WalkChild(g, c, met, ToStmt(s)))
    ensures var r := g.stmts[s].payload.r;
            && r in g.recs && r in c.ring
            && forall x': Status :: x'.todo == x.todo ==>
                 Room(g, base, w.len + STMT_SIZE, x', WalkRing(g, c, met, r, |c.ring[r]|))
  {
    hide WalkChild, WalkRing, TotalSize;
    StmtTrip(g, c, met, s);
  }

  lemma PayloadTrip(g: Graph, c: Cert, w: Output, x: Status, log: seq<Item>, met: set<nat>, len: int, log0: seq<Item>,
      s: nat, a: int)
    requires WellFormed(g, c) && s in g.stmts && g.stmts[s].payload.To?
    requires var r := g.stmts[s].payload.r;
             r in g.recs && r in c.ring
             && WroteTrip(g, w, x, log, WalkRing(g, c, met, r, |c.ring[r]|), len + STMT_SIZE, log0 + [IStmt(s)])
    ensures WroteTrip(g, w, x.(looping := x.looping - {a}), log, WalkChild(g, c, met, ToStmt(s)), len, log0)
  {
    hide WalkChild, WalkRing, TotalSize;
    var r := g.stmts[s].payload.r;
    StmtTrip(g, c, met, s);
    Assoc(log0, [IStmt(s)], WalkRing(g, c, met, r, |c.ring[r]|).items);
  }

  lemma FieldRoom(g: Graph, c: Cert, base: int, w: Output, x: Status, log: seq<Item>, was: Before, r: nat, i: nat)
    requires WellFormed(g, c) && r in g.recs && i < |g.recs[r].fields|
    requires WroteTrip(g, w, x, log, WalkFields(g, c, was.met, r, i), was.w.len, was.log)
    requires Room(g, base, was.w.len, x, WalkFields(g, c, was.met, r, |g.recs[r].fields|))
    ensures var ch := g.recs[r].fields[i];
            && ChildWF(g, ch) && ChildHeight(g, c, ch) <= FieldBound(g, c, r)
            && Unmet(g, Met(w, x)) <= Unmet(g, was.met)
            && Room(g, base, w.len, x, WalkChild(g, c, Met(w, x), ch))
  {
    FieldsStep(g, c, was.met, r, i);
    FieldsPrefix(g, c, was.met, r, i + 1, |g.recs[r].fields|);
  }

  lemma FieldTrip(g: Graph, c: Cert, w: Output, x: Status, log: seq<Item>, w': Output, x': Status, log': seq<Item>,
      was: Before, r: nat, i: nat)
    requires WellFormed(g, c) && r in g.recs && i < |g.recs[r].fields| && ChildWF(g, g.recs[r].fields[i])
    requires WroteTrip(g, w, x, log, WalkFields(g, c, was.met, r, i), was.w.len, was.log)
    requires WroteTrip(g, w', x', log', WalkChild(g, c, Met(w, x), g.recs[r].fields[i]), w.len, log)
    ensures WroteTrip(g, w', x', log', WalkFields(g, c, was.met, r, i + 1), was.w.len, was.log)
  {
    FieldsStep(g, c, was.met, r, i);
    Assoc(was.log, WalkFields(g, c, was.met, r, i).items, WalkChild(g, c, Met(w, x), g.recs[r].fields[i]).items);
  }

  lemma ElementRoom(g: Graph, c: Cert, base: int, w: Output, x: Status, log: seq<Item>, was: Before, r: nat, k: nat)
    requires WellFormed(g, c) && r in g.recs && r in c.ring && k < |c.ring[r]|
    requires WroteTrip(g, w, x, log, WalkRing(g, c, was.met, r, k), was.w.len, was.log)
    requires Room(g, base, was.w.len, x, WalkRing(g, c, was.met, r, |c.ring[r]|))
    ensures var q := c.ring[r][k];
            && q in g.recs && g.recs[q].ty == g.recs[r].ty && Height(g, c, q) == Height(g, c, r)
            && Unmet(g, Met(w, x)) <= Unmet(g, was.met)
            && Room(g, base, w.len, x, WalkRec(g, c, Met(w, x), q))
  {
    RingsStep(g, c, was.met, r, k);
    RingPrefix(g, c, was.met, r, k + 1, |c.ring[r]|);
  }

  lemma ElementTrip(g: Graph, c: Cert, w: Output, x: Status, log: seq<Item>, w': Output, x': Status, log': seq<Item>,
      was: Before, r: nat, k: nat)
    requires WellFormed(g, c) && r in g.recs && r in c.ring && k < |c.ring[r]| && c.ring[r][k] in g.recs
    requires WroteTrip(g, w, x, log, WalkRing(g, c, was.met, r, k), was.w.len, was.log)
    requires WroteTrip(g, w', x', log', WalkRec(g, c, Met(w, x), c.ring[r][k]), w.len, log)
    ensures WroteTrip(g, w', x', log', WalkRing(g, c, was.met, r, k + 1), was.w.len, was.log)
  {
    RingsStep(g, c, was.met, r, k);
    Assoc(was.log, WalkRing(g, c, was.met, r, k).items, WalkRec(g, c, Met(w, x), c.ring[r][k]).items);
  }

  class Compressor {
    const g: Graph
    const isView: bool
    const base: int              // address of the buffer
    var w: Output                // bin_defn_offset of each record, the buffer and its length
    ghost const c: Cert
    ghost var log: seq<Item>     // what this pass has met so far
    ghost var e: Env
    ghost var x: Status

    // ----- counting pass

    /** A visited record costs its size and is marked, if it is of a shared kind. */
    method CountRec(r: nat)
      requires Ready(g, c, w) && r in g.recs
      modifies `w, `log
      ensures CountedTrip(g, c, w, log, WalkRec(g, c, Counted(g, old(w)), r), old(w).len, old(log))
      decreases Unmet(g, Counted(g, w)), Height(g, c, r), 0, 0
    {
      ghost var met, t := Counted(g, w), WalkRec(g, c, Counted(g, w), r);
      if Shared(g.recs[r].ty) && w.bin[r] == MAX_BIN_DEFN_OFFSET {
        assert log == log + t.items;
        return;
      }
      if Shared(g.recs[r].ty) {
        w := w.(bin := w.bin[r := MAX_BIN_DEFN_OFFSET]);
        assert Counted(g, w) == met + {r};
        assert r in Unmet(g, met);
      }
      w := w.(len := w.len + RecSize(g.recs[r].ty));
      log := log + [IRec(r)];
      assert RankWF(g, c, r);
      CountFields(r);
      ghost var u := WalkFields(g, c, if Shared(g.recs[r].ty) then met + {r} else met, r, |g.recs[r].fields|);
      TotalSizeConcat(g, [IRec(r)], u.items);
      assert old(log) + [IRec(r)] + u.items == old(log) + t.items;
    }

    method CountFields(r: nat)
      requires Ready(g, c, w) && r in g.recs
      modifies `w, `log
      ensures var trip := WalkFields(g, c, Counted(g, old(w)), r, |g.recs[r].fields|);
              CountedTrip(g, c, w, log, trip, old(w).len, old(log))
      decreases Unmet(g, Counted(g, w)), FieldBound(g, c, r), 3, 0
    {
      ghost var met := Counted(g, w);
      var i := 0;
      while i < |g.recs[r].fields|
        invariant 0 <= i <= |g.recs[r].fields|
        invariant CountedTrip(g, c, w, log, WalkFields(g, c, met, r, i), old(w).len, old(log))
      {
        FieldsStep(g, c, met, r, i);
        ghost var t := WalkFields(g, c, met, r, i);
        ghost var v := WalkChild(g, c, t.met, g.recs[r].fields[i]);
        CountChild(g.recs[r].fields[i]);
        Assoc(old(log), t.items, v.items);
        i := i + 1;
      }
    }

    method CountChild(ch: Child)
      requires Ready(g, c, w) && ChildWF(g, ch)
      modifies `w, `log
      ensures CountedTrip(g, c, w, log, WalkChild(g, c, Counted(g, old(w)), ch), old(w).len, old(log))
      decreases Unmet(g, Counted(g, w)), ChildHeight(g, c, ch), 2, 0
    {
      ghost var met := Counted(g, w);
      match ch
      case Null =>
        assert log == log + [];
      case ToText(x) =>
        w := w.(len := w.len + |x| + 1);
        log := log + [IText(x)];
      case ToStmt(s) =>
        assert StmtWF(g, s);
        if Dropped(g.stmts[s]) {
          assert log == log + [];
          return;
        }
        w := w.(len := w.len + STMT_SIZE);
        log := log + [IStmt(s)];
        if g.stmts[s].payload.To? {
          assert RingWF(g, c, g.stmts[s].payload.r);
          CountRing(g.stmts[s].payload.r);
          ghost var u := WalkRing(g, c, met, g.stmts[s].payload.r, |c.ring[g.stmts[s].payload.r]|);
          TotalSizeConcat(g, [IStmt(s)], u.items);
          assert old(log) + [IStmt(s)] + u.items == old(log) + ([IStmt(s)] + u.items);
        }
    }

    method CountRing(start: nat)
      requires Ready(g, c, w) && start in g.recs && start in c.ring
      modifies `w, `log
      ensures var trip := WalkRing(g, c, Counted(g, old(w)), start, |c.ring[start]|);
              CountedTrip(g, c, w, log, trip, old(w).len, old(log))
      decreases Unmet(g, Counted(g, w)), Height(g, c, start), 1, 0
    {
      ghost var met := Counted(g, w);
      ghost var ring, k := c.ring[start], 0;
      assert RingWF(g, c, start) && RingStep(g, ring, 0);
      var cur := start;
      var more := true;
      while more
        invariant 0 <= k <= |ring|
        invariant CountedTrip(g, c, w, log, WalkRing(g, c, met, start, k), old(w).len, old(log))
        invariant more ==> k < |ring| && cur == ring[k]
        invariant !more ==> k == |ring|
        decreases |ring| - k
      {
        RingsStep(g, c, met, start, k);
        ghost var t := WalkRing(g, c, met, start, k);
        ghost var v := WalkRec(g, c, t.met, cur);
        CountRec(cur);
        Assoc(old(log), t.items, v.items);
        assert RingStep(g, ring, k);
        cur := g.recs[cur].next;
        more := cur != start;
        k := k + 1;
      }
    }

    // ----- writing pass

    /** Sets the pointer fields of the record that was just appended at `a`. */
    method WriteFields(a: int, r: nat)
      requires Good(g, c, isView, base, e, w, x, -1) && IsRec(e, a) && e.org[a].r == r && a in x.done && x.done[a] == 0
      requires Room(g, base, w.len, x, WalkFields(g, c, Met(w, x), r, |g.recs[r].fields|))
      modifies `w, `log, `e, `x
      ensures Good(g, c, isView, base, e, w, x, -1)
      ensures var trip := WalkFields(g, c, Met(old(w), old(x)), r, |g.recs[r].fields|);
              WroteTrip(g, w, x, log, trip, old(w).len, old(log))
      ensures Extends(old(e), old(w), old(x), e, w, x, {a}, {}) && x.todo == old(x.todo)
      ensures IsRec(e, a) && a in x.done && x.done[a] == Arity(g.recs[r].ty)
      decreases Unmet(g, Met(w, x)), FieldBound(g, c, r), 4, 0
    {
      hide FieldsProgress, Good, WroteTrip, Room, Extends, WalkFields, Unmet, FieldBound;
      ghost var was := Before(e, w, x, Met(w, x), log);
      FieldsBegun(g, c, isView, base, e, w, x, log, a, r);
      var i := 0;
      while i < |g.recs[r].fields|
        invariant i <= |g.recs[r].fields|
        invariant FieldsProgress(g, c, isView, base, e, w, x, log, was, a, r, i)
      {
        ContinueFields(was, a, r, i);
        i := i + 1;
      }
      FieldsFinished(g, c, isView, base, e, w, x, log, was, a, r, i);
    }

    method ContinueFields(ghost was: Before, a: int, r: nat, i: nat)
      requires r in g.recs && FieldsProgress(g, c, isView, base, e, w, x, log, was, a, r, i) && i < |g.recs[r].fields|
      modifies `w, `log, `e, `x
      ensures FieldsProgress(g, c, isView, base, e, w, x, log, was, a, r, i + 1)
      decreases Unmet(g, was.met), FieldBound(g, c, r), 3, 1
    {
      FieldRoom(g, c, base, w, x, log, was, r, i);
      hide Good, Extends, WalkFields, WalkChild, WroteTrip, Room, Unmet, ChildHeight, FieldBound;
      ghost var e1, w1, x1, log1 := e, w, x, log;
      WriteField(a, r, i);
      FieldTrip(g, c, w1, x1, log1, w, x, log, was, r, i);
      ExtendsTrans(was.e, was.w, was.x, e1, w1, x1, e, w, x, {a}, {});
    }

    /** Writes child `i` of record `a` and sets the pointer to it. */
    method WriteField(a: int, r: nat, i: nat)
      requires Good(g, c, isView, base, e, w, x, -1) && IsRec(e, a) && e.org[a].r == r && a in x.done
          && x.done[a] == i && i < |g.recs[r].fields|
      requires ChildWF(g, g.recs[r].fields[i])
      requires Room(g, base, w.len, x, WalkChild(g, c, Met(w, x), g.recs[r].fields[i]))
      modifies `w, `log, `e, `x
      ensures Good(g, c, isView, base, e, w, x, -1)
      ensures WroteTrip(g, w, x, log, WalkChild(g, c, Met(old(w), old(x)), g.recs[r].fields[i]), old(w).len, old(log))
      ensures Extends(old(e), old(w), old(x), e, w, x, {a}, {}) && x.todo == old(x.todo)
      ensures IsRec(e, a) && e.org[a] == old(e).org[a] && a in x.done && x.done[a] == i + 1
      decreases Unmet(g, Met(w, x)), ChildHeight(g, c, g.recs[r].fields[i]), 3, 0
    {
      ghost var p, e0, w0, x0 := w.len, e, w, x;
      assert ObjInv(e, base, w, x, -1, a);
      hide WalkChild, TotalSize, Extends, WellFormed, Inv, ObjInv;
      var ret := WriteChild(g.recs[r].fields[i], Field(a, i));
      ghost var e1, w1, x1 := e, w, x;
      ExtendsAt(e0, w0, x0, e, w, x, {}, {}, a);
      PutField(a, r, i, ret, p);
      ExtendsFree(e0, w0, x0, e1, w1, x1, {a}, {});
      ExtendsWrite(e0, w0, x0, e1, w1, x1, w, x, a, {a}, {});
    }

    method PutField(a: int, r: nat, i: nat, ret: int, ghost p: int)
      requires Good(g, c, isView, base, e, w, x, -1) && IsRec(e, a) && e.org[a].r == r && a in x.done
          && x.done[a] == i && i < |g.recs[r].fields|
      requires if Kept(g, g.recs[r].fields[i]) then ret == base + p && p > a && ChildAt(e, a, i, p) else ret == 0
      modifies `w, `x
      ensures Good(g, c, isView, base, e, w, x, -1) && a in w.out && a in old(w).out
          && w == old(w).(out := old(w).out[a := w.out[a]])
      ensures Linked(old(w), a) ==> Linked(w, a)
      ensures x == old(x).(done := old(x).done[a := i + 1])
    {
      assert ObjInv(e, base, w, x, -1, a);
      SetField(e, base, w, x, a, i, p);
      hide Inv, WellFormed;
      var relative := if ret == 0 then 0 else ret - (base + a + i);
      w := w.(out := w.out[a := w.out[a].(fields := w.out[a].fields[i := relative])]);
      x := x.(done := x.done[a := i + 1]);
    }

    method WriteChild(ch: Child, ghost up: Up) returns (ret: int)
      requires Good(g, c, isView, base, e, w, x, -1) && ChildWF(g, ch)
      requires Room(g, base, w.len, x, WalkChild(g, c, Met(w, x), ch))
      modifies `w, `log, `e, `x
      ensures Good(g, c, isView, base, e, w, x, -1)
      ensures WroteTrip(g, w, x, log, WalkChild(g, c, Met(old(w), old(x)), ch), old(w).len, old(log))
      ensures Extends(old(e), old(w), old(x), e, w, x, {}, {}) && x.todo == old(x.todo)
      ensures if Kept(g, ch) then
                && ret == base + old(w).len && old(w).len in e.org
                && e.org[old(w).len] == (if ch.ToText? then SText(ch.text, up) else SStmt(ch.s, up))
              else ret == 0
      decreases Unmet(g, Met(w, x)), ChildHeight(g, c, ch), 2, 0
    {
      ret := 0;
      match ch
      case Null =>
        assert log == log + [];
      case ToText(text) =>
        ret := base + w.len;
        WriteText(text, up);
      case ToStmt(s) =>
        assert StmtWF(g, s);
        if Dropped(g.stmts[s]) {
          assert log == log + [];
          return;
        }
        ret := base + w.len;
        WriteStmt(s, up);
    }

    method WriteText(text: string, ghost up: Up)
      requires Good(g, c, isView, base, e, w, x, -1)
      modifies `w, `log, `e
      ensures Good(g, c, isView, base, e, w, x, -1) && Met(w, x) == Met(old(w), x)
      ensures w == old(w).(out := old(w).out[old(w).len := TextObj(text)], len := old(w).len + |text| + 1)
      ensures log == old(log) + [IText(text)] && e == old(e).(org := old(e).org[old(w).len := SText(text, up)])
      ensures Extends(old(e), old(w), x, e, w, x, {}, {})
    {
      InBounds(e, base, w, x, -1);
      AppendText(e, base, w, x, text, up);
      hide Inv, WellFormed;
      e := e.(org := e.org[w.len := SText(text, up)]);
      w := w.(out := w.out[w.len := TextObj(text)]);
      w := w.(len := w.len + |text| + 1);
      log := log + [IText(text)];
    }

    /** Appends record `r` for the statement at `owner`, or as a shared record, and its children. */
    method AppendRecord(r: nat, ghost owner: int, ghost pend: int) returns (l: int)
      requires Good(g, c, isView, base, e, w, x, pend) && r in g.recs
      requires if Shared(g.recs[r].ty) then owner == SHARED && r !in Met(w, x)
        else owner in e.org && owner in x.looping && owner >= 0
      requires forall a :: a in e.org ==> e.org[a] != SRec(r, owner)
      requires pend == -1 || IsStmt(e, pend) || IsRec(e, pend)
      requires Awaits(e, pend, SRec(r, owner))
      requires Room(g, base, w.len, x, WalkRec(g, c, Met(w, x), r))
      modifies `w, `log, `e, `x
      ensures Good(g, c, isView, base, e, w, x, -1)
      ensures WroteTrip(g, w, x, log, WalkRec(g, c, Met(old(w), old(x)), r), old(w).len, old(log))
      ensures Extends(old(e), old(w), old(x), e, w, x, {}, {owner}) && x.todo == old(x.todo)
      ensures l == old(w).len && l in e.org && e.org[l] == SRec(r, owner)
      ensures forall q {:trigger IsRec(e, q)} ::
        IsRec(e, q) && q !in old(e).org && e.org[q].owner != SHARED && e.org[q].owner in old(e).org ==> q == l
      decreases Unmet(g, Met(w, x)), Height(g, c, r), 0, 0
    {
      ghost var met := Met(w, x);
      ghost var e0, w0, x0 := e, w, x;
      ghost var u := WalkFields(g, c, if Shared(g.recs[r].ty) then met + {r} else met, r, |g.recs[r].fields|);
      NewRecTrip(g, c, met, r);
      hide Inv, WellFormed, WalkFields, WalkRec, TotalSize, Extends;
      l := PutRecord(r, owner, pend);
      WriteFields(l, r);
      ExtendsRec(e0, base, w0, x0, pend, r, owner, e, w, x);
      ExtendsAt(old(e).(org := old(e).org[old(w).len := SRec(r, owner)]), WithRec(e0, base, w0, r),
          x0.(done := x0.done[l := 0]), e, w, x, {l}, {}, l);
      Assoc(old(log), [IRec(r)], u.items);
    }

    /** Copies the record itself to the end of the buffer. */
    method PutRecord(r: nat, ghost owner: int, ghost pend: int) returns (l: int)
      requires Good(g, c, isView, base, e, w, x, pend) && r in g.recs
      requires if Shared(g.recs[r].ty) then owner == SHARED && r in x.todo && r !in Met(w, x)
          && base + w.len < MAX_BIN_DEFN_OFFSET
               else owner in e.org && owner in x.looping && owner >= 0
      requires forall a :: a in e.org ==> e.org[a] != SRec(r, owner)
      requires pend == -1 || IsStmt(e, pend) || IsRec(e, pend)
      requires Awaits(e, pend, SRec(r, owner))
      modifies `w, `log, `e, `x
      ensures Good(g, c, isView, base, e, w, x, -1) && l == old(w).len && log == old(log) + [IRec(r)]
      ensures |g.recs[r].data| == ScalarCount(g.recs[r].ty) && w == WithRec(old(e), base, old(w), r)
      ensures e == old(e).(org := old(e).org[l := SRec(r, owner)]) && x == old(x).(done := old(x).done[l := 0])
      ensures Met(w, x) == if Shared(g.recs[r].ty) then Met(old(w), old(x)) + {r} else Met(old(w), old(x))
    {
      assert RecWF(g, r);
      var q := g.recs[r];
      l := w.len;
      AppendRec(e, base, w, x, pend, r, owner);
      MetWith(e, base, w, x, r);
      hide Inv, WellFormed, Awaits, Met;
      e := e.(org := e.org[l := SRec(r, owner)]);
      x := x.(done := x.done[l := 0]);
      if Shared(q.ty) {
        w := w.(bin := w.bin[r := base + l]);
      }
      w := w.(out := w.out[l := RecObj(q.ty, seq(Arity(q.ty), i => 0), Copied(q.ty, q.data, isView), q.recomputed,
                             if Shared(q.ty) then base + l else 0, 0, 0)]);
      w := w.(len := w.len + RecSize(q.ty));
      log := log + [IRec(r)];
      assert w == WithRec(old(e), base, old(w), r);
    }

    /** One element of the ring of the statement at `a`: written, unless it is shared and was
        written before; then the statement itself is pointed to it if the ring starts here. */
    method WriteElement(a: int, r: nat, ty: StmtType, isStart: bool, ghost pend: int) returns (l: int)
      requires Good(g, c, isView, base, e, w, x, pend) && r in g.recs && g.recs[r].ty == ty
      requires IsStmt(e, a) && StmtAt(e, a).ty == ty && StmtAt(e, a).payload.To? && a >= 0 && a in x.looping
      requires isStart ==> pend == a && StmtAt(e, a).payload.r == r
      requires !isStart && Shared(ty) && r in Met(w, x) ==> pend == -1
      requires !(Shared(ty) && r in Met(w, x)) ==>
                 && (pend == -1 || IsStmt(e, pend) || IsRec(e, pend)) && Awaits(e, pend, SRec(r, Owner(ty, a)))
                 && (forall q :: q in e.org ==> e.org[q] != SRec(r, Owner(ty, a)))
      requires Room(g, base, w.len, x, WalkRec(g, c, Met(w, x), r))
      modifies `w, `log, `e, `x
      ensures Good(g, c, isView, base, e, w, x, -1)
      ensures WroteTrip(g, w, x, log, WalkRec(g, c, Met(old(w), old(x)), r), old(w).len, old(log))
      ensures Extends(old(e), old(w), old(x), e, w, x, {}, {Owner(ty, a)}) && x.todo == old(x.todo)
      ensures l in e.org && e.org[l] == SRec(r, Owner(ty, a))
      ensures forall q {:trigger IsRec(e, q)} :: IsRec(e, q) && q !in old(e).org && e.org[q].owner == a ==> q == l
      decreases Unmet(g, Met(w, x)), Height(g, c, r), 0, 1
    {
      if Shared(ty) && w.bin[r] != MAX_BIN_DEFN_OFFSET {
        assert r in Met(w, x);
        l := ReuseRecord(a, r, ty, isStart, pend);
        assert log == log + [];
      } else {
        hide Inv, Extends, WalkRec, TotalSize;
        l := AppendRecord(r, Owner(ty, a), pend);
      }
    }

    /** The copy of a shared record that was written before. */
    method ReuseRecord(a: int, r: nat, ty: StmtType, isStart: bool, ghost pend: int) returns (l: int)
      requires Good(g, c, isView, base, e, w, x, pend) && r in g.recs && g.recs[r].ty == ty && Shared(ty)
      requires IsStmt(e, a) && StmtAt(e, a).ty == ty && StmtAt(e, a).payload.To? && r in Met(w, x)
      requires if isStart then pend == a && a >= 0 && StmtAt(e, a).payload.r == r && a in x.looping else pend == -1
      modifies `w
      ensures Good(g, c, isView, base, e, w, x, -1) && w.len == old(w).len && w.bin == old(w).bin
      ensures Extends(e, old(w), x, e, w, x, {}, {Owner(ty, a)})
      ensures l in e.org && e.org[l] == SRec(r, SHARED)
    {
      assert WrittenAt(e, base, w, r);
      l := w.bin[r] - base;
      ExtendsSelf(e, w, x, {}, {Owner(ty, a)});
      if isStart {
        assert ObjInv(e, base, w, x, a, a);
        PointStmt(e, base, w, x, a);
        hide Inv, Extends, WellFormed;
        ghost var w0 := w;
        w := w.(out := w.out[a := w.out[a].(v := w.bin[r] - (base + a + V))]);
        ExtendsWrite(e, w0, x, e, w0, x, w, x, a, {}, {Owner(ty, a)});
      }
    }

    /** Sets the link of element `k - 1` and writes element `k` of the ring. */
    method WriteNext(a: int, r0: nat, cur: nat, ty: StmtType, l0: int, ghost k: nat,
        ghost es: seq<int>) returns (l: int)
      requires Good(g, c, isView, base, e, w, x, -1) && Walkable(g, c, e, x, a, r0, ty) && 0 < k < |c.ring[r0]|
          && c.ring[r0][k] == cur
      requires RingState(e, w, a, r0, k, es) && |es| == k && es[k - 1] == l0
      requires cur in g.recs && g.recs[cur].ty == ty && Ringed(ty)
      requires Room(g, base, w.len, x, WalkRec(g, c, Met(w, x), cur))
      modifies `w, `log, `e, `x
      ensures Good(g, c, isView, base, e, w, x, -1) && Walkable(g, c, e, x, a, r0, ty)
      ensures WroteTrip(g, w, x, log, WalkRec(g, c, Met(old(w), old(x)), cur), old(w).len, old(log))
      ensures Extends(old(e), old(w), old(x), e, w, x, {}, {Owner(ty, a)}) && x.todo == old(x.todo)
      ensures RingState(e, w, a, r0, k + 1, es + [l])
      decreases Unmet(g, Met(w, x)), Height(g, c, cur), 0, 2
    {
      ghost var e0, w0, x0 := e, w, x;
      var ahead := SetLink(a, r0, cur, ty, l0, k, es);
      ghost var w1 := w;
      l := WriteElement(a, cur, ty, false, if ahead then l0 else -1);
      RingGrown(e0, w1, x0, e, w, x, a, r0, k, es, l);
      ExtendsTrans(e0, w0, x0, e0, w1, x0, e, w, x, {}, {Owner(ty, a)});
    }

    /** Links element `k - 1` to element `k`, or to the end of the buffer where it goes next. */
    method SetLink(a: int, r0: nat, cur: nat, ty: StmtType, l0: int, ghost k: nat,
        ghost es: seq<int>) returns (ahead: bool)
      requires Good(g, c, isView, base, e, w, x, -1) && Walkable(g, c, e, x, a, r0, ty) && 0 < k < |c.ring[r0]|
          && c.ring[r0][k] == cur
      requires RingState(e, w, a, r0, k, es) && |es| == k && es[k - 1] == l0
      requires cur in g.recs && g.recs[cur].ty == ty && Ringed(ty) && (Shared(ty) ==> cur in x.todo)
      modifies `w
      ensures Good(g, c, isView, base, e, w, x, if ahead then l0 else -1) && RingState(e, w, a, r0, k, es)
          && Linked(w, l0)
      ensures Extends(e, old(w), x, e, w, x, {}, {Owner(ty, a)}) && w.bin == old(w).bin && w.len == old(w).len
      ensures ahead == !(Shared(ty) && cur in Met(w, x))
      ensures ahead ==> IsRec(e, l0) && Awaits(e, l0, SRec(cur, Owner(ty, a)))
                        && (forall q :: q in e.org ==> e.org[q] != SRec(cur, Owner(ty, a)))
    {
      ahead := !(Shared(ty) && w.bin[cur] != MAX_BIN_DEFN_OFFSET);
      var t := if ahead then w.len else w.bin[cur] - base;
      LinkReady(e, base, w, x, a, r0, k, es, ahead, t);
      hide Inv, Extends, WellFormed, RingState;
      w := w.(out := w.out[l0 := w.out[l0].(next := t - (l0 + LinkAt(ty)))]);
    }

    /** The ring that the statement at `a` enters at `r0`. */
    method WriteRing(a: int, r0: nat, ty: StmtType) returns (ghost es: seq<int>)
      requires Good(g, c, isView, base, e, w, x, a) && Walkable(g, c, e, x, a, r0, ty)
      requires forall q {:trigger IsRec(e, q)} :: IsRec(e, q) ==> e.org[q].owner != a
      requires Room(g, base, w.len, x, WalkRing(g, c, Met(w, x), r0, |c.ring[r0]|))
      modifies `w, `log, `e, `x
      ensures Good(g, c, isView, base, e, w, x, -1) && Walkable(g, c, e, x, a, r0, ty)
      ensures WroteTrip(g, w, x, log, WalkRing(g, c, Met(old(w), old(x)), r0, |c.ring[r0]|), old(w).len, old(log))
      ensures Extends(old(e), old(w), old(x), e, w, x, {}, {Owner(ty, a)}) && x.todo == old(x.todo)
      ensures RingState(e, w, a, r0, |c.ring[r0]|, es)
      decreases Unmet(g, Met(w, x)), Height(g, c, r0), 1, 0
    {
      hide Good, Extends, RingState, WalkRing, WalkRec, WroteTrip, Room, TotalSize, Unmet, Height, RingProgress,
          WellFormed;
      ghost var was := Before(e, w, x, Met(w, x), log);
      var l := WriteFirst(a, r0, ty);
      es := [l];
      var cur := g.recs[r0].next;
      ghost var k := 1;
      RingBegun(g, c, isView, base, e, w, x, log, was, a, r0, ty, l);
      while cur != r0
        invariant k <= |c.ring[r0]| && RingProgress(g, c, isView, base, e, w, x, log, was, a, r0, ty, k, es, l, cur)
        decreases |c.ring[r0]| - k
      {
        l, cur := ContinueRing(was, a, r0, cur, ty, l, k, es);
        es := es + [l];
        k := k + 1;
      }
      RingFinished(g, c, isView, base, e, w, x, log, was, a, r0, ty, k, es, l);
    }

    /** One more element of the ring. */
    method ContinueRing(ghost was: Before, a: int, r0: nat, cur: nat, ty: StmtType, l0: int, ghost k: nat,
        ghost es: seq<int>)
      returns (l: int, next: nat)
      requires RingProgress(g, c, isView, base, e, w, x, log, was, a, r0, ty, k, es, l0, cur) && cur != r0
      modifies `w, `log, `e, `x
      ensures k + 1 <= |c.ring[r0]|
      ensures RingProgress(g, c, isView, base, e, w, x, log, was, a, r0, ty, k + 1, es + [l], l, next)
      decreases Unmet(g, was.met), Height(g, c, r0), 0, 3
    {
      ElementRoom(g, c, base, w, x, log, was, r0, k);
      RingIsRinged(g, c, r0, k);
      RingNext(g, c, r0, k);
      hide Good, Extends, WalkRing, WalkRec, WroteTrip, Room, RingState, Unmet, Height;
      ghost var e1, w1, x1, log1 := e, w, x, log;
      l := WriteNext(a, r0, cur, ty, l0, k, es);
      ElementTrip(g, c, w1, x1, log1, w, x, log, was, r0, k);
      ExtendsTrans(was.e, was.w, was.x, e1, w1, x1, e, w, x, {}, {Owner(ty, a)});
      next := g.recs[cur].next;
    }

    method WriteFirst(a: int, r0: nat, ty: StmtType) returns (l: int)
      requires Good(g, c, isView, base, e, w, x, a) && Walkable(g, c, e, x, a, r0, ty)
      requires forall q {:trigger IsRec(e, q)} :: IsRec(e, q) ==> e.org[q].owner != a
      requires Room(g, base, w.len, x, WalkRing(g, c, Met(w, x), r0, |c.ring[r0]|))
      modifies `w, `log, `e, `x
      ensures Good(g, c, isView, base, e, w, x, -1) && Walkable(g, c, e, x, a, r0, ty) && |c.ring[r0]| > 0
      ensures WroteTrip(g, w, x, log, WalkRing(g, c, Met(old(w), old(x)), r0, 1), old(w).len, old(log))
      ensures Extends(old(e), old(w), old(x), e, w, x, {}, {Owner(ty, a)}) && x.todo == old(x.todo)
      ensures RingState(e, w, a, r0, 1, [l])
      decreases Unmet(g, Met(w, x)), Height(g, c, r0), 0, 2
    {
      ghost var met, e0, w0, x0 := Met(w, x), e, w, x;
      FirstOfRing(e, base, w, x, a, r0);
      OneOfRing(g, c, met, r0);
      hide WalkRing, WalkRec, TotalSize, Extends;
      l := WriteElement(a, r0, ty, true, a);
      RingGrown(e0, w0, x0, e, w, x, a, r0, 0, [], l);
      ExtendsAt(e0, w0, x0, e, w, x, {}, {Owner(ty, a)}, a);
      assert [] + [l] == [l];
    }

    method WriteStmt(s: nat, ghost up: Up)
      requires Good(g, c, isView, base, e, w, x, -1) && s in g.stmts && !Dropped(g.stmts[s])
      requires Room(g, base, w.len, x, WalkChild(g, c, Met(w, x), ToStmt(s)))
      modifies `w, `log, `e, `x
      ensures Good(g, c, isView, base, e, w, x, -1)
      ensures WroteTrip(g, w, x, log, WalkChild(g, c, Met(old(w), old(x)), ToStmt(s)), old(w).len, old(log))
      ensures Extends(old(e), old(w), old(x), e, w, x, {}, {}) && x.todo == old(x.todo)
      ensures old(w).len in e.org && e.org[old(w).len] == SStmt(s, up)
      decreases Unmet(g, Met(w, x)), ChildHeight(g, c, ToStmt(s)), 1, 2
    {
      var st := g.stmts[s];
      assert StmtWF(g, s);
      if st.payload.Inline? {
        InBounds(e, base, w, x, -1);
        AppendInline(e, base, w, x, s, up);
        e := WithStmt(e, w, s, up);
        w := w.(out := w.out[w.len := StmtObj(st.ty, st.payload.word, st.extra)]);
        w := w.(len := w.len + STMT_SIZE);
        log := log + [IStmt(s)];
        assert Met(w, x) == Met(old(w), old(x));
      } else {
        WritePayload(s, up);
      }
    }

    /** A statement that points to a record: the statement, then the ring it enters. */
    method WritePayload(s: nat, ghost up: Up)
      requires Good(g, c, isView, base, e, w, x, -1) && s in g.stmts && g.stmts[s].payload.To?
      requires Room(g, base, w.len, x, WalkChild(g, c, Met(w, x), ToStmt(s)))
      modifies `w, `log, `e, `x
      ensures Good(g, c, isView, base, e, w, x, -1)
      ensures WroteTrip(g, w, x, log, WalkChild(g, c, Met(old(w), old(x)), ToStmt(s)), old(w).len, old(log))
      ensures Extends(old(e), old(w), old(x), e, w, x, {}, {}) && x.todo == old(x.todo)
      ensures old(w).len in e.org && e.org[old(w).len] == SStmt(s, up)
      decreases Unmet(g, Met(w, x)), ChildHeight(g, c, ToStmt(s)), 1, 1
    {
      var st := g.stmts[s];
      ghost var met, e0, w0, x0 := Met(w, x), e, w, x;
      StmtTrip(g, c, met, s);
      PayloadRoom(g, c, base, w, x, met, s);
      hide Inv, Extends, WalkChild, WalkRing, TotalSize, WellFormed, RingState, Enters, RingWritten, WroteTrip, Room;
      var a := PutStmt(s, up);
      ghost var w1 := w;
      ghost var es := WriteRing(a, st.payload.r, st.ty);
      RingComplete(e, base, w, x, a, st.payload.r, es);
      EndRing(e, base, w, x, a);
      ExtendsStmt(e0, base, w0, x0, s, up, w1, e, w, x, Owner(st.ty, a));
      PayloadTrip(g, c, w, x, log, met, w0.len, old(log), s, a);
      x := x.(looping := x.looping - {a});
    }

    /** Copies the statement itself to the end of the buffer. */
    method PutStmt(s: nat, ghost up: Up) returns (a: int)
      requires Good(g, c, isView, base, e, w, x, -1) && s in g.stmts && g.stmts[s].payload.To?
      modifies `w, `log, `e, `x
      ensures a == old(w).len && w.len == a + STMT_SIZE && w.bin == old(w).bin && log == old(log) + [IStmt(s)]
      ensures Good(g, c, isView, base, e, w, x, a) && e == WithStmt(old(e), old(w), s, up)
          && x == old(x).(looping := old(x).looping + {a})
      ensures Met(w, x) == Met(old(w), old(x)) && IsStmt(e, a) && StmtAt(e, a) == g.stmts[s]
      ensures forall q {:trigger IsRec(e, q)} :: IsRec(e, q) ==> e.org[q].owner != a
      ensures forall q :: q in old(w).out ==> q in w.out && w.out[q] == old(w).out[q]
    {
      a := w.len;
      var st := g.stmts[s];
      InBounds(e, base, w, x, -1);
      AppendStmt(e, base, w, x, s, up);
      NothingOwned(e, base, w, x, s, up);
      hide Inv, WellFormed;
      e := WithStmt(e, w, s, up);
      x := x.(looping := x.looping + {a});
      w := w.(out := w.out[w.len := StmtObj(st.ty, STMT_SIZE - V, st.extra)]);
      w := w.(len := w.len + STMT_SIZE);
      log := log + [IStmt(s)];
    }

    // ----- both passes

    constructor (g: Graph, isView: bool, base: int, bin: map<nat, int>, ghost c: Cert)
      ensures this.g == g && this.isView == isView && this.base == base && this.c == c
      ensures w == Output(bin, map[], 0)
    {
      this.g, this.isView, this.base, this.c := g, isView, base, c;
      w := Output(bin, map[], 0);
      log := [];
      e := Env(g, c, isView, map[]);
      x := Status(map[], {}, {});
    }

    /** Serializes the statement `root`.  The graph may have been serialized before: what matters
        is that no shared record is marked as counted. */
    method CompressStatement(root: nat) returns (ghost counted: int, ghost first: seq<Item>)
      requires Ready(g, c, w) && root in g.stmts && base > 0
      requires Counted(g, w) == {}
      requires base + TotalSize(g, WalkChild(g, c, {}, ToStmt(root)).items) <= MAX_BIN_DEFN_OFFSET
      modifies this
      ensures Ready(g, c, w) && Counted(g, w) == {}
      ensures w.len == counted && log == first == WalkChild(g, c, {}, ToStmt(root)).items
      ensures w.len == 0 <==> Dropped(g.stmts[root])
      ensures w.len != 0 ==>
                && e.g == g && e.c == c && e.isView == isView
                && Encoded(e, w.out) && w.out.Keys == e.org.Keys && 0 in e.org && e.org[0] == SStmt(root, Root)
                && (forall a :: a in w.out ==> 0 <= a && a + Size(w.out[a]) <= w.len)
                && (forall a, b :: a in w.out && b in w.out && a < b ==> a + Size(w.out[a]) <= b)
    {
      hide Encoded, TotalSize, WalkChild;
      w := w.(len := 0);
      log := [];
      CountChild(ToStmt(root));
      counted, first := w.len, log;
      StmtSize(g, c, {}, root);
      assert [] + WalkChild(g, c, {}, ToStmt(root)).items == WalkChild(g, c, {}, ToStmt(root)).items;
      if w.len != 0 {
        WriteStatement(root);
      }
    }

    /** The second call, into an empty buffer. */
    method WriteStatement(root: nat)
      requires Ready(g, c, w) && root in g.stmts && base > 0 && !Dropped(g.stmts[root])
      requires Counted(g, w) == WalkChild(g, c, {}, ToStmt(root)).met
      requires base + TotalSize(g, WalkChild(g, c, {}, ToStmt(root)).items) <= MAX_BIN_DEFN_OFFSET
      modifies this
      ensures Ready(g, c, w) && Counted(g, w) == {}
      ensures log == WalkChild(g, c, {}, ToStmt(root)).items && w.len == TotalSize(g, log)
      ensures e.g == g && e.c == c && e.isView == isView
      ensures Encoded(e, w.out) && w.out.Keys == e.org.Keys && 0 in e.org && e.org[0] == SStmt(root, Root)
      ensures forall a :: a in w.out ==> 0 <= a && a + Size(w.out[a]) <= w.len
      ensures forall a, b :: a in w.out && b in w.out && a < b ==> a + Size(w.out[a]) <= b
    {
      hide Encoded, TotalSize, WalkChild, Inv, Extends;
      ghost var t := WalkChild(g, c, {}, ToStmt(root));
      w := w.(out := map[], len := 0);
      log := [];
      e := Env(g, c, isView, map[]);
      x := Status(map[], {}, t.met);
      NothingWritten(g, c, isView, base, w, t.met);
      ghost var e0, w0, x0 := e, w, x;
      var ret := WriteChild(ToStmt(root), Root);
      assert [] + t.items == t.items;
      Complete(g, c, isView, base, e0, w0, x0, e, w, x, t);
    }
  }

  lemma NothingWritten(g: Graph, c: Cert, isView: bool, base: int, w: Output, todo: set<nat>)
    requires Ready(g, c, w) && base > 0 && w.out == map[] && w.len == 0 && Counted(g, w) == todo
    ensures Good(g, c, isView, base, Env(g, c, isView, map[]), w, Status(map[], {}, todo), -1)
    ensures Met(w, Status(map[], {}, todo)) == {}
  {
  }

  /** A statement takes at least its own cells, unless it counts as NULL. */
  lemma StmtSize(g: Graph, c: Cert, met: set<nat>, s: nat)
    requires WellFormed(g, c) && s in g.stmts
    ensures TotalSize(g, WalkChild(g, c, met, ToStmt(s)).items) == 0 <==> Dropped(g.stmts[s])
    ensures Dropped(g.stmts[s]) ==> WalkChild(g, c, met, ToStmt(s)) == Trip([], met)
  {
    assert StmtWF(g, s);
    if g.stmts[s].payload.To? {
      StmtTrip(g, c, met, s);
    } else if !Dropped(g.stmts[s]) {
      assert TotalSize(g, [IStmt(s)]) == STMT_SIZE;
    }
  }

  /** After the whole walk every counted record is written and every record is complete. */
  lemma Complete(g: Graph, c: Cert, isView: bool, base: int, e0: Env, w0: Output, x0: Status, e: Env, w: Output,
      x: Status, t: Trip)
    requires Good(g, c, isView, base, e, w, x, -1)
    requires Extends(e0, w0, x0, e, w, x, {}, {}) && x.todo == x0.todo == t.met
    requires e0.org == map[] && x0.looping == {} && Met(w, x) == t.met && Counted(g, w0) == t.met
    requires w0.bin.Keys == g.recs.Keys
    ensures Encoded(e, w.out) && w.out.Keys == e.org.Keys && Counted(g, w) == {}
    ensures forall a :: a in w.out ==> 0 <= a && a + Size(w.out[a]) <= w.len
    ensures forall a, b :: a in w.out && b in w.out && a < b ==> a + Size(w.out[a]) <= b
  {
    InBounds(e, base, w, x, -1);
    forall a | a in e.org ensures ShapeAt(e, w.out, a) {
      assert ObjInv(e, base, w, x, -1, a);
    }
    forall a | IsStmt(e, a) ensures StmtRel(e, w.out, a) {
      assert ObjInv(e, base, w, x, -1, a);
    }
    forall a | IsRec(e, a) ensures FieldsRel(e, w.out, a) && NextRel(e, w.out, a)
        && w.out[a].recomputed == RecAt(e, a).recomputed && (Shared(w.out[a].ty) ==> w.out[a].bin != 0) {
      assert ObjInv(e, base, w, x, -1, a);
    }
    forall a ensures Closed(e, w.out, {}, a) {
      if a in e.org && e.org[a].SRec? {
        assert ObjInv(e, base, w, x, -1, a);
      } else {
        forall b ensures ClosedBy(e, w.out, {}, a, b) {
        }
      }
    }
    forall a, b | a in w.out && b in w.out && a < b ensures a + Size(w.out[a]) <= b {
      assert Apart(w.out, a, b);
    }
    forall r ensures r !in Counted(g, w) {
      assert r in t.met ==> r in Met(w, x);
      assert r !in t.met ==> r !in Counted(g, w0);
    }
  }
}
