/**
 The flat buffer that holds a serialized definition.  An object is addressed by its offset in
 the buffer; the buffer itself sits at some base address.  One cell stands for one C member,
 so pointer cells have addresses of their own and a self-relative pointer is the difference
 between the target and the cell that holds it.
 */
module Blob {
  import opened ParseGraph

  datatype Obj =
    | StmtObj(ty: StmtType, v: int, extra: seq<int>)
    | RecObj(ty: StmtType, fields: seq<int>, data: seq<int>, recomputed: int, bin: int, next: int, prev: int)
    | TextObj(text: string)

  type Store = map<int, Obj>

  const STMT_SIZE := 12  // cells of a statement
  const V := 5           // position of the payload pointer in a statement

  /** Position of the `next` cell in a record; `prev` follows it. */
  function LinkAt(t: StmtType): nat {
    Arity(t) + ScalarCount(t) + (if Recomputed(t) then 1 else 0) + (if Shared(t) then 1 else 0)
  }

  function RecSize(t: StmtType): nat {
    LinkAt(t) + (if Ringed(t) then 2 else 0)
  }

  function Size(o: Obj): (n: nat)
    ensures n > 0
  {
    match o
    case StmtObj(_, _, _) => STMT_SIZE
    case RecObj(t, _, _, _, _, _, _) => RecSize(t)
    case TextObj(x) => |x| + 1
  }

  /** Where the object was copied from.  A copy of an unshared record belongs to the copy of the
      statement that points to it; the owner of a shared record is `SHARED`. */
  datatype Up = Root | Field(rec: int, i: nat)
  datatype Src = SStmt(s: nat, up: Up) | SRec(r: nat, owner: int) | SText(text: string, up: Up)

  const SHARED := -1

  function Owner(t: StmtType, b: int): int {
    if Shared(t) then SHARED else b
  }

  datatype Env = Env(g: Graph, c: Cert, isView: bool, org: map<int, Src>)

  ghost predicate IsStmt(e: Env, a: int) { a in e.org && e.org[a].SStmt? && e.org[a].s in e.g.stmts }
  ghost predicate IsRec(e: Env, a: int) { a in e.org && e.org[a].SRec? && e.org[a].r in e.g.recs }

  ghost function StmtAt(e: Env, a: int): Stmt
    requires IsStmt(e, a)
  {
    e.g.stmts[e.org[a].s]
  }

  ghost function RecAt(e: Env, a: int): Rec
    requires IsRec(e, a)
  {
    e.g.recs[e.org[a].r]
  }

  /** The object at `a` is a copy of the graph object it comes from, pointers aside. */
  ghost predicate StmtShape(e: Env, m: Store, a: int) {
    && IsStmt(e, a) && a in m && !Dropped(StmtAt(e, a))
    && m[a].StmtObj? && m[a].ty == StmtAt(e, a).ty && m[a].extra == StmtAt(e, a).extra
  }

  ghost predicate RecShape(e: Env, m: Store, a: int) {
    && IsRec(e, a) && a in m
    && m[a].RecObj? && m[a].ty == RecAt(e, a).ty
    && |m[a].fields| == Arity(m[a].ty) == |RecAt(e, a).fields|
    && |RecAt(e, a).data| == ScalarCount(m[a].ty)
    && ScalarsKept(m[a].ty, e.isView, RecAt(e, a).data, m[a].data)
  }

  ghost predicate ShapeAt(e: Env, m: Store, a: int) {
    && a in e.org && a in m
    && match e.org[a]
       case SStmt(_, _) => StmtShape(e, m, a)
       case SRec(_, _) => RecShape(e, m, a)
       case SText(x, _) => m[a] == TextObj(x)
  }

  ghost predicate Shape(e: Env, m: Store) {
    && m.Keys == e.org.Keys
    && forall a {:trigger ShapeAt(e, m, a)} :: a in e.org ==> ShapeAt(e, m, a)
  }

  /** `t` is the offset of the record that the statement copied to `a` points to. */
  ghost predicate PayloadAt(e: Env, a: int, t: int)
    requires IsStmt(e, a)
  {
    var st := StmtAt(e, a);
    st.payload.To? && t in e.org && e.org[t] == SRec(st.payload.r, Owner(st.ty, a))
  }

  /** `t` is the offset of the copy of child `i` of the record copied to `a`. */
  ghost predicate ChildAt(e: Env, a: int, i: nat, t: int)
    requires IsRec(e, a) && i < |RecAt(e, a).fields|
  {
    match RecAt(e, a).fields[i]
    case Null => false
    case ToStmt(s) => t in e.org && e.org[t] == SStmt(s, Field(a, i))
    case ToText(x) => t in e.org && e.org[t] == SText(x, Field(a, i))
  }

  /** `t` is the offset of the ring successor of the record copied to `a`. */
  ghost predicate NextAt(e: Env, a: int, t: int)
    requires IsRec(e, a)
  {
    t in e.org && e.org[t] == SRec(RecAt(e, a).next, e.org[a].owner)
  }

  // ----- pointers as the compressor leaves them: relative to the cell that holds them

  ghost predicate StmtRel(e: Env, m: Store, a: int) {
    && StmtShape(e, m, a)
    && var st := StmtAt(e, a);
    && m[a].v != 0
    && (st.payload.Inline? ==> m[a].v == st.payload.word)
    && (st.payload.To? ==> PayloadAt(e, a, a + V + m[a].v))
  }

  ghost predicate FieldRel(e: Env, m: Store, a: int, i: int) {
    && RecShape(e, m, a) && 0 <= i < |m[a].fields|
    && var x := m[a].fields[i];
    if Kept(e.g, RecAt(e, a).fields[i]) then x != 0 && ChildAt(e, a, i, a + i + x) else x == 0
  }

  ghost predicate NextRel(e: Env, m: Store, a: int) {
    && RecShape(e, m, a)
    && (Ringed(m[a].ty) ==> m[a].next == 0 || NextAt(e, a, a + LinkAt(m[a].ty) + m[a].next))
  }

  /** The statement copied to `b` enters the ring of the record copied to `a`. */
  ghost predicate Enters(e: Env, b: int, a: int) {
    && IsStmt(e, b) && IsRec(e, a)
    && var st := StmtAt(e, b);
    && st.payload.To? && st.payload.r in e.c.ring
    && e.org[a].owner == Owner(st.ty, b) && e.org[a].r in e.c.ring[st.payload.r]
  }

  /** A missing `next` stands for the element at which the ring is entered, so every statement
      that enters this ring, those in `open` aside, must enter it right after this element. */
  ghost predicate ClosedBy(e: Env, m: Store, open: set<int>, a: int, b: int) {
    RecShape(e, m, a) && Ringed(m[a].ty) && m[a].next == 0 && b !in open && Enters(e, b, a) ==>
      StmtAt(e, b).payload.r == RecAt(e, a).next
  }

  ghost predicate Closed(e: Env, m: Store, open: set<int>, a: int) {
    forall b {:trigger ClosedBy(e, m, open, a, b)} :: ClosedBy(e, m, open, a, b)
  }

  ghost predicate SameSource(e: Env, a: int, b: int) {
    IsRec(e, a) && IsRec(e, b) && e.org[a] == e.org[b]
  }

  /** A shared record is copied once, an unshared one once for each statement that owns it. */
  ghost predicate RecsDistinct(e: Env) {
    forall a, b {:trigger SameSource(e, a, b)} :: SameSource(e, a, b) ==> a == b
  }

  ghost predicate FieldsRel(e: Env, m: Store, a: int) {
    && RecShape(e, m, a)
    && forall i {:trigger FieldRel(e, m, a, i)} :: 0 <= i < |m[a].fields| ==> FieldRel(e, m, a, i)
  }

  /** The buffer is a complete serialization of the part of `e.g` that it mentions. */
  ghost predicate Encoded(e: Env, m: Store) {
    && WellFormed(e.g, e.c)
    && Shape(e, m)
    && RecsDistinct(e)
    && (forall a {:trigger StmtRel(e, m, a)} :: IsStmt(e, a) ==> StmtRel(e, m, a))
    && (forall a {:trigger FieldsRel(e, m, a)} :: IsRec(e, a) ==> FieldsRel(e, m, a))
    && (forall a {:trigger NextRel(e, m, a)} :: IsRec(e, a) ==>
          NextRel(e, m, a) && m[a].recomputed == RecAt(e, a).recomputed && (Shared(m[a].ty) ==> m[a].bin != 0))
    && (forall a {:trigger Closed(e, m, {}, a)} :: Closed(e, m, {}, a))
  }
}
