/**
 The in-memory parse graph that a schema blob stores: statements (`SqlStatement`) that point
 to payload records, and records whose pointer fields point to further statements.  Statement
 cells are never shared on purpose, but a record of a shared kind can be the payload of many
 statements, and ring records are linked through `next` and `prev`, so the graph has both
 sharing and cycles.
 */
module ParseGraph {

  /** The statement types that can occur in a table, view or function definition.  `SqlValue`
      and `SqlConstraint` carry a union discriminator that decides which pointer is followed;
      it is folded into the type here.  Every other statement type is `Unsupported`: the
      serializer stops on it. */
  datatype StmtType =
    | CreateTable | CreateView | TableAlias | Select | Join | ColumnListAlias | ColumnAlias
    | AggregateFunction | SetOperation | RowValue | TableValue | CreateFunction
    | ParameterTypeList | DataTypeStruct
    | ValueCalculated | ValueCoerce | ValueLiteral
    | Column | Keyword
    | ConstraintCheck | ConstraintUnique | ConstraintOther
    | Unary | Binary | FunctionCall | Coalesce | Greatest | Least | NullIf
    | ColumnList | Cas | CasBranch | Array
    | Unsupported

  /** Kinds with a `bin_defn_offset` member: stored once however many statements point to them. */
  predicate Shared(t: StmtType) {
    t.CreateTable? || t.TableAlias? || t.ColumnAlias? || t.Column? || t.ColumnListAlias?
  }

  /** Kinds that are elements of a circular doubly linked list. */
  predicate Ringed(t: StmtType) {
    t.Join? || t.ColumnListAlias? || t.RowValue? || t.ParameterTypeList? || t.Column?
    || t.Keyword? || t.ColumnList? || t.CasBranch?
  }

  /** Kinds with one cell that decompression recomputes: `unique_id` of a table alias,
      `max_unique_id` of a join and `delim` of a column. */
  predicate Recomputed(t: StmtType) {
    t.TableAlias? || t.Join? || t.Column?
  }

  /** Number of pointer fields that the serializer follows, in the order it follows them. */
  function Arity(t: StmtType): nat {
    match t
    case CreateTable => 5
    case CreateView => 2
    case TableAlias => 6
    case Select => 7
    case Join => 2
    case ColumnListAlias => 4
    case ColumnAlias => 3
    case AggregateFunction => 2
    case SetOperation => 3
    case TableValue => 2
    case CreateFunction => 5
    case Column => 3
    case ConstraintCheck => 3
    case ConstraintUnique => 3
    case ConstraintOther => 2
    case Binary => 2
    case FunctionCall => 3
    case NullIf => 2
    case Cas => 3
    case CasBranch => 2
    case _ => 1
  }

  /** Number of members that are copied verbatim (scalars, and pointers that are not followed). */
  function ScalarCount(t: StmtType): nat {
    match t
    case CreateTable => 3
    case CreateView => 1
    case TableAlias => 5
    case Join => 1
    case ColumnListAlias => 5
    case ColumnAlias => 2
    case AggregateFunction => 2
    case SetOperation => 1
    case RowValue => 1
    case CreateFunction => 3
    case ValueCalculated => 12
    case ValueCoerce => 12
    case ValueLiteral => 12
    case Column => 8
    case Keyword => 1
    case ConstraintCheck => 1
    case ConstraintUnique => 1
    case ConstraintOther => 2
    case Unary => 2
    case Binary => 3
    case ColumnList => 1
    case Cas => 1
    case _ => 0
  }

  // Positions of the parameter indexes among the scalars of `SqlValue`.
  const SIZE_PARAMETER_INDEX := 5
  const SCALE_PARAMETER_INDEX := 6
  const PARAMETER_INDEX := 10

  /** The scalars as the serializer copies them: a view loses its parameter indexes. */
  function Copied(t: StmtType, data: seq<int>, isView: bool): (r: seq<int>)
    requires |data| == ScalarCount(t)
    ensures |r| == |data|
  {
    if isView && t.ValueLiteral? then data[PARAMETER_INDEX := 0]
    else if isView && t.ValueCoerce? then data[SCALE_PARAMETER_INDEX := 0][SIZE_PARAMETER_INDEX := 0]
    else data
  }

  /** The scalars that a view loses: the parameter index of a literal, and the parameter indexes of the
      size and the scale of a cast. */
  predicate Zeroed(t: StmtType, isView: bool, i: nat) {
    && isView
    && ((t.ValueLiteral? && i == PARAMETER_INDEX)
        || (t.ValueCoerce? && (i == SIZE_PARAMETER_INDEX || i == SCALE_PARAMETER_INDEX)))
  }

  /** `r` are the scalars `data` one by one, but for those that a view loses, which are 0. */
  ghost predicate ScalarsKept(t: StmtType, isView: bool, data: seq<int>, r: seq<int>) {
    |r| == |data| && forall i :: 0 <= i < |data| ==> r[i] == if Zeroed(t, isView, i) then 0 else data[i]
  }

  lemma CopiedKept(t: StmtType, isView: bool, data: seq<int>)
    requires |data| == ScalarCount(t)
    ensures ScalarsKept(t, isView, data, Copied(t, data, isView))
  {
  }

  datatype Child = Null | ToStmt(s: nat) | ToText(text: string)

  /** What the union member `v` of a statement holds: nothing, the data type words themselves,
      or a pointer to a record.  `word` is the machine word that overlays the pointer. */
  datatype Payload = NoPayload | Inline(word: int) | To(r: nat)

  /** `extra` stands for the other words of the statement (source location, hash cycle, and the
      tail of the union). */
  datatype Stmt = Stmt(ty: StmtType, extra: seq<int>, payload: Payload)

  datatype Rec = Rec(ty: StmtType, fields: seq<Child>, data: seq<int>, recomputed: int, next: nat, prev: nat)

  datatype Graph = Graph(stmts: map<nat, Stmt>, recs: map<nat, Rec>)

  /** A statement whose `v` word is NULL is treated as a NULL pointer. */
  predicate Dropped(st: Stmt) {
    st.payload.NoPayload? || (st.payload.Inline? && st.payload.word == 0)
  }

  /** The child leads to an object in the blob. */
  predicate Kept(g: Graph, ch: Child) {
    match ch
    case Null => false
    case ToStmt(s) => s in g.stmts && !Dropped(g.stmts[s])
    case ToText(_) => true
  }

  /** Evidence that a graph is well formed: the elements of each record's ring from that record
      on, and a rank that falls along every path of unshared records. */
  datatype Cert = Cert(ring: map<nat, seq<nat>>, rank: map<nat, nat>, bound: nat)

  ghost predicate StmtWF(g: Graph, s: nat)
    requires s in g.stmts
  {
    var st := g.stmts[s];
    && !st.ty.Unsupported?
    && (st.payload.Inline? ==> st.ty.DataTypeStruct?)
    && (st.payload.To? ==> st.payload.r in g.recs && g.recs[st.payload.r].ty == st.ty && !st.ty.DataTypeStruct?)
  }

  ghost predicate FieldWF(g: Graph, q: Rec, i: nat)
    requires i < |q.fields|
  {
    && (q.fields[i].ToStmt? ==> q.fields[i].s in g.stmts)
    && (q.fields[i].ToText? <==> q.ty.ValueLiteral?)
  }

  ghost predicate RecWF(g: Graph, r: nat)
    requires r in g.recs
  {
    var q := g.recs[r];
    && |q.fields| == Arity(q.ty)
    && |q.data| == ScalarCount(q.ty)
    && (forall i {:trigger FieldWF(g, q, i)} :: 0 <= i < |q.fields| ==> FieldWF(g, q, i))
    && q.next in g.recs && g.recs[q.next].prev == r && g.recs[q.next].ty == q.ty
    && (!Ringed(q.ty) ==> q.next == r)
  }

  /** Element `i` of the ring walk `q` belongs to the graph and leads to the next element, the
      last one back to the first. */
  ghost predicate RingStep(g: Graph, q: seq<nat>, i: nat)
    requires i < |q| && q[0] in g.recs
  {
    && q[i] in g.recs && g.recs[q[i]].ty == g.recs[q[0]].ty
    && g.recs[q[i]].next == (if i + 1 < |q| then q[i + 1] else q[0])
  }

  ghost predicate RingWF(g: Graph, c: Cert, r: nat)
    requires r in g.recs
  {
    && r in c.ring
    && var q := c.ring[r];
    && |q| > 0 && q[0] == r
    && (forall i {:trigger RingStep(g, q, i)} :: 0 <= i < |q| ==> RingStep(g, q, i))
    && (forall i, j :: 0 <= i < j < |q| ==> q[i] != q[j])
  }

  /** Height of a record above the shared records: 0 for a shared record itself. */
  ghost function Height(g: Graph, c: Cert, r: nat): nat {
    if r !in g.recs || r !in c.rank || Shared(g.recs[r].ty) then 0 else c.rank[r] + 1
  }

  ghost function ChildHeight(g: Graph, c: Cert, ch: Child): nat {
    if ch.ToStmt? && ch.s in g.stmts && g.stmts[ch.s].payload.To? then Height(g, c, g.stmts[ch.s].payload.r) else 0
  }

  ghost predicate RankWF(g: Graph, c: Cert, r: nat)
    requires r in g.recs
  {
    var q := g.recs[r];
    && r in c.rank && c.rank[r] < c.bound
    && (r in c.ring ==> forall i :: 0 <= i < |c.ring[r]| ==>
      c.ring[r][i] in c.rank && c.rank[c.ring[r][i]] == c.rank[r])
    && (!Shared(q.ty) ==>
          forall i {:trigger ChildHeight(g, c, q.fields[i])} :: 0 <= i < |q.fields| ==>
            ChildHeight(g, c, q.fields[i]) <= c.rank[r])
  }

  ghost predicate WellFormed(g: Graph, c: Cert) {
    && (forall s {:trigger StmtWF(g, s)} :: s in g.stmts ==> StmtWF(g, s))
    && (forall r {:trigger RecWF(g, r)} :: r in g.recs ==> RecWF(g, r))
    && (forall r {:trigger RingWF(g, c, r)} :: r in g.recs ==> RingWF(g, c, r))
    && (forall r {:trigger RankWF(g, c, r)} :: r in g.recs ==> RankWF(g, c, r))
  }

  // ----- what pointers lead to

  datatype Node = StmtNode(s: nat) | RecNode(r: nat)

  /** The pointers of `n` stay within `nodes`. */
  ghost predicate ClosedAt(g: Graph, nodes: set<Node>, n: Node) {
    n in nodes ==>
      match n
      case StmtNode(s) => s in g.stmts && g.stmts[s].payload.To? ==> RecNode(g.stmts[s].payload.r) in nodes
      case RecNode(r) =>
        r in g.recs ==>
          && RecNode(g.recs[r].next) in nodes
          && forall i :: 0 <= i < |g.recs[r].fields| && g.recs[r].fields[i].ToStmt? ==>
               StmtNode(g.recs[r].fields[i].s) in nodes
  }

  ghost predicate ClosedNodes(g: Graph, nodes: set<Node>) {
    forall n {:trigger ClosedAt(g, nodes, n)} :: ClosedAt(g, nodes, n)
  }

  /** Some path of pointers leads from `n` to `t`: no closed set has `n` without `t`. */
  ghost predicate LeadsTo(g: Graph, n: Node, t: Node) {
    forall nodes {:trigger ClosedNodes(g, nodes)} :: ClosedNodes(g, nodes) && n in nodes ==> t in nodes
  }

  lemma LeadsToPayload(g: Graph, n: Node, s: nat)
    requires LeadsTo(g, n, StmtNode(s)) && s in g.stmts && g.stmts[s].payload.To?
    ensures LeadsTo(g, n, RecNode(g.stmts[s].payload.r))
  {
    forall nodes | ClosedNodes(g, nodes) && n in nodes ensures RecNode(g.stmts[s].payload.r) in nodes {
      assert ClosedAt(g, nodes, StmtNode(s));
    }
  }

  lemma LeadsToField(g: Graph, n: Node, r: nat, i: nat)
    requires LeadsTo(g, n, RecNode(r)) && r in g.recs && i < |g.recs[r].fields| && g.recs[r].fields[i].ToStmt?
    ensures LeadsTo(g, n, StmtNode(g.recs[r].fields[i].s))
  {
    forall nodes | ClosedNodes(g, nodes) && n in nodes ensures StmtNode(g.recs[r].fields[i].s) in nodes {
      assert ClosedAt(g, nodes, RecNode(r));
    }
  }

  lemma {:induction false} LeadsToRing(g: Graph, c: Cert, n: Node, r: nat, k: nat)
    requires r in g.recs && RingWF(g, c, r) && k < |c.ring[r]| && LeadsTo(g, n, RecNode(r))
    ensures LeadsTo(g, n, RecNode(c.ring[r][k]))
  {
    if k > 0 {
      LeadsToRing(g, c, n, r, k - 1);
      assert RingStep(g, c.ring[r], k - 1);
      forall nodes | ClosedNodes(g, nodes) && n in nodes ensures RecNode(c.ring[r][k]) in nodes {
        assert ClosedAt(g, nodes, RecNode(c.ring[r][k - 1]));
      }
    }
  }
}
