/**
 Copying a statement and comparing two of them.  Statements are trees here: what leads back up, to
 tables, views, lists of values and columns, is compared by its address and not copied.
 */
module StatementCopy {

  const SELECT := "select_STATEMENT"
  const ALIASES := "column_list_alias_STATEMENT"

  /**
   One structure: a statement that is no list has one, a list one for each element of its ring, in order.
   `tags` are the members that are compared: the operation of a binary or unary statement, the type of a
   join, aggregate, keyword or element of a column list, the type and the text of a value (of NULL only
   the type; of a cast the two types), the words of a data type.  `rest` are members that are copied but
   not compared: unique identifiers, parameter indexes, `user_specified_alias`.  `below` are the
   statements it points to: table, alias; select list, tables, WHERE, GROUP BY, HAVING, keywords, ORDER BY;
   name, keywords; operands; column list, alias, keywords; table, condition; and so on.
   */
  datatype Element = Element(tags: seq<string>, rest: seq<int>, below: seq<Stmt>)

  datatype Stmt = NoStmt | ByAddress(ty: string, address: nat) | Node(ty: string, elements: seq<Element>)

  // ----- what a statement says, whatever the comparison leaves out

  function CanonElement(e: Element): Element {
    Element(e.tags, [], seq(|e.below|, i requires 0 <= i < |e.below| => Canon(e.below[i])))
  }

  /** The statement without the members that are not compared. */
  function Canon(s: Stmt): Stmt {
    match s
    case NoStmt => s
    case ByAddress(_, _) => s
    case Node(ty, es) => Node(ty, seq(|es|, i requires 0 <= i < |es| => CanonElement(es[i])))
  }

  lemma Pointwise<T>(a: seq<T>, b: seq<T>)
    ensures a == b <==> |a| == |b| && forall i :: 0 <= i < |a| ==> a[i] == b[i]
  {
  }

  lemma SameBelow(a: seq<Stmt>, b: seq<Stmt>, xs: seq<Stmt>, ys: seq<Stmt>)
    requires |a| == |xs| && forall i :: 0 <= i < |xs| ==> a[i] == Canon(xs[i])
    requires |b| == |ys| && forall i :: 0 <= i < |ys| ==> b[i] == Canon(ys[i])
    ensures a == b <==> |xs| == |ys| && forall i :: 0 <= i < |xs| ==> Canon(xs[i]) == Canon(ys[i])
  {
    hide Canon;
    Pointwise(a, b);
  }

  lemma SameElement(e: Element, f: Element)
    ensures CanonElement(e) == CanonElement(f)
      <==> e.tags == f.tags && |e.below| == |f.below| && forall i :: 0 <= i < |e.below| ==>
        Canon(e.below[i]) == Canon(f.below[i])
  {
    hide Canon;
    var a, b := CanonElement(e), CanonElement(f);
    SameBelow(a.below, b.below, e.below, f.below);
    assert a == b <==> a.tags == b.tags && a.below == b.below;
  }

  lemma SameNode(s: Stmt, t: Stmt)
    requires s.Node? && t.Node?
    ensures Canon(s) == Canon(t) <==>
              && s.ty == t.ty && |s.elements| == |t.elements|
              && forall i :: 0 <= i < |s.elements| ==> CanonElement(s.elements[i]) == CanonElement(t.elements[i])
  {
    hide CanonElement;
    var a, b := Canon(s).elements, Canon(t).elements;
    assert forall i :: 0 <= i < |a| ==> a[i] == CanonElement(s.elements[i]);
    assert forall i :: 0 <= i < |b| ==> b[i] == CanonElement(t.elements[i]);
    Pointwise(a, b);
  }

  /** Both are NULL, or the same table or column, or of one type with structures that are alike one by one:
      in the members compared and in the statements below. */
  predicate Alike(s: Stmt, t: Stmt)
    decreases s
  {
    || (s.NoStmt? && t.NoStmt?)
    || (s.ByAddress? && t.ByAddress? && s.ty == t.ty && s.address == t.address)
    || (&& s.Node? && t.Node? && s.ty == t.ty && |s.elements| == |t.elements|
        && forall i :: 0 <= i < |s.elements| ==> AlikeElements(s.elements[i], t.elements[i]))
  }

  predicate AlikeElements(e: Element, f: Element)
    decreases e
  {
    e.tags == f.tags && |e.below| == |f.below| && forall i :: 0 <= i < |e.below| ==> Alike(e.below[i], f.below[i])
  }

  lemma {:induction false} CanonTells(s: Stmt, t: Stmt)
    ensures Canon(s) == Canon(t) <==> Alike(s, t)
    decreases s
  {
    if s.Node? && t.Node? {
      SameNode(s, t);
      if |s.elements| == |t.elements| {
        forall i | 0 <= i < |s.elements|
          ensures CanonElement(s.elements[i]) == CanonElement(t.elements[i])
              <==> AlikeElements(s.elements[i], t.elements[i])
        {
          ElementTells(s.elements[i], t.elements[i]);
        }
      }
    }
  }

  lemma {:induction false} ElementTells(e: Element, f: Element)
    ensures CanonElement(e) == CanonElement(f) <==> AlikeElements(e, f)
    decreases e
  {
    SameElement(e, f);
    if |e.below| == |f.below| {
      forall i | 0 <= i < |e.below| ensures Canon(e.below[i]) == Canon(f.below[i]) <==> Alike(e.below[i], f.below[i]) {
        CanonTells(e.below[i], f.below[i]);
      }
    }
  }

  /** Two statements match if and only if they are alike, which is to say the same; so this is an
      equivalence. */
  method MatchSqlStatement(s: Stmt, t: Stmt) returns (ret: bool)
    ensures (ret <==> Canon(s) == Canon(t)) && (ret <==> Alike(s, t))
    decreases s, 1
  {
    CanonTells(s, t);
    hide Alike;
    if s.NoStmt? != t.NoStmt? {
      return false;
    }
    if s.NoStmt? {
      return true;
    }
    if s.ByAddress? || t.ByAddress? {
      return s == t;
    }
    SameNode(s, t);
    if s.ty != t.ty {
      return false;
    }
    ret := MatchRing(s, t);
  }

  /** Both rings are walked in step and must close together. */
  method MatchRing(s: Stmt, t: Stmt) returns (ret: bool)
    requires s.Node? && t.Node?
    ensures ret <==> |s.elements| == |t.elements|
                     && forall i :: 0 <= i < |s.elements| ==> CanonElement(s.elements[i]) == CanonElement(t.elements[i])
    decreases s, 0
  {
    var xs, ys := s.elements, t.elements;
    if xs == [] || ys == [] {
      return xs == [] && ys == [];
    }
    var i := 0;
    while true
      invariant i < |xs| && i < |ys| && forall j :: 0 <= j < i ==> CanonElement(xs[j]) == CanonElement(ys[j])
      decreases |xs| - i
    {
      ret := MatchElement(xs[i], ys[i]);
      if !ret {
        return;
      }
      i := i + 1;
      ret := (i == |xs|) == (i == |ys|);
      if !ret || i == |xs| {
        return;
      }
    }
  }

  method MatchElement(e: Element, f: Element) returns (ret: bool)
    ensures ret <==> CanonElement(e) == CanonElement(f)
    decreases e, 0
  {
    SameElement(e, f);
    ret := e.tags == f.tags && |e.below| == |f.below|;
    var i := 0;
    while ret && i < |e.below|
      invariant i <= |e.below| && (ret ==> e.tags == f.tags && |e.below| == |f.below|)
      invariant ret ==> forall j :: 0 <= j < i ==> Canon(e.below[j]) == Canon(f.below[j])
      invariant !ret ==> CanonElement(e) != CanonElement(f)
    {
      ret := MatchSqlStatement(e.below[i], f.below[i]);
      i := i + 1;
    }
  }

  // ----- copying

  /** The keywords of an element of a column list are taken from the new element, which has none. */
  predicate Lost(ty: string, i: nat) { ty == ALIASES && i == 2 }

  /** ORDER BY is not copied; the copy points to that of the original. */
  predicate Linked(ty: string, i: nat) { ty == SELECT && i == 6 }

  /** What the code can copy: no view, list of values or call of GREATEST, LEAST, COALESCE or NULLIF. */
  predicate Copyable(s: Stmt) {
    match s
    case NoStmt => true
    case ByAddress(ty, _) => ty in {"create_table_STATEMENT", "column_STATEMENT"}
    case Node(ty, es) =>
      && ty !in {"greatest_STATEMENT", "least_STATEMENT", "coalesce_STATEMENT", "null_if_STATEMENT"}
      && forall i :: 0 <= i < |es| ==> CopyableElement(ty, es[i])
  }

  predicate CopyableElement(ty: string, e: Element)
    decreases e
  {
    forall i :: 0 <= i < |e.below| ==> Lost(ty, i) || Linked(ty, i) || Copyable(e.below[i])
  }

  function CopiedElement(ty: string, e: Element): Element
    decreases e
  {
    Element(e.tags, e.rest, seq(|e.below|, i requires 0 <= i < |e.below| =>
      if Lost(ty, i) then NoStmt else if Linked(ty, i) then e.below[i] else Copied(e.below[i])))
  }

  function Copied(s: Stmt): Stmt {
    match s
    case NoStmt => s
    case ByAddress(_, _) => s
    case Node(ty, es) => Node(ty, seq(|es|, i requires 0 <= i < |es| => CopiedElement(ty, es[i])))
  }

  /** An element of a column list keeps its columns and its alias and loses its keywords; a query shares its
      ORDER BY with the copy; everything else is copied. */
  lemma CopyParts(ty: string, e: Element, i: nat)
    requires i < |e.below|
    ensures CopiedElement(ty, e).tags == e.tags && |CopiedElement(ty, e).below| == |e.below|
    ensures CopiedElement(ty, e).below[i] ==
              if ty == "column_list_alias_STATEMENT" && i == 2 then NoStmt
              else if ty == "select_STATEMENT" && i == 6 then e.below[i]
              else Copied(e.below[i])
  {
  }

  /** No element of a column list that is copied has keywords. */
  predicate Keeps(s: Stmt) {
    s.Node? ==> forall i :: 0 <= i < |s.elements| ==> KeepsElement(s.ty, s.elements[i])
  }

  predicate KeepsElement(ty: string, e: Element)
    decreases e
  {
    forall i :: 0 <= i < |e.below| ==> if Lost(ty, i) then e.below[i].NoStmt? else Linked(ty, i) || Keeps(e.below[i])
  }

  /** A statement matches its copy if and only if no element of a column list in it has keywords. */
  lemma {:induction false} CopyMatches(s: Stmt)
    ensures Canon(Copied(s)) == Canon(s) <==> Keeps(s)
  {
    if s.Node? {
      SameNode(Copied(s), s);
      forall i | 0 <= i < |s.elements|
        ensures CanonElement(CopiedElement(s.ty, s.elements[i])) == CanonElement(s.elements[i]) <==>
          KeepsElement(s.ty, s.elements[i])
      {
        ElementMatches(s.ty, s.elements[i]);
      }
    }
  }

  lemma {:induction false} ElementMatches(ty: string, e: Element)
    ensures CanonElement(CopiedElement(ty, e)) == CanonElement(e) <==> KeepsElement(ty, e)
    decreases e
  {
    SameElement(CopiedElement(ty, e), e);
    forall i | 0 <= i < |e.below| ensures Canon(Copied(e.below[i])) == Canon(e.below[i]) <==> Keeps(e.below[i]) {
      CopyMatches(e.below[i]);
    }
  }

  /** It is then its copy, in the members not compared as well. */
  lemma {:induction false} CopyEquals(s: Stmt)
    ensures Copied(s) == s <==> Keeps(s)
    decreases s
  {
    if Keeps(s) && s.Node? {
      forall i | 0 <= i < |s.elements| ensures CopiedElement(s.ty, s.elements[i]) == s.elements[i] {
        ElementEquals(s.ty, s.elements[i]);
      }
      assert Copied(s).elements == s.elements;
    }
    CopyMatches(s);
  }

  lemma {:induction false} ElementEquals(ty: string, e: Element)
    requires KeepsElement(ty, e)
    ensures CopiedElement(ty, e) == e
    decreases e
  {
    forall i | 0 <= i < |e.below| ensures CopiedElement(ty, e).below[i] == e.below[i] {
      if !Lost(ty, i) && !Linked(ty, i) {
        CopyEquals(e.below[i]);
      }
    }
    assert CopiedElement(ty, e).below == e.below;
  }

  /** The copy is the original, and matches it, if and only if the original has no keywords in its column
      lists. */
  method CopySqlStatement(s: Stmt) returns (r: Stmt)
    requires Copyable(s)
    ensures r == Copied(s) && (r == s <==> Keeps(s)) && (Canon(r) == Canon(s) <==> Keeps(s))
    decreases s, 1
  {
    CopyMatches(s);
    CopyEquals(s);
    if !s.Node? {
      return s;
    }
    var es := [];
    var i := 0;
    while i < |s.elements|
      invariant i <= |s.elements| && |es| == i && forall j :: 0 <= j < i ==> es[j] == CopiedElement(s.ty, s.elements[j])
    {
      var e := CopyElement(s.ty, s.elements[i]);
      es := es + [e];
      i := i + 1;
    }
    r := Node(s.ty, es);
  }

  method CopyElement(ty: string, e: Element) returns (r: Element)
    requires CopyableElement(ty, e)
    ensures r == CopiedElement(ty, e)
    decreases e, 0
  {
    var below := [];
    var i := 0;
    while i < |e.below|
      invariant i <= |e.below| && |below| == i
      invariant forall j :: 0 <= j < i ==> below[j] == CopiedElement(ty, e).below[j]
    {
      var x := NoStmt;
      if Linked(ty, i) {
        x := e.below[i];
      } else if !Lost(ty, i) {
        x := CopySqlStatement(e.below[i]);
      }
      below := below + [x];
      i := i + 1;
    }
    r := Element(e.tags, e.rest, below);
  }
}
