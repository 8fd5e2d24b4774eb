/**
 Kind by kind, the members that the hash tells apart and the children that it visits.
 */
module HashMembers {
  import opened Common
  import opened QueryHash
  import opened PlanHash
  import opened HashTells

  // ----- another hashed member

  /** Two values that differ in one hashed member.  The text of a literal is not one, nor are the sizes of
      a cast, of which only the presence counts. */
  predicate OtherValue(v: Value, v': Value) {
    match v
    case Literal(ty, index, format, text) =>
      && v'.Literal?
      && (|| (v' == Literal(v'.ty, index, format, text) && FixType(v'.ty) != FixType(ty))
          || (v' == Literal(ty, v'.index, format, text) && v'.index != index)
          || (v' == Literal(ty, index, v'.dateFormat, text) && v'.dateFormat != format))
    case Reference(ty, text) => v'.Reference? && v' != v && (v'.ty == ty || v'.text == text)
    case Calculated(groupBy, calculated) => v'.Calculated? && v'.calculated == calculated && v'.groupBy != groupBy
    case Coerce(ty, isDate, size, scale, pre, groupBy, target) =>
      && v'.Coerce?
      && (|| (v' == Coerce(v'.dataType, v'.isDate, size, scale, pre, groupBy, target) && v'.dataType != ty)
          || (v' == Coerce(ty, isDate, size, scale, v'.preType, groupBy, target) && v'.preType != pre)
          || (v' == Coerce(ty, isDate, size, scale, pre, v'.groupBy, target) && v'.groupBy != groupBy)
          || (v' == Coerce(ty, isDate, v'.size, scale, pre, groupBy, target)
              && (v'.size == UNSPECIFIED <==> size != UNSPECIFIED))
          || (v' == Coerce(ty, isDate, size, v'.scale, pre, groupBy, target)
              && (v'.scale == UNSPECIFIED <==> scale != UNSPECIFIED)))
  }

  /** Types are told apart, but for the one that is taken for a string. */
  lemma TypesTold(ty: string, ty': string)
    ensures FixType(ty) == FixType(ty') <==>
              ty == ty' || (ty in {"BOOLEAN_OR_STRING_LITERAL", "STRING_LITERAL"}
                            && ty' in {"BOOLEAN_OR_STRING_LITERAL", "STRING_LITERAL"})
  {
  }

  /** The identifiers of a table and of a column go together. */
  predicate Paired(a: AliasItem) {
    a.uniqueId == 0 <==> a.columnNumber == 0
  }

  predicate OtherAlias(a: AliasItem, a': AliasItem) {
    || (a' == a.(ty := a'.ty) && FixType(a'.ty) != FixType(a.ty))
    || (a' == a.(userAlias := a'.userAlias) && a' != a)
    || (Paired(a) && Paired(a') && a' == a.(uniqueId := a'.uniqueId, columnNumber := a'.columnNumber) && a' != a)
  }

  predicate OtherType(d: DataType, d': DataType, inTable: bool) {
    && d' != d
    && (|| d' == d.(dataType := d'.dataType) || d' == d.(size := d'.size) || d' == d.(scale := d'.scale)
        || (inTable && d' == d.(dateFormat := d'.dateFormat)))
  }

  predicate OtherColumn(x: ColumnItem, x': ColumnItem, inTable: bool) {
    x' == x.(dataType := x'.dataType) && OtherType(x.dataType, x'.dataType, inTable)
  }

  predicate HashedKeyword(keyword: string) {
    keyword != "NO_KEYWORD" && keyword != "OPTIONAL_KEY_NUM"
  }

  predicate OtherKeyword(x: KeywordItem, x': KeywordItem) {
    x' == x.(keyword := x'.keyword) && x' != x && HashedKeyword(x.keyword) && HashedKeyword(x'.keyword)
  }

  /** Two statements of one kind with the same children that differ in one hashed member. */
  ghost predicate OtherMember(s: Stmt, s': Stmt) {
    && s' != s
    && match s
       case Cas(_, value, branches, otherwise) => s'.Cas? && s' == Cas(s'.groupBy, value, branches, otherwise)
       case ArgumentsOf(_, arguments) => s'.ArgumentsOf? && s' == ArgumentsOf(s'.call, arguments)
       case Aggregate(_, parameter) => s'.Aggregate? && s' == Aggregate(s'.kind, parameter)
       case Join(items) => s'.Join? && OtherJoin(items, s'.items)
       case ValueOf(v) => s'.ValueOf? && OtherValue(v, s'.v)
       case ColumnListAlias(aliases) =>
         s'.ColumnListAlias? && aliases != [] && s'.aliases != [] && OtherAlias(aliases[0], s'.aliases[0])
       case CreateTable(name, items, source, delim, aim) =>
         && s'.CreateTable? && s' == CreateTable(name, s'.columnItems, source, delim, aim)
         && OtherColumns(items, s'.columnItems, true)
       case TableValue(items, rows) =>
         s'.TableValue? && s' == TableValue(s'.columnItems, rows) && OtherColumns(items, s'.columnItems, false)
       case ParameterTypes(_) => s'.ParameterTypes?
       case TableAlias(table, alias, _) => s'.TableAlias? && s' == TableAlias(table, alias, s'.uniqueId)
       case Binary(groupBy, operation, left, right) =>
         && s'.Binary?
         && (s' == Binary(s'.groupBy, operation, left, right) || s' == Binary(groupBy, s'.operation, left, right))
       case SetOperation(_, left, right) => s'.SetOperation? && s' == SetOperation(s'.operation, left, right)
       case Unary(groupBy, operation, operand) =>
         s'.Unary? && (s' == Unary(s'.groupBy, operation, operand) || s' == Unary(groupBy, s'.operation, operand))
       case Keyword(items) => s'.Keyword? && OtherKeywords(items, s'.keywordItems)
       case Column(name, _, table, keywords, number) =>
         s'.Column? && s' == Column(name, s'.dataType, table, keywords, number)
       case _ => false
  }

  /** The same but at `i`. */
  ghost predicate ButAt<T>(a: seq<T>, a': seq<T>, i: nat) {
    i < |a| == |a'| && a' == a[i := a'[i]]
  }

  ghost predicate OtherJoin(a: seq<JoinItem>, a': seq<JoinItem>) {
    exists i: nat {:trigger ButAt(a, a', i)} ::
      ButAt(a, a', i) && a'[i] == a[i].(kind := a'[i].kind) && a'[i] != a[i]
  }

  ghost predicate OtherColumns(a: seq<ColumnItem>, a': seq<ColumnItem>, inTable: bool) {
    exists i: nat {:trigger ButAt(a, a', i)} :: ButAt(a, a', i) && OtherColumn(a[i], a'[i], inTable)
  }

  ghost predicate OtherKeywords(a: seq<KeywordItem>, a': seq<KeywordItem>) {
    exists i: nat {:trigger ButAt(a, a', i)} :: ButAt(a, a', i) && OtherKeyword(a[i], a'[i])
  }

  /** As lists of columns, of which all elements are hashed. */
  ghost predicate OtherAliases(a: seq<AliasItem>, a': seq<AliasItem>) {
    exists i: nat {:trigger ButAt(a, a', i)} :: ButAt(a, a', i) && OtherAlias(a[i], a'[i])
  }

  // ----- its steps tell

  lemma ValueTells(cfg: Settings, v: Value, v': Value)
    requires OtherValue(v, v')
    ensures Tells(ValueSteps(cfg, v), ValueSteps(cfg, v'))
  {
    hide Tells;
    match v
    case Literal(_, _, _, _) => LiteralTells(cfg, v, v');
    case Reference(ty, text) =>
      var tag := [Ingest(Tag("value_STATEMENT"))];
      if v'.ty != ty {
        TokenTells(Tag(ty), Tag(v'.ty));
        TellsIn(tag, [Ingest(Tag(ty))], [Ingest(Tag(v'.ty))], [Ingest(Text(text))]);
        assert ValueSteps(cfg, v) == tag + [Ingest(Tag(ty))] + [Ingest(Text(text))];
        assert ValueSteps(cfg, v') == tag + [Ingest(Tag(v'.ty))] + [Ingest(Text(text))];
      } else {
        TokenTells(Text(text), Text(v'.text));
        TellsAfter(tag + [Ingest(Tag(ty))], [Ingest(Text(text))], [Ingest(Text(v'.text))]);
        assert ValueSteps(cfg, v) == tag + [Ingest(Tag(ty))] + [Ingest(Text(text))];
        assert ValueSteps(cfg, v') == tag + [Ingest(Tag(ty))] + [Ingest(Text(v'.text))];
      }
    case Calculated(groupBy, calculated) =>
      var h := [Ingest(Tag("value_STATEMENT")), Ingest(Tag("CALCULATED_VALUE"))];
      NumberTells(groupBy, v'.groupBy);
      TellsIn(h, NonZero(groupBy), NonZero(v'.groupBy), [Visit(calculated)]);
      assert ValueSteps(cfg, v) == h + NonZero(groupBy) + [Visit(calculated)];
      assert ValueSteps(cfg, v') == h + NonZero(v'.groupBy) + [Visit(calculated)];
    case Coerce(_, _, _, _, _, _, _) => CoerceTells(cfg, v, v');
  }

  function DateSteps(cfg: Settings, format: Option<string>): seq<Step> {
    if format.Some? then [Ingest(Tag(format.value)), Ingest(Text(cfg.datestyle))] else []
  }

  lemma LiteralTells(cfg: Settings, v: Value, v': Value)
    requires v.Literal? && OtherValue(v, v')
    ensures Tells(ValueSteps(cfg, v), ValueSteps(cfg, v'))
  {
    hide Tells;
    var tag, last := [Ingest(Tag("value_STATEMENT"))], [IngestLiteral(Text(v.text))];
    var ty, ty' := [Ingest(Tag(FixType(v.ty)))], [Ingest(Tag(FixType(v'.ty)))];
    var date, date' := DateSteps(cfg, v.dateFormat), DateSteps(cfg, v'.dateFormat);
    assert ValueSteps(cfg, v) == tag + ty + (NonZero(v.index) + date + last);
    assert ValueSteps(cfg, v') == tag + ty' + (NonZero(v'.index) + date' + last);
    if v'.ty != v.ty {
      TokenTells(Tag(FixType(v.ty)), Tag(FixType(v'.ty)));
      TellsIn(tag, ty, ty', NonZero(v.index) + date + last);
    } else if v'.index != v.index {
      NumberTells(v.index, v'.index);
      TellsIn(tag + ty, NonZero(v.index), NonZero(v'.index), date + last);
      assert ValueSteps(cfg, v) == tag + ty + NonZero(v.index) + (date + last);
      assert ValueSteps(cfg, v') == tag + ty + NonZero(v'.index) + (date + last);
    } else {
      FormatTells(cfg, v.dateFormat, v'.dateFormat);
      TellsIn(tag + ty + NonZero(v.index), date, date', last);
      assert ValueSteps(cfg, v) == tag + ty + NonZero(v.index) + date + last;
      assert ValueSteps(cfg, v') == tag + ty + NonZero(v.index) + date' + last;
    }
  }

  lemma FormatTells(cfg: Settings, f: Option<string>, f': Option<string>)
    requires f != f'
    ensures Tells(DateSteps(cfg, f), DateSteps(cfg, f'))
  {
    assert TellsAt(DateSteps(cfg, f), DateSteps(cfg, f'), 0);
  }

  lemma Three<T>(a: seq<T>, b: seq<T>, c: seq<T>, d: seq<T>)
    ensures a + b + c + d == a + (b + c + d)
  {
  }

  lemma Four<T>(a: seq<T>, b: seq<T>, c: seq<T>, d: seq<T>, e: seq<T>)
    ensures a + b + c + d + e == a + (b + c + d + e)
  {
    Three(a, b, c, d);
    Assoc(a, b + c + d, e);
  }

  lemma Five<T>(a: seq<T>, b: seq<T>, c: seq<T>, d: seq<T>, e: seq<T>, f: seq<T>)
    ensures a + b + c + d + e + f == a + (b + c + d + e + f)
  {
    Four(a, b, c, d, e);
    Assoc(a, b + c + d + e, f);
  }

  const CAST := [Ingest(Tag("value_STATEMENT")), Ingest(Tag("COERCE_TYPE"))]

  function CastEnd(cfg: Settings, target: Ref, isDate: bool): seq<Step> {
    [Visit(target)] + if isDate then [Ingest(Text(cfg.datestyle))] else []
  }

  lemma CastSteps(cfg: Settings, v: Value)
    requires v.Coerce?
    ensures ValueSteps(cfg, v) ==
            CAST + [Ingest(Tag(v.dataType))] + NonZero(v.groupBy) + SizeSteps(v.size) + SizeSteps(v.scale)
            + [Ingest(Tag(v.preType))] + CastEnd(cfg, v.target, v.isDate)
  {
  }

  lemma CoerceTells(cfg: Settings, v: Value, v': Value)
    requires v.Coerce? && OtherValue(v, v')
    ensures Tells(ValueSteps(cfg, v), ValueSteps(cfg, v'))
  {
    CastSteps(cfg, v);
    CastSteps(cfg, v');
    hide Tells, ValueSteps, NonZero, SizeSteps, CastEnd;
    var ty, ty' := [Ingest(Tag(v.dataType))], [Ingest(Tag(v'.dataType))];
    var g, g', z, z', y, y' := NonZero(v.groupBy), NonZero(v'.groupBy), SizeSteps(v.size), SizeSteps(v'.size),
                               SizeSteps(v.scale), SizeSteps(v'.scale);
    var p, p' := [Ingest(Tag(v.preType))], [Ingest(Tag(v'.preType))];
    var t, t' := CastEnd(cfg, v.target, v.isDate), CastEnd(cfg, v'.target, v'.isDate);
    if v'.dataType != v.dataType {
      FirstTells(CAST, Tag(v.dataType), Tag(v'.dataType), g + z + y + p + t, g' + z' + y' + p' + t');
      Five(CAST + ty, g, z, y, p, t);
      Five(CAST + ty', g', z', y', p', t');
    } else if v'.preType != v.preType {
      TokenTells(Tag(v.preType), Tag(v'.preType));
      TellsIn(CAST + ty + g + z + y, p, p', t);
    } else if v'.groupBy != v.groupBy {
      NumberTells(v.groupBy, v'.groupBy);
      TellsIn(CAST + ty, g, g', z + y + p + t);
      Four(CAST + ty + g, z, y, p, t);
      Four(CAST + ty + g', z, y, p, t);
    } else if v'.size != v.size {
      SizeTells(v.size, v'.size);
      TellsIn(CAST + ty + g, z, z', y + p + t);
      Three(CAST + ty + g + z, y, p, t);
      Three(CAST + ty + g + z', y, p, t);
    } else {
      SizeTells(v.scale, v'.scale);
      TellsIn(CAST + ty + g + z, y, y', p + t);
      Assoc(CAST + ty + g + z + y, p, t);
      Assoc(CAST + ty + g + z + y', p, t);
    }
  }

  /** Another token, whatever follows it. */
  lemma FirstTells(h: seq<Step>, t: Token, t': Token, rest: seq<Step>, rest': seq<Step>)
    requires t != t'
    ensures Tells(h + [Ingest(t)] + rest, h + [Ingest(t')] + rest')
  {
    var a, a' := h + [Ingest(t)] + rest, h + [Ingest(t')] + rest';
    assert a[..|h|] == h == a'[..|h|];
    assert TellsAt(a, a', |h|);
  }

  lemma AliasTells(a: AliasItem, a': AliasItem)
    requires OtherAlias(a, a')
    ensures Tells(AliasSteps(a), AliasSteps(a'))
  {
    hide Tells;
    var h := [Ingest(Tag("column_list_alias_STATEMENT")), Visit(a.columnList), VisitSaved(a.alias, true),
              Visit(a.keywords)];
    var u, u' := [Ingest(Number(a.userAlias))], [Ingest(Number(a'.userAlias))];
    var ids, ids' := NonZero(a.uniqueId) + NonZero(a.columnNumber), NonZero(a'.uniqueId) + NonZero(a'.columnNumber);
    var ty, ty' := [Ingest(Tag(FixType(a.ty)))], [Ingest(Tag(FixType(a'.ty)))];
    assert AliasSteps(a) == h + ty + u + ids && AliasSteps(a') == h + ty' + u' + ids';
    if a'.ty != a.ty {
      TokenTells(Tag(FixType(a.ty)), Tag(FixType(a'.ty)));
      TellsIn(h, ty, ty', u + ids);
      assert AliasSteps(a) == h + ty + (u + ids) && AliasSteps(a') == h + ty' + (u + ids);
    } else if a'.userAlias != a.userAlias {
      TokenTells(Number(a.userAlias), Number(a'.userAlias));
      TellsIn(h + ty, u, u', ids);
    } else {
      IdsTell(a, a');
      TellsAfter(h + ty + u, ids, ids');
    }
  }

  lemma IdsTell(a: AliasItem, a': AliasItem)
    requires Paired(a) && Paired(a') && (a.uniqueId != a'.uniqueId || a.columnNumber != a'.columnNumber)
    ensures Tells(NonZero(a.uniqueId) + NonZero(a.columnNumber), NonZero(a'.uniqueId) + NonZero(a'.columnNumber))
  {
    var x, x' := NonZero(a.uniqueId) + NonZero(a.columnNumber), NonZero(a'.uniqueId) + NonZero(a'.columnNumber);
    if a.uniqueId == a'.uniqueId {
      assert TellsAt(x, x', 1);
    } else {
      assert TellsAt(x, x', 0);
    }
  }

  // ----- lists

  lemma ButRest<T>(a: seq<T>, a': seq<T>, i: nat)
    requires ButAt(a, a', i)
    ensures i == 0 ==> a'[1..] == a[1..]
    ensures i > 0 ==> a'[0] == a[0] && ButAt(a[1..], a'[1..], i - 1) && a'[1..][i - 1] == a'[i]
  {
    if i > 0 {
      assert a'[1..] == a[1..][i - 1 := a'[1..][i - 1]];
    }
  }

  function JoinItemSteps(x: JoinItem): seq<Step> {
    [Ingest(Tag("join_STATEMENT")), Ingest(Tag(x.kind)), Visit(x.table), Visit(x.condition)]
  }

  lemma JoinStepsHead(a: seq<JoinItem>)
    requires a != []
    ensures JoinSteps(a) == JoinItemSteps(a[0]) + JoinSteps(a[1..])
  {
  }

  lemma {:induction false} JoinTells(a: seq<JoinItem>, a': seq<JoinItem>, i: nat)
    requires ButAt(a, a', i) && a'[i] == a[i].(kind := a'[i].kind) && a'[i] != a[i]
    ensures Tells(JoinSteps(a), JoinSteps(a'))
  {
    JoinStepsHead(a);
    JoinStepsHead(a');
    hide Tells, JoinSteps;
    ButRest(a, a', i);
    if i == 0 {
      var h, t := [Ingest(Tag("join_STATEMENT"))], [Visit(a[0].table), Visit(a[0].condition)];
      TokenTells(Tag(a[0].kind), Tag(a'[0].kind));
      TellsIn(h, [Ingest(Tag(a[0].kind))], [Ingest(Tag(a'[0].kind))], t);
      assert JoinItemSteps(a[0]) == h + [Ingest(Tag(a[0].kind))] + t;
      assert JoinItemSteps(a'[0]) == h + [Ingest(Tag(a'[0].kind))] + t;
      TellsBefore(JoinItemSteps(a[0]), JoinItemSteps(a'[0]), JoinSteps(a[1..]));
    } else {
      JoinTells(a[1..], a'[1..], i - 1);
      TellsAfter(JoinItemSteps(a[0]), JoinSteps(a[1..]), JoinSteps(a'[1..]));
    }
  }

  function FormatSteps(cfg: Settings, format: Option<string>): seq<Step> {
    if format.None? then []
    else [Ingest(Tag(format.value))]
         + if format.value == "OPTIONAL_DATE_TIME_TEXT" || cfg.textDates then [Ingest(Text(cfg.datestyle))] else []
  }

  lemma TypeShape(cfg: Settings, d: DataType, inTable: bool)
    ensures DataTypeSteps(cfg, d, inTable) ==
            [Ingest(Tag(d.dataType))] + Specified(d.size) + Specified(d.scale)
            + if inTable then FormatSteps(cfg, d.dateFormat) else []
  {
  }

  lemma TableFormatTells(cfg: Settings, f: Option<string>, f': Option<string>)
    requires f != f'
    ensures Tells(FormatSteps(cfg, f), FormatSteps(cfg, f'))
  {
    assert TellsAt(FormatSteps(cfg, f), FormatSteps(cfg, f'), 0);
  }

  lemma TypeTells(cfg: Settings, d: DataType, d': DataType, inTable: bool)
    requires OtherType(d, d', inTable)
    ensures Tells(DataTypeSteps(cfg, d, inTable), DataTypeSteps(cfg, d', inTable))
  {
    TypeShape(cfg, d, inTable);
    TypeShape(cfg, d', inTable);
    var f := if inTable then FormatSteps(cfg, d.dateFormat) else [];
    var f' := if inTable then FormatSteps(cfg, d'.dateFormat) else [];
    hide Tells, DataTypeSteps, FormatSteps, Specified;
    var ty, ty' := [Ingest(Tag(d.dataType))], [Ingest(Tag(d'.dataType))];
    var z, z', y, y' := Specified(d.size), Specified(d'.size), Specified(d.scale), Specified(d'.scale);
    if d'.dataType != d.dataType {
      TokenTells(Tag(d.dataType), Tag(d'.dataType));
      TellsBefore(ty, ty', z + y + f);
      Three(ty, z, y, f);
      Three(ty', z, y, f);
    } else if d'.size != d.size {
      NumberTells(d.size, d'.size);
      TellsIn(ty, z, z', y + f);
      Assoc(ty + z, y, f);
      Assoc(ty + z', y, f);
    } else if d'.scale != d.scale {
      NumberTells(d.scale, d'.scale);
      TellsIn(ty + z, y, y', f);
    } else {
      TableFormatTells(cfg, d.dateFormat, d'.dateFormat);
      TellsAfter(ty + z + y, f, f');
    }
  }

  function ColumnEnd(x: ColumnItem, inTable: bool): seq<Step> {
    if inTable then [Visit(x.delim), Visit(x.keywords)] else []
  }

  function ColumnItemSteps(cfg: Settings, x: ColumnItem, inTable: bool): seq<Step> {
    [Visit(x.name)] + DataTypeSteps(cfg, x.dataType, inTable) + ColumnEnd(x, inTable)
  }

  lemma ColumnStepsHead(cfg: Settings, a: seq<ColumnItem>, inTable: bool)
    requires a != []
    ensures ColumnSteps(cfg, a, inTable) == ColumnItemSteps(cfg, a[0], inTable) + ColumnSteps(cfg, a[1..], inTable)
  {
    hide DataTypeSteps;
  }

  lemma {:induction false} ColumnTells(cfg: Settings, a: seq<ColumnItem>, a': seq<ColumnItem>, inTable: bool, i: nat)
    requires ButAt(a, a', i) && OtherColumn(a[i], a'[i], inTable)
    ensures Tells(ColumnSteps(cfg, a, inTable), ColumnSteps(cfg, a', inTable))
  {
    ColumnStepsHead(cfg, a, inTable);
    ColumnStepsHead(cfg, a', inTable);
    hide Tells, ColumnSteps, DataTypeSteps;
    ButRest(a, a', i);
    if i == 0 {
      TypeTells(cfg, a[0].dataType, a'[0].dataType, inTable);
      TellsIn([Visit(a[0].name)], DataTypeSteps(cfg, a[0].dataType, inTable),
          DataTypeSteps(cfg, a'[0].dataType, inTable), ColumnEnd(a[0], inTable));
      TellsBefore(ColumnItemSteps(cfg, a[0], inTable), ColumnItemSteps(cfg, a'[0], inTable),
          ColumnSteps(cfg, a[1..], inTable));
    } else {
      ColumnTells(cfg, a[1..], a'[1..], inTable, i - 1);
      TellsAfter(ColumnItemSteps(cfg, a[0], inTable), ColumnSteps(cfg, a[1..], inTable),
          ColumnSteps(cfg, a'[1..], inTable));
    }
  }

  function KeywordItemSteps(x: KeywordItem): seq<Step> {
    if !HashedKeyword(x.keyword) then []
    else [Ingest(Tag("keyword_STATEMENT"))] + [Ingest(Tag(x.keyword))]
         + [VisitSaved(x.value, x.keyword != "OPTIONAL_LIMIT")]
  }

  lemma KeywordStepsHead(a: seq<KeywordItem>)
    requires a != []
    ensures KeywordSteps(a) == KeywordItemSteps(a[0]) + KeywordSteps(a[1..])
  {
  }

  lemma {:induction false} KeywordTells(a: seq<KeywordItem>, a': seq<KeywordItem>, i: nat)
    requires ButAt(a, a', i) && OtherKeyword(a[i], a'[i])
    ensures Tells(KeywordSteps(a), KeywordSteps(a'))
  {
    KeywordStepsHead(a);
    KeywordStepsHead(a');
    hide Tells, KeywordSteps;
    ButRest(a, a', i);
    if i == 0 {
      FirstTells([Ingest(Tag("keyword_STATEMENT"))], Tag(a[0].keyword), Tag(a'[0].keyword),
          [VisitSaved(a[0].value, a[0].keyword != "OPTIONAL_LIMIT")],
          [VisitSaved(a'[0].value, a'[0].keyword != "OPTIONAL_LIMIT")]);
      TellsBefore(KeywordItemSteps(a[0]), KeywordItemSteps(a'[0]), KeywordSteps(a[1..]));
    } else {
      KeywordTells(a[1..], a'[1..], i - 1);
      TellsAfter(KeywordItemSteps(a[0]), KeywordSteps(a[1..]), KeywordSteps(a'[1..]));
    }
  }

  lemma {:induction false} AliasesTell(a: seq<AliasItem>, a': seq<AliasItem>, i: nat)
    requires ButAt(a, a', i) && OtherAlias(a[i], a'[i])
    ensures Tells(AliasesSteps(a), AliasesSteps(a'))
  {
    hide Tells, AliasSteps;
    ButRest(a, a', i);
    if i == 0 {
      AliasTells(a[0], a'[0]);
      TellsBefore(AliasSteps(a[0]), AliasSteps(a'[0]), AliasesSteps(a[1..]));
    } else {
      AliasesTell(a[1..], a'[1..], i - 1);
      TellsAfter(AliasSteps(a[0]), AliasesSteps(a[1..]), AliasesSteps(a'[1..]));
    }
  }

  lemma {:induction false} TypesTell(a: seq<string>, a': seq<string>)
    requires a != a'
    ensures Tells(TypeSteps(a), TypeSteps(a'))
  {
    if a == [] || a' == [] {
      TypeStepsIngest(a);
      TypeStepsIngest(a');
      assert TellsAt(TypeSteps(a), TypeSteps(a'), 0);
    } else if a[0] != a'[0] {
      assert TellsAt(TypeSteps(a), TypeSteps(a'), 0);
    } else {
      assert a == [a[0]] + a[1..] && a' == [a'[0]] + a'[1..];
      TypesTell(a[1..], a'[1..]);
      TellsAfter([Ingest(Tag(a[0]))], TypeSteps(a[1..]), TypeSteps(a'[1..]));
    }
  }

  // ----- every kind

  predicate Single(s: Stmt) {
    s.Cas? || s.ArgumentsOf? || s.Aggregate? || s.TableAlias? || s.Binary? || s.SetOperation? || s.Unary? || s.Column?
  }

  lemma GroupTells(cfg: Settings, s: Stmt, s': Stmt, h: seq<Step>, g: nat, g': nat, t: seq<Step>)
    requires g != g' && Steps(cfg, s) == h + NonZero(g) + t && Steps(cfg, s') == h + NonZero(g') + t
    ensures Tells(Steps(cfg, s), Steps(cfg, s'))
  {
    hide Steps, Tells;
    NumberTells(g, g');
    TellsIn(h, NonZero(g), NonZero(g'), t);
  }

  lemma MemberTells(cfg: Settings, s: Stmt, s': Stmt, h: seq<Step>, m: Token, m': Token, t: seq<Step>)
    requires m != m' && Steps(cfg, s) == h + [Ingest(m)] + t && Steps(cfg, s') == h + [Ingest(m')] + t
    ensures Tells(Steps(cfg, s), Steps(cfg, s'))
  {
    hide Steps, Tells;
    TokenTells(m, m');
    TellsIn(h, [Ingest(m)], [Ingest(m')], t);
  }

  lemma SingleTells(cfg: Settings, s: Stmt, s': Stmt)
    requires Single(s) && OtherMember(s, s')
    ensures Tells(Steps(cfg, s), Steps(cfg, s'))
  {
    hide Tells;
    match s
    case ArgumentsOf(call, arguments) => MemberTells(cfg, s, s', [], Tag(call), Tag(s'.call), [Visit(arguments)]);
    case Aggregate(kind, parameter) =>
      MemberTells(cfg, s, s', [Ingest(Tag("aggregate_function_STATEMENT"))], Tag(kind), Tag(s'.kind),
          [Visit(parameter)]);
    case TableAlias(table, alias, uniqueId) =>
      MemberTells(cfg, s, s', [Ingest(Tag("table_alias_STATEMENT")), Visit(table), Visit(alias)], Number(uniqueId),
          Number(s'.uniqueId), []);
    case Column(name, dataType, table, keywords, _) =>
      MemberTells(cfg, s, s', [Ingest(Tag("column_STATEMENT")), Visit(name)], Tag(dataType), Tag(s'.dataType),
          [Visit(table), Visit(keywords)]);
    case _ =>
      hide Steps;
      OperatorTells(cfg, s, s');
  }

  lemma OperatorTells(cfg: Settings, s: Stmt, s': Stmt)
    requires (s.Cas? || s.SetOperation? || s.Binary? || s.Unary?) && OtherMember(s, s')
    ensures Tells(Steps(cfg, s), Steps(cfg, s'))
  {
    hide Tells;
    match s
    case Cas(g, value, branches, otherwise) =>
      GroupTells(cfg, s, s', [Ingest(Tag("cas_STATEMENT"))], g, s'.groupBy,
          [Visit(value), Visit(branches), Visit(otherwise)]);
    case SetOperation(operation, left, right) =>
      MemberTells(cfg, s, s', [Ingest(Tag("set_operation_STATEMENT"))], Tag(operation), Tag(s'.operation),
          [Visit(left), Visit(right)]);
    case Binary(g, operation, left, right) =>
      var h, t := [Ingest(Tag("binary_STATEMENT"))], [Visit(left), Visit(right)];
      if s'.groupBy != g {
        GroupTells(cfg, s, s', h, g, s'.groupBy, [Ingest(Tag(operation))] + t);
      } else {
        MemberTells(cfg, s, s', h + NonZero(g), Tag(operation), Tag(s'.operation), t);
      }
    case Unary(g, operation, operand) =>
      var h, t := [Ingest(Tag("unary_STATEMENT"))], [Visit(operand)];
      if s'.groupBy != g {
        GroupTells(cfg, s, s', h, g, s'.groupBy, [Ingest(Tag(operation))] + t);
      } else {
        MemberTells(cfg, s, s', h + NonZero(g), Tag(operation), Tag(s'.operation), t);
      }
  }

  /** The steps of a statement tell each of its hashed members. */
  lemma MembersTell(cfg: Settings, s: Stmt, s': Stmt)
    requires OtherMember(s, s')
    ensures Tells(Steps(cfg, s), Steps(cfg, s'))
  {
    hide Tells, ValueSteps, JoinSteps, AliasSteps, ColumnSteps, KeywordSteps, TypeSteps, ListSteps;
    if Single(s) {
      hide Steps;
      SingleTells(cfg, s, s');
    } else {
      match s
      case Join(items) =>
        var i: nat :| ButAt(items, s'.items, i) && s'.items[i] == items[i].(kind := s'.items[i].kind)
                      && s'.items[i] != items[i];
        JoinTells(items, s'.items, i);
      case ValueOf(v) => ValueTells(cfg, v, s'.v);
      case ColumnListAlias(aliases) => AliasTells(aliases[0], s'.aliases[0]);
      case CreateTable(_, items, _, _, _) => TableTells(cfg, s, s');
      case TableValue(items, rows) =>
        var i: nat :| ButAt(items, s'.columnItems, i) && OtherColumn(items[i], s'.columnItems[i], false);
        ColumnTells(cfg, items, s'.columnItems, false, i);
        TellsIn([Ingest(Tag("table_value_STATEMENT"))], ColumnSteps(cfg, items, false),
            ColumnSteps(cfg, s'.columnItems, false), ListSteps(rows, []));
      case ParameterTypes(types) => TypesTell(types, s'.types);
      case Keyword(items) =>
        var i: nat :| ButAt(items, s'.keywordItems, i) && OtherKeyword(items[i], s'.keywordItems[i]);
        KeywordTells(items, s'.keywordItems, i);
      case _ =>
    }
  }

  lemma TableTells(cfg: Settings, s: Stmt, s': Stmt)
    requires s.CreateTable? && OtherMember(s, s')
    ensures Tells(Steps(cfg, s), Steps(cfg, s'))
  {
    hide Tells, ColumnSteps;
    var i: nat :| ButAt(s.columnItems, s'.columnItems, i) && OtherColumn(s.columnItems[i], s'.columnItems[i], true);
    ColumnTells(cfg, s.columnItems, s'.columnItems, true, i);
    TellsIn([Ingest(Tag("create_table_STATEMENT")), Visit(s.name)], ColumnSteps(cfg, s.columnItems, true),
        ColumnSteps(cfg, s'.columnItems, true), [Visit(s.source), Visit(s.delim), Visit(s.aim)]);
  }

  // ----- so do the traces

  /** Two statements of a kind that is not guarded, with the same children and another hashed member, ingest
      something else from the same state. */
  lemma StatementsTold(q: Query, c: Cert, n: Ref, n': Ref, st: State)
    requires WellFormed(q, c) && ChildBelow(q, c, n, c.bound) && ChildBelow(q, c, n', c.bound) && st.status <= 0
    requires n != 0 && n' != 0 && !Guarded(q.stmts[n]) && OtherMember(q.stmts[n], q.stmts[n'])
    ensures VisitStmt(q, c, n, st).trace != VisitStmt(q, c, n', st).trace
  {
    hide Steps, RevisitSteps, WholeSteps, Tells;
    var m, m' := st.(marks := st.marks + {n}), st.(marks := st.marks + {n'});
    assert StmtWF(q, c, n) && StmtWF(q, c, n');
    MembersTell(q.settings, q.stmts[n], q.stmts[n']);
    forall x ensures SameMark(q, m, m', x) {
    }
    assert Twins(q, q, 0);
    hide RunSteps, OtherMember;
    StepsTell(q, q, c, 0, Steps(q.settings, q.stmts[n]), Steps(q.settings, q.stmts[n']), c.rank[n], c.rank[n'], m, m');
  }

  /** What a guarded statement does when met again is the same but for a number. */
  lemma RevisitsAlike(s: Stmt, s': Stmt)
    requires Guarded(s) && OtherMember(s, s')
    ensures Guarded(s') && StepsAlike(RevisitSteps(s), RevisitSteps(s'))
  {
  }

  /** With another hashed member, a guarded statement that is met for the first time ingests something else,
      whatever cycles lead back to it. */
  lemma GuardedTold(q: Query, q': Query, c: Cert, n: Ref, st: State)
    requires WellFormed(q, c) && WellFormed(q', c) && ChildBelow(q, c, n, c.bound) && st.status <= 0 && n != 0
    requires q' == q.(stmts := q'.stmts) && n in q'.stmts && q'.stmts == q.stmts[n := q'.stmts[n]]
    requires Guarded(q.stmts[n]) && n !in st.marks && OtherMember(q.stmts[n], q'.stmts[n])
    ensures VisitStmt(q, c, n, st).trace != VisitStmt(q', c, n, st).trace
  {
    RevisitsAlike(q.stmts[n], q'.stmts[n]);
    hide Steps, RevisitSteps, WholeSteps, Tells;
    var m := st.(marks := st.marks + {n});
    assert StmtWF(q, c, n) && StmtWF(q', c, n);
    MembersTell(q.settings, q.stmts[n], q'.stmts[n]);
    AlikeSelf(q, m);
    forall x ensures TwinAt(q, q', n, x) {
    }
    hide RunSteps, OtherMember;
    StepsTell(q, q', c, n, Steps(q.settings, q.stmts[n]), Steps(q.settings, q'.stmts[n]), c.bound, c.bound, m, m);
  }

  /** So does a list of columns with another hashed member in any element. */
  lemma ListsTold(q: Query, c: Cert, n: Ref, n': Ref, b: nat, st: State)
    requires WellFormed(q, c) && b <= c.bound && ChildBelow(q, c, n, b) && ChildBelow(q, c, n', b) && st.status <= 0
    requires n != 0 && n' != 0 && q.stmts[n].ColumnListAlias? && q.stmts[n'].ColumnListAlias?
    requires OtherAliases(q.stmts[n].aliases, q.stmts[n'].aliases)
    ensures DoStep(q, c, VisitList(n), b, st).trace != DoStep(q, c, VisitList(n'), b, st).trace
  {
    hide Tells, WholeSteps, OtherAliases;
    AliasListsTell(q.stmts[n], q.stmts[n']);
    assert StmtWF(q, c, n) && StmtWF(q, c, n');
    var steps, steps' := WholeSteps(q.stmts[n]), WholeSteps(q.stmts[n']);
    hide Steps, RevisitSteps, Guarded, RunSteps;
    OneQueryTells(q, c, steps, steps', c.rank[n], c.rank[n'], st.(lists := st.lists + {n}),
        st.(lists := st.lists + {n'}));
  }

  lemma AliasListsTell(s: Stmt, s': Stmt)
    requires s.ColumnListAlias? && s'.ColumnListAlias? && OtherAliases(s.aliases, s'.aliases)
    ensures Tells(WholeSteps(s), WholeSteps(s'))
  {
    var i: nat :| ButAt(s.aliases, s'.aliases, i) && OtherAlias(s.aliases[i], s'.aliases[i]);
    hide Tells, AliasesSteps, OtherAlias;
    AliasesTell(s.aliases, s'.aliases, i);
  }

  lemma OneQueryTells(q: Query, c: Cert, a: seq<Step>, a': seq<Step>, b: nat, b': nat, st: State, st': State)
    requires WellFormed(q, c) && b <= c.bound && b' <= c.bound && Below(q, c, a, b) && Below(q, c, a', b')
    requires Tells(a, a') && st' == st.(lists := st'.lists)
    ensures RunSteps(q, c, a, b, st).trace != RunSteps(q, c, a', b', st').trace
  {
    hide Tells, RunSteps;
    assert Twins(q, q, 0);
    forall x ensures SameMark(q, st, st', x) {
    }
    StepsTell(q, q, c, 0, a, a', b, b', st, st');
  }

  // ----- met again

  /** What a guarded statement ingests when it is met again. */
  lemma RevisitTrace(q: Query, c: Cert, n: Ref, st: State)
    requires WellFormed(q, c) && n != 0 && ChildBelow(q, c, n, c.bound) && st.status <= 0 && n in st.marks
    ensures var s, r := q.stmts[n], VisitStmt(q, c, n, st).trace;
            && (s.Column? ==> r == st.trace + [Tag("column_STATEMENT"), Number(s.number)])
            && (s.TableAlias? ==> r == st.trace + [Tag("table_alias_STATEMENT"), Number(s.uniqueId)])
            && (s.TableValue? ==> r == st.trace + [Tag("table_value_STATEMENT")])
            && (s.Keyword? ==> r == st.trace)
  {
    assert StmtWF(q, c, n);
    var s := q.stmts[n];
    if s.Column? {
      Again(q, c, n, [Tag("column_STATEMENT"), Number(s.number)], st);
    } else if s.TableAlias? {
      Again(q, c, n, [Tag("table_alias_STATEMENT"), Number(s.uniqueId)], st);
    } else if s.TableValue? {
      Again(q, c, n, [Tag("table_value_STATEMENT")], st);
    } else if s.Keyword? {
      Again(q, c, n, [], st);
    }
  }

  lemma Again(q: Query, c: Cert, n: Ref, tokens: seq<Token>, st: State)
    requires WellFormed(q, c) && n != 0 && ChildBelow(q, c, n, c.bound) && st.status <= 0
    requires Guarded(q.stmts[n]) && n in st.marks && RevisitSteps(q.stmts[n]) == Ingests(tokens)
    ensures VisitStmt(q, c, n, st).trace == st.trace + tokens
  {
    hide Steps, RevisitSteps, WholeSteps;
    assert StmtWF(q, c, n);
    IngestAll(q, c, tokens, c.rank[n], st);
  }

  /** Tables and views ingest their name once more. */
  lemma RevisitName(q: Query, c: Cert, n: Ref, st: State)
    requires WellFormed(q, c) && n != 0 && ChildBelow(q, c, n, c.bound) && st.status <= 0 && n in st.marks
    requires q.stmts[n].CreateTable? || q.stmts[n].CreateView?
    ensures var tag := Tag(if q.stmts[n].CreateTable? then "create_table_STATEMENT" else "create_view_STATEMENT");
            && ChildBelow(q, c, q.stmts[n].name, c.bound)
            && VisitStmt(q, c, n, st) == VisitStmt(q, c, q.stmts[n].name, st.(trace := st.trace + [tag]))
  {
    assert StmtWF(q, c, n);
    var s, b := q.stmts[n], c.rank[n];
    var tag := Ingest(Tag(if s.CreateTable? then "create_table_STATEMENT" else "create_view_STATEMENT"));
    var steps := [tag, Visit(s.name)];
    assert RevisitSteps(s) == steps && ChildOf(steps[1]) == s.name;
    hide Steps, RevisitSteps, WholeSteps;
    assert steps[..1] == [tag] && steps[..1][..0] == [];
    assert RunSteps(q, c, steps, b, st) == DoStep(q, c, steps[1], b, RunSteps(q, c, steps[..1], b, st));
    assert RunSteps(q, c, steps[..1], b, st) == DoStep(q, c, tag, b, RunSteps(q, c, [], b, st));
  }

  // ----- literals that count

  /** The alias of a column, the value of a keyword other than LIMIT and the body of a view are hashed with
      their literals: a literal there ingests its text, whatever the mode is. */
  lemma ForcedLiteral(q: Query, c: Cert, x: Step, b: nat, st: State)
    requires WellFormed(q, c) && b <= c.bound && (x.VisitView? || (x.VisitSaved? && x.force)) && x.child != 0
    requires ChildBelow(q, c, x.child, b) && q.stmts[x.child].ValueOf? && q.stmts[x.child].v.Literal?
    ensures DoStep(q, c, x, b, st).trace ==
            st.trace + LiteralHead(q.settings, q.stmts[x.child].v) + [Text(q.stmts[x.child].v.text)]
  {
    hide LiteralHead, VisitStmt;
    LiteralTrace(q, c, x.child, st.(status := HASH_LITERAL_VALUES));
  }

  /** The mode stays with everything below, as long as all can be hashed. */
  lemma ModeStays(q: Query, c: Cert, n: Ref, st: State)
    requires WellFormed(q, c) && ChildBelow(q, c, n, c.bound) && st.status == HASH_LITERAL_VALUES
    requires !VisitStmt(q, c, n, st).met
    ensures VisitStmt(q, c, n, st).status == HASH_LITERAL_VALUES
  {
    hide VisitStmt;
    VisitStatus(q, c, n, st);
  }

  /** In this mode casts to other sizes are told apart. */
  lemma CastSizesTold(q: Query, c: Cert, n: Ref, n': Ref, st: State)
    requires WellFormed(q, c) && ChildBelow(q, c, n, c.bound) && ChildBelow(q, c, n', c.bound) && n != 0 && n' != 0
    requires st.status == HASH_LITERAL_VALUES && q.stmts[n].ValueOf? && q.stmts[n'].ValueOf?
    requires var v, v' := q.stmts[n].v, q.stmts[n'].v;
             && v.Coerce? && v'.Coerce? && v.size != UNSPECIFIED && v'.size != UNSPECIFIED && v.size != v'.size
             && v'.dataType == v.dataType && v'.groupBy == v.groupBy
    ensures VisitStmt(q, c, n, st).trace != VisitStmt(q, c, n', st).trace
  {
    SizeIngested(q, c, n, st);
    SizeIngested(q, c, n', st);
  }

  lemma SizeIngested(q: Query, c: Cert, n: Ref, st: State)
    requires WellFormed(q, c) && ChildBelow(q, c, n, c.bound) && n != 0 && st.status == HASH_LITERAL_VALUES
    requires q.stmts[n].ValueOf? && q.stmts[n].v.Coerce? && q.stmts[n].v.size != UNSPECIFIED
    ensures var v, r := q.stmts[n].v, VisitStmt(q, c, n, st).trace; var k := |st.trace| + 3 + |NonZero(v.groupBy)|;
            k < |r| && r[k] == Number(v.size)
  {
    hide Steps, ValueSteps, SizeSteps, CastEnd, RevisitSteps, WholeSteps, NonZero, CastHead, CastRest;
    assert StmtWF(q, c, n);
    var v, m := q.stmts[n].v, st.(marks := st.marks + {n});
    CastShape(q.settings, v);
    SizeAt(q, c, CastHead(v), v.size, CastRest(q.settings, v), c.rank[n], m);
  }

  function CastHead(v: Value): seq<Step>
    requires v.Coerce?
  {
    CAST + [Ingest(Tag(v.dataType))] + NonZero(v.groupBy)
  }

  function CastRest(cfg: Settings, v: Value): seq<Step>
    requires v.Coerce?
  {
    SizeSteps(v.scale) + [Ingest(Tag(v.preType))] + CastEnd(cfg, v.target, v.isDate)
  }

  lemma CastShape(cfg: Settings, v: Value)
    requires v.Coerce?
    ensures Steps(cfg, ValueOf(v)) == CastHead(v) + SizeSteps(v.size) + CastRest(cfg, v)
    ensures |CastHead(v)| == 3 + |NonZero(v.groupBy)| && forall i :: 0 <= i < |CastHead(v)| ==> Emitting(CastHead(v)[i])
  {
    hide ValueSteps, SizeSteps, CastEnd;
    CastSteps(cfg, v);
    Three(CastHead(v) + SizeSteps(v.size), SizeSteps(v.scale), [Ingest(Tag(v.preType))],
        CastEnd(cfg, v.target, v.isDate));
  }

  lemma SizeAt(q: Query, c: Cert, head: seq<Step>, size: int, rest: seq<Step>, b: nat, st: State)
    requires WellFormed(q, c) && b <= c.bound && st.status == HASH_LITERAL_VALUES && size != UNSPECIFIED
    requires Below(q, c, head + SizeSteps(size) + rest, b) && forall i :: 0 <= i < |head| ==> Emitting(head[i])
    ensures var r := RunSteps(q, c, head + SizeSteps(size) + rest, b, st).trace;
            |st.trace| + |head| < |r| && r[|st.trace| + |head|] == Number(size)
  {
    var one := [IngestSize(size)];
    var first := head + one;
    var steps := first + rest;
    assert SizeSteps(size) == one && first[..|head|] == head && steps[|first|..|steps|] == rest;
    assert steps[0..|first|] == first;
    BelowPart(q, c, steps, b, 0, |first|);
    BelowPart(q, c, steps, b, |first|, |steps|);
    EmitRun(q, c, head, b, st);
    var m := RunSteps(q, c, head, b, st);
    var m1 := RunSteps(q, c, first, b, st);
    assert m1 == DoStep(q, c, first[|head|], b, m);
    RunConcat(q, c, first, rest, b, st);
    RunGrows(q, c, rest, b, m1);
    var r := RunSteps(q, c, steps, b, st).trace;
    assert r[|m.trace|] == r[..|m1.trace|][|m.trace|];
  }

  // ----- the kind

  /** The constant that a kind of statement begins with, if it does. */
  function KindName(s: Stmt): Option<string> {
    match s
    case Cas(_, _, _, _) => Some("cas_STATEMENT")
    case CasBranch(pairs) => if pairs == [] then None else Some("cas_branch_STATEMENT")
    case Insert(_, _, _, _) => Some("insert_STATEMENT")
    case DeleteFrom(_, _) => Some("delete_from_STATEMENT")
    case Update(_, _, _) => Some("update_STATEMENT")
    case Select(_, _, _, _, _, _, _) => Some("select_STATEMENT")
    case NullIf(_, _) => Some("null_if_STATEMENT")
    case FunctionCall(_, _, _) => Some("function_call_STATEMENT")
    case Aggregate(_, _) => Some("aggregate_function_STATEMENT")
    case Join(items) => if items == [] then None else Some("join_STATEMENT")
    case ValueOf(_) => Some("value_STATEMENT")
    case ColumnAlias(_, _) => Some("column_alias_STATEMENT")
    case ColumnList(values) => if values == [] then None else Some("column_list_STATEMENT")
    case ColumnListAlias(aliases) => if aliases == [] then None else Some("column_list_alias_STATEMENT")
    case CreateView(_, _) => Some("create_view_STATEMENT")
    case CreateTable(_, _, _, _, _) => Some("create_table_STATEMENT")
    case TableValue(_, _) => Some("table_value_STATEMENT")
    case TableAlias(_, _, _) => Some("table_alias_STATEMENT")
    case Binary(_, _, _, _) => Some("binary_STATEMENT")
    case SetOperation(_, _, _) => Some("set_operation_STATEMENT")
    case Unary(_, _, _) => Some("unary_STATEMENT")
    case Array(_) => Some("array_STATEMENT")
    case Column(_, _, _, _, _) => Some("column_STATEMENT")
    case Constraint(_, _) => Some("constraint_STATEMENT")
    case _ => None
  }

  lemma KindFirst(cfg: Settings, s: Stmt)
    requires KindName(s).Some?
    ensures |Steps(cfg, s)| > 0 && Steps(cfg, s)[0] == Ingest(Tag(KindName(s).value))
  {
    if Repeats(s) {
      hide Steps, KindName;
      ListKindFirst(cfg, s);
    } else {
      hide PairSteps, JoinSteps, ListSteps, ColumnSteps, KeywordSteps, TypeSteps;
    }
  }

  lemma ListKindFirst(cfg: Settings, s: Stmt)
    requires KindName(s).Some? && Repeats(s)
    ensures |Steps(cfg, s)| > 0 && Steps(cfg, s)[0] == Ingest(Tag(KindName(s).value))
  {
    hide ColumnSteps;
  }

  /** A statement that is walked begins with the constant of its kind, so kinds are told apart. */
  lemma KindTold(q: Query, c: Cert, n: Ref, st: State)
    requires WellFormed(q, c) && n != 0 && ChildBelow(q, c, n, c.bound) && st.status <= 0
    requires n !in st.marks && KindName(q.stmts[n]).Some?
    ensures var r := VisitStmt(q, c, n, st).trace;
            |st.trace| < |r| && r[|st.trace|] == Tag(KindName(q.stmts[n]).value)
  {
    KindFirst(q.settings, q.stmts[n]);
    hide Steps, RevisitSteps, WholeSteps, KindName;
    assert StmtWF(q, c, n);
    var m, steps := st.(marks := st.marks + {n}), Steps(q.settings, q.stmts[n]);
    var b := if Guarded(q.stmts[n]) then c.bound else c.rank[n];
    IngestedAt(q, c, steps, b, 0, m);
    assert steps[..0] == [];
  }

  /** A function call ingests the emulation mode. */
  lemma EmulationTold(q: Query, c: Cert, n: Ref, st: State)
    requires WellFormed(q, c) && n != 0 && ChildBelow(q, c, n, c.bound) && st.status <= 0 && q.stmts[n].FunctionCall?
    ensures var r := VisitStmt(q, c, n, st).trace;
            |r| > |st.trace| + 1 && r[|st.trace| + 1] == Number(q.settings.emulation)
  {
    assert StmtWF(q, c, n);
    var m, steps, b := st.(marks := st.marks + {n}), Steps(q.settings, q.stmts[n]), c.rank[n];
    var tag := Ingest(Tag("function_call_STATEMENT"));
    assert steps[..1] == [tag] && [tag][..0] == [] && steps[1] == Ingest(Number(q.settings.emulation));
    hide Steps, RevisitSteps, WholeSteps;
    IngestedAt(q, c, steps, b, 1, m);
    assert RunSteps(q, c, [tag], b, m) == DoStep(q, c, tag, b, RunSteps(q, c, [], b, m));
  }

  /** A cast to a date or time type ends with the date style. */
  lemma CastStyleTold(q: Query, c: Cert, n: Ref, st: State)
    requires WellFormed(q, c) && n != 0 && ChildBelow(q, c, n, c.bound) && st.status <= 0
    requires q.stmts[n].ValueOf? && q.stmts[n].v.Coerce? && q.stmts[n].v.isDate
    ensures var r := VisitStmt(q, c, n, st).trace; |r| > 0 && r[|r| - 1] == Text(q.settings.datestyle)
  {
    assert StmtWF(q, c, n);
    var m, steps, b := st.(marks := st.marks + {n}), Steps(q.settings, q.stmts[n]), c.rank[n];
    var k := |steps| - 1;
    assert steps[k] == Ingest(Text(q.settings.datestyle));
    hide Steps, RevisitSteps, WholeSteps;
    assert RunSteps(q, c, steps, b, m) == DoStep(q, c, steps[k], b, RunSteps(q, c, steps[..k], b, m));
  }

  /** The date style counts for a column of a table whose format for dates is text. */
  lemma StyleHashed(cfg: Settings, d: DataType, inTable: bool)
    ensures Ingest(Text(cfg.datestyle)) in DataTypeSteps(cfg, d, inTable) <==>
              inTable && d.dateFormat.Some? && (d.dateFormat.value == "OPTIONAL_DATE_TIME_TEXT" || cfg.textDates)
  {
  }

  // ----- the children

  predicate IsVisit(x: Step) {
    x.Visit? || x.VisitList? || x.VisitSaved? || x.VisitView?
  }

  function PairVisits(pairs: seq<Pair>): seq<Step> {
    if pairs == [] then [] else [Visit(pairs[0].first), Visit(pairs[0].second)] + PairVisits(pairs[1..])
  }

  function JoinVisits(items: seq<JoinItem>): seq<Step> {
    if items == [] then [] else [Visit(items[0].table), Visit(items[0].condition)] + JoinVisits(items[1..])
  }

  function ListVisits(values: seq<Ref>): seq<Step> {
    if values == [] then [] else [Visit(values[0])] + ListVisits(values[1..])
  }

  function ColumnVisits(items: seq<ColumnItem>, inTable: bool): seq<Step> {
    if items == [] then []
    else
      var x := items[0];
      (if inTable then [Visit(x.name), Visit(x.delim), Visit(x.keywords)] else [Visit(x.name)])
      + ColumnVisits(items[1..], inTable)
  }

  /** Values of keywords are hashed with their literals, but for LIMIT. */
  function KeywordVisits(items: seq<KeywordItem>): seq<Step> {
    if items == [] then []
    else
      var x := items[0];
      (if HashedKeyword(x.keyword) then [VisitSaved(x.value, x.keyword != "OPTIONAL_LIMIT")] else [])
      + KeywordVisits(items[1..])
  }

  /** The alias of a column is hashed with its literals. */
  function AliasVisits(a: AliasItem): seq<Step> {
    [Visit(a.columnList), VisitSaved(a.alias, true), Visit(a.keywords)]
  }

  function AliasesVisits(aliases: seq<AliasItem>): seq<Step> {
    if aliases == [] then [] else AliasVisits(aliases[0]) + AliasesVisits(aliases[1..])
  }

  function ValueVisits(v: Value): seq<Step> {
    match v
    case Calculated(_, calculated) => [Visit(calculated)]
    case Coerce(_, _, _, _, _, _, target) => [Visit(target)]
    case _ => []
  }

  /** The children of every kind of statement, and how they are visited. */
  function Visits(s: Stmt): seq<Step> {
    match s
    case Cas(_, value, branches, otherwise) => [Visit(value), Visit(branches), Visit(otherwise)]
    case CasBranch(pairs) => PairVisits(pairs)
    case Insert(table, columns, source, keywords) => [Visit(table), Visit(columns), Visit(source), Visit(keywords)]
    case DeleteFrom(join, where) => [Visit(join), Visit(where)]
    case Update(join, where, pairs) => [Visit(join), Visit(where)] + PairVisits(pairs)
    case Select(selectList, tables, where, groupByList, having, orderBy, keywords) =>
      [VisitList(selectList), Visit(tables), Visit(where), VisitList(groupByList), Visit(having), VisitList(orderBy),
       Visit(keywords)]
    case ArgumentsOf(_, arguments) => [Visit(arguments)]
    case NullIf(left, right) => [Visit(left), Visit(right)]
    case FunctionCall(name, extrinsic, parameters) => [Visit(name), Visit(extrinsic), Visit(parameters)]
    case Aggregate(_, parameter) => [Visit(parameter)]
    case Join(items) => JoinVisits(items)
    case ValueOf(v) => ValueVisits(v)
    case ColumnAlias(column, tableAlias) => [Visit(column), Visit(tableAlias)]
    case ColumnList(values) => ListVisits(values)
    case ColumnListAlias(aliases) => if aliases == [] then [] else AliasVisits(aliases[0])
    case CreateView(name, source) => [Visit(name), VisitView(source)]
    case CreateTable(name, items, source, delim, aim) =>
      [Visit(name)] + ColumnVisits(items, true) + [Visit(source), Visit(delim), Visit(aim)]
    case TableValue(items, rows) => ColumnVisits(items, false) + ListVisits(rows)
    case CreateFunction(name, parameterTypes) => [Visit(name), Visit(parameterTypes)]
    case DropFunction(name, parameterTypes) => [Visit(name), Visit(parameterTypes)]
    case ParameterTypes(_) => []
    case TableAlias(table, alias, _) => [Visit(table), Visit(alias)]
    case Binary(_, _, left, right) => [Visit(left), Visit(right)]
    case SetOperation(_, left, right) => [Visit(left), Visit(right)]
    case Unary(_, _, operand) => [Visit(operand)]
    case Array(argument) => [Visit(argument)]
    case Keyword(items) => KeywordVisits(items)
    case Column(name, _, table, keywords, _) => [Visit(name), Visit(table), Visit(keywords)]
    case Constraint(name, definition) => [Visit(name), Visit(definition)]
    case Unsupported => []
  }

  lemma PairsIn(x: Step, pairs: seq<Pair>, tags: seq<Step>)
    requires IsVisit(x) && x !in tags
    ensures x in PairSteps(pairs, tags) <==> x in PairVisits(pairs)
  {
  }

  lemma JoinIn(x: Step, items: seq<JoinItem>)
    requires IsVisit(x)
    ensures x in JoinSteps(items) <==> x in JoinVisits(items)
  {
  }

  lemma ListIn(x: Step, values: seq<Ref>, tags: seq<Step>)
    requires IsVisit(x) && x !in tags
    ensures x in ListSteps(values, tags) <==> x in ListVisits(values)
  {
  }

  lemma ColumnIn(x: Step, cfg: Settings, items: seq<ColumnItem>, inTable: bool)
    requires IsVisit(x)
    ensures x in ColumnSteps(cfg, items, inTable) <==> x in ColumnVisits(items, inTable)
  {
    if items != [] {
      ColumnIn(x, cfg, items[1..], inTable);
      assert x !in DataTypeSteps(cfg, items[0].dataType, inTable);
    }
  }

  lemma KeywordIn(x: Step, items: seq<KeywordItem>)
    requires IsVisit(x)
    ensures x in KeywordSteps(items) <==> x in KeywordVisits(items)
  {
  }

  lemma AliasIn(x: Step, a: AliasItem)
    requires IsVisit(x)
    ensures x in AliasSteps(a) <==> x in AliasVisits(a)
  {
  }

  lemma AliasesIn(x: Step, aliases: seq<AliasItem>)
    requires IsVisit(x)
    ensures x in AliasesSteps(aliases) <==> x in AliasesVisits(aliases)
  {
    hide AliasSteps, AliasVisits;
    if aliases != [] {
      AliasIn(x, aliases[0]);
      AliasesIn(x, aliases[1..]);
    }
  }

  lemma TypesIn(x: Step, types: seq<string>)
    requires IsVisit(x)
    ensures x !in TypeSteps(types)
  {
  }

  lemma ValueIn(x: Step, cfg: Settings, v: Value)
    requires IsVisit(x)
    ensures x in ValueSteps(cfg, v) <==> x in ValueVisits(v)
  {
  }

  lemma RepeatsIn(x: Step, cfg: Settings, s: Stmt)
    requires IsVisit(x) && Repeats(s)
    ensures x in Steps(cfg, s) <==> x in Visits(s)
  {
    hide PairSteps, PairVisits, JoinSteps, JoinVisits, ListSteps, ListVisits, ColumnSteps, ColumnVisits, KeywordSteps,
         KeywordVisits, TypeSteps;
    match s
    case CasBranch(pairs) => PairsIn(x, pairs, [Ingest(Tag("cas_branch_STATEMENT"))]);
    case Update(_, _, pairs) => PairsIn(x, pairs, []);
    case Join(items) => JoinIn(x, items);
    case ColumnList(values) => ListIn(x, values, [Ingest(Tag("column_list_STATEMENT"))]);
    case CreateTable(_, items, _, _, _) => ColumnIn(x, cfg, items, true);
    case TableValue(items, rows) =>
      ColumnIn(x, cfg, items, false);
      ListIn(x, rows, []);
    case ParameterTypes(types) => TypesIn(x, types);
    case Keyword(items) => KeywordIn(x, items);
  }

  /** The steps of a statement visit its children, in the way listed, and nothing else. */
  lemma VisitsExactly(x: Step, cfg: Settings, s: Stmt)
    requires IsVisit(x)
    ensures x in Steps(cfg, s) <==> x in Visits(s)
  {
    if Repeats(s) {
      hide Steps, Visits;
      RepeatsIn(x, cfg, s);
    } else if s.ValueOf? {
      hide ValueSteps, ValueVisits;
      ValueIn(x, cfg, s.v);
    } else if s.ColumnListAlias? && s.aliases != [] {
      hide AliasSteps, AliasVisits;
      AliasIn(x, s.aliases[0]);
    } else if s.Cas? || s.Insert? || s.DeleteFrom? || s.Select? || s.ArgumentsOf? || s.NullIf? || s.FunctionCall? {
      hide Steps, Visits;
      PlainIn(x, cfg, s);
    } else {
      hide Steps, Visits;
      OperatorIn(x, cfg, s);
    }
  }

  lemma OperatorIn(x: Step, cfg: Settings, s: Stmt)
    requires IsVisit(x) && !Repeats(s) && !s.ValueOf? && (s.ColumnListAlias? ==> s.aliases == [])
    requires !(s.Cas? || s.Insert? || s.DeleteFrom? || s.Select? || s.ArgumentsOf? || s.NullIf? || s.FunctionCall?)
    ensures x in Steps(cfg, s) <==> x in Visits(s)
  {
    hide PairSteps, JoinSteps, ListSteps, ColumnSteps, KeywordSteps, TypeSteps, ValueSteps, AliasSteps;
  }

  lemma PlainIn(x: Step, cfg: Settings, s: Stmt)
    requires IsVisit(x)
    requires s.Cas? || s.Insert? || s.DeleteFrom? || s.Select? || s.ArgumentsOf? || s.NullIf? || s.FunctionCall?
    ensures x in Steps(cfg, s) <==> x in Visits(s)
  {
  }

  /** Every child of a statement that is met for the first time is visited, unless something cannot be
      hashed. */
  lemma ChildrenVisited(q: Query, c: Cert, n: Ref, st: State, x: Step)
    requires WellFormed(q, c) && n != 0 && ChildBelow(q, c, n, c.bound) && st.status <= 0 && n !in st.marks
    requires !VisitStmt(q, c, n, st).met && IsVisit(x) && x in Visits(q.stmts[n]) && x.child != 0
    ensures x.child in if x.VisitList? then VisitStmt(q, c, n, st).lists else VisitStmt(q, c, n, st).marks
  {
    VisitsExactly(x, q.settings, q.stmts[n]);
    hide Steps, Visits, VisitStmt;
    VisitExplores(q, c, n, st);
    var r := VisitStmt(q, c, n, st);
    assert ExploredStmt(q, r.marks, r.lists, n);
    var i :| 0 <= i < |Steps(q.settings, q.stmts[n])| && Steps(q.settings, q.stmts[n])[i] == x;
    assert StepIn(Steps(q.settings, q.stmts[n])[i], r.marks, r.lists, true);
  }

  /** So is every child of every element of a list of columns. */
  lemma ListVisited(q: Query, c: Cert, n: Ref, b: nat, st: State, x: Step)
    requires WellFormed(q, c) && b <= c.bound && ChildBelow(q, c, n, b) && st.status <= 0 && n != 0 && n !in st.lists
    requires q.stmts[n].ColumnListAlias? && !DoStep(q, c, VisitList(n), b, st).met
    requires IsVisit(x) && x in AliasesVisits(q.stmts[n].aliases) && x.child != 0
    ensures x.child in if x.VisitList? then DoStep(q, c, VisitList(n), b, st).lists
                       else DoStep(q, c, VisitList(n), b, st).marks
  {
    AliasesIn(x, q.stmts[n].aliases);
    hide Steps, RevisitSteps, AliasesSteps, AliasesVisits;
    assert StmtWF(q, c, n);
    StepExplores(q, c, VisitList(n), b, st);
    StepStatus(q, c, VisitList(n), b, st);
    var r := DoStep(q, c, VisitList(n), b, st);
    assert ExploredList(q, r.marks, r.lists, n);
    var steps := WholeSteps(q.stmts[n]);
    var i :| 0 <= i < |steps| && steps[i] == x;
    assert StepIn(steps[i], r.marks, r.lists, true);
  }
}
