/**
 What a query feeds into the hash that names its plan.  Statements form a graph with cycles; the
 kinds that can close one are visited once and give a short form when met again.
 */
module QueryHash {
  import opened Common

  const NORMAL := 0
  const HASH_LITERAL_VALUES := -1
  const ABNORMAL_STATUS := 1
  const UNSPECIFIED := -1

  /** A statement by its number; zero is NULL. */
  type Ref = nat

  /** What is ingested: a constant of an enumeration, a number or a string. */
  datatype Token = Tag(tag: string) | Number(n: int) | Text(text: string)

  datatype Value =
    | Literal(ty: string, index: nat, dateFormat: Option<string>, text: string)
    | Reference(ty: string, text: string)
    | Calculated(groupBy: nat, calculated: Ref)
    | Coerce(dataType: string, isDate: bool, size: int, scale: int, preType: string, groupBy: nat, target: Ref)

  datatype Pair = Pair(first: Ref, second: Ref)
  datatype JoinItem = JoinItem(kind: string, table: Ref, condition: Ref)
  datatype DataType = DataType(dataType: string, size: int, scale: int, dateFormat: Option<string>)
  datatype ColumnItem = ColumnItem(name: Ref, dataType: DataType, delim: Ref, keywords: Ref)
  datatype AliasItem =
    AliasItem(columnList: Ref, alias: Ref, keywords: Ref, ty: string, userAlias: int, uniqueId: int, columnNumber: int)
  datatype KeywordItem = KeywordItem(keyword: string, value: Ref)

  /** The statements, with the members that are hashed; a ring is the sequence of its elements. */
  datatype Stmt =
    | Cas(groupBy: nat, value: Ref, branches: Ref, otherwise: Ref)
    | CasBranch(pairs: seq<Pair>)
    | Insert(table: Ref, columns: Ref, source: Ref, keywords: Ref)
    | DeleteFrom(join: Ref, where: Ref)
    | Update(join: Ref, where: Ref, pairs: seq<Pair>)
    | Select(selectList: Ref, tables: Ref, where: Ref, groupByList: Ref, having: Ref, orderBy: Ref, keywords: Ref)
    | ArgumentsOf(call: string, arguments: Ref)
    | NullIf(left: Ref, right: Ref)
    | FunctionCall(name: Ref, extrinsic: Ref, parameters: Ref)
    | Aggregate(kind: string, parameter: Ref)
    | Join(items: seq<JoinItem>)
    | ValueOf(v: Value)
    | ColumnAlias(column: Ref, tableAlias: Ref)
    | ColumnList(values: seq<Ref>)
    | ColumnListAlias(aliases: seq<AliasItem>)
    | CreateView(name: Ref, source: Ref)
    | CreateTable(name: Ref, columnItems: seq<ColumnItem>, source: Ref, delim: Ref, aim: Ref)
    | TableValue(columnItems: seq<ColumnItem>, rows: seq<Ref>)
    | CreateFunction(name: Ref, parameterTypes: Ref)
    | DropFunction(name: Ref, parameterTypes: Ref)
    | ParameterTypes(types: seq<string>)
    | TableAlias(table: Ref, alias: Ref, uniqueId: int)
    | Binary(groupBy: nat, operation: string, left: Ref, right: Ref)
    | SetOperation(operation: string, left: Ref, right: Ref)
    | Unary(groupBy: nat, operation: string, operand: Ref)
    | Array(argument: Ref)
    | Keyword(keywordItems: seq<KeywordItem>)
    | Column(name: Ref, dataType: string, table: Ref, keywords: Ref, number: int)
    | Constraint(name: Ref, definition: Ref)
    | Unsupported

  /** The settings that take part. */
  datatype Settings = Settings(emulation: int, datestyle: string, textDates: bool)

  datatype Query = Query(settings: Settings, stmts: map<Ref, Stmt>)

  /** One step of hashing a statement. */
  datatype Step =
    | Ingest(token: Token)
    | IngestLiteral(token: Token)                      // only if literals are hashed
    | IngestSize(size: int)                            // the size if literals are hashed, else that there is one
    | Visit(child: Ref)
    | VisitList(child: Ref)                            // every element of a column list
    | VisitSaved(child: Ref, force: bool)              // status kept unless it became abnormal
    | VisitView(child: Ref)                            // literals hashed, status always kept
    | Reject

  // ----- the steps of every kind of statement

  function FixType(ty: string): string {
    if ty == "BOOLEAN_OR_STRING_LITERAL" then "STRING_LITERAL" else ty
  }

  function NonZero(n: int): seq<Step> {
    if n != 0 then [Ingest(Number(n))] else []
  }

  function Specified(n: int): seq<Step> {
    if n != UNSPECIFIED then [Ingest(Number(n))] else []
  }

  function SizeSteps(n: int): seq<Step> {
    if n != UNSPECIFIED then [IngestSize(n)] else []
  }

  function ValueSteps(cfg: Settings, v: Value): seq<Step> {
    [Ingest(Tag("value_STATEMENT"))] +
    match v
    case Literal(ty, index, dateFormat, text) =>
      [Ingest(Tag(FixType(ty)))] + NonZero(index)
      + (if dateFormat.Some? then [Ingest(Tag(dateFormat.value)), Ingest(Text(cfg.datestyle))] else [])
      + [IngestLiteral(Text(text))]
    case Reference(ty, text) => [Ingest(Tag(ty)), Ingest(Text(text))]
    case Calculated(groupBy, calculated) => [Ingest(Tag("CALCULATED_VALUE"))] + NonZero(groupBy) + [Visit(calculated)]
    case Coerce(dataType, isDate, size, scale, preType, groupBy, target) =>
      [Ingest(Tag("COERCE_TYPE")), Ingest(Tag(dataType))] + NonZero(groupBy) + SizeSteps(size) + SizeSteps(scale)
      + [Ingest(Tag(preType)), Visit(target)] + if isDate then [Ingest(Text(cfg.datestyle))] else []
  }

  function PairSteps(pairs: seq<Pair>, tags: seq<Step>): seq<Step> {
    if pairs == [] then [] else tags + [Visit(pairs[0].first), Visit(pairs[0].second)] + PairSteps(pairs[1..], tags)
  }

  function JoinSteps(items: seq<JoinItem>): seq<Step> {
    if items == [] then []
    else [Ingest(Tag("join_STATEMENT")), Ingest(Tag(items[0].kind))]
         + [Visit(items[0].table), Visit(items[0].condition)] + JoinSteps(items[1..])
  }

  function ListSteps(values: seq<Ref>, tags: seq<Step>): seq<Step> {
    if values == [] then [] else tags + [Visit(values[0])] + ListSteps(values[1..], tags)
  }

  function AliasSteps(a: AliasItem): seq<Step> {
    [Ingest(Tag("column_list_alias_STATEMENT")), Visit(a.columnList), VisitSaved(a.alias, true), Visit(a.keywords),
     Ingest(Tag(FixType(a.ty))), Ingest(Number(a.userAlias))] + NonZero(a.uniqueId) + NonZero(a.columnNumber)
  }

  function AliasesSteps(aliases: seq<AliasItem>): seq<Step> {
    if aliases == [] then [] else AliasSteps(aliases[0]) + AliasesSteps(aliases[1..])
  }

  function DataTypeSteps(cfg: Settings, d: DataType, inTable: bool): seq<Step> {
    [Ingest(Tag(d.dataType))] + Specified(d.size) + Specified(d.scale)
    + if inTable && d.dateFormat.Some?
      then [Ingest(Tag(d.dateFormat.value))]
           + if d.dateFormat.value == "OPTIONAL_DATE_TIME_TEXT" || cfg.textDates
             then [Ingest(Text(cfg.datestyle))] else []
      else []
  }

  function ColumnSteps(cfg: Settings, items: seq<ColumnItem>, inTable: bool): seq<Step> {
    if items == [] then []
    else [Visit(items[0].name)] + DataTypeSteps(cfg, items[0].dataType, inTable)
         + (if inTable then [Visit(items[0].delim), Visit(items[0].keywords)] else [])
         + ColumnSteps(cfg, items[1..], inTable)
  }

  function TypeSteps(types: seq<string>): seq<Step> {
    if types == [] then [] else [Ingest(Tag(types[0]))] + TypeSteps(types[1..])
  }

  function KeywordSteps(items: seq<KeywordItem>): seq<Step> {
    if items == [] then []
    else (if items[0].keyword == "NO_KEYWORD" || items[0].keyword == "OPTIONAL_KEY_NUM" then []
          else [Ingest(Tag("keyword_STATEMENT")), Ingest(Tag(items[0].keyword)),
                VisitSaved(items[0].value, items[0].keyword != "OPTIONAL_LIMIT")])
         + KeywordSteps(items[1..])
  }

  function Steps(cfg: Settings, s: Stmt): seq<Step> {
    match s
    case Cas(groupBy, value, branches, otherwise) =>
      [Ingest(Tag("cas_STATEMENT"))] + NonZero(groupBy) + [Visit(value), Visit(branches), Visit(otherwise)]
    case CasBranch(pairs) => PairSteps(pairs, [Ingest(Tag("cas_branch_STATEMENT"))])
    case Insert(table, columns, source, keywords) =>
      [Ingest(Tag("insert_STATEMENT")), Visit(table), Visit(columns), Visit(source), Visit(keywords)]
    case DeleteFrom(join, where) => [Ingest(Tag("delete_from_STATEMENT")), Visit(join), Visit(where)]
    case Update(join, where, pairs) =>
      [Ingest(Tag("update_STATEMENT")), Visit(join), Visit(where)] + PairSteps(pairs, [])
    case Select(selectList, tables, where, groupByList, having, orderBy, keywords) =>
      [Ingest(Tag("select_STATEMENT")), VisitList(selectList), Visit(tables), Visit(where), VisitList(groupByList),
       Visit(having), VisitList(orderBy), Visit(keywords)]
    case ArgumentsOf(call, arguments) => [Ingest(Tag(call)), Visit(arguments)]
    case NullIf(left, right) => [Ingest(Tag("null_if_STATEMENT")), Visit(left), Visit(right)]
    case FunctionCall(name, extrinsic, parameters) =>
      [Ingest(Tag("function_call_STATEMENT")), Ingest(Number(cfg.emulation)),
       Visit(name), Visit(extrinsic), Visit(parameters)]
    case Aggregate(kind, parameter) =>
      [Ingest(Tag("aggregate_function_STATEMENT")), Ingest(Tag(kind)), Visit(parameter)]
    case Join(items) => JoinSteps(items)
    case ValueOf(v) => ValueSteps(cfg, v)
    case ColumnAlias(column, tableAlias) => [Ingest(Tag("column_alias_STATEMENT")), Visit(column), Visit(tableAlias)]
    case ColumnList(values) => ListSteps(values, [Ingest(Tag("column_list_STATEMENT"))])
    case ColumnListAlias(aliases) => if aliases == [] then [] else AliasSteps(aliases[0])
    case CreateView(name, source) => [Ingest(Tag("create_view_STATEMENT")), Visit(name), VisitView(source)]
    case CreateTable(name, items, source, delim, aim) =>
      [Ingest(Tag("create_table_STATEMENT")), Visit(name)] + ColumnSteps(cfg, items, true)
      + [Visit(source), Visit(delim), Visit(aim)]
    case TableValue(items, rows) =>
      [Ingest(Tag("table_value_STATEMENT"))] + ColumnSteps(cfg, items, false) + ListSteps(rows, [])
    case CreateFunction(name, parameterTypes) => [Visit(name), Visit(parameterTypes)]
    case DropFunction(name, parameterTypes) => [Visit(name), Visit(parameterTypes)]
    case ParameterTypes(types) => TypeSteps(types)
    case TableAlias(table, alias, uniqueId) =>
      [Ingest(Tag("table_alias_STATEMENT")), Visit(table), Visit(alias), Ingest(Number(uniqueId))]
    case Binary(groupBy, operation, left, right) =>
      [Ingest(Tag("binary_STATEMENT"))] + NonZero(groupBy) + [Ingest(Tag(operation)), Visit(left), Visit(right)]
    case SetOperation(operation, left, right) =>
      [Ingest(Tag("set_operation_STATEMENT")), Ingest(Tag(operation)), Visit(left), Visit(right)]
    case Unary(groupBy, operation, operand) =>
      [Ingest(Tag("unary_STATEMENT"))] + NonZero(groupBy) + [Ingest(Tag(operation)), Visit(operand)]
    case Array(argument) => [Ingest(Tag("array_STATEMENT")), Visit(argument)]
    case Keyword(items) => KeywordSteps(items)
    case Column(name, dataType, table, keywords, _) =>
      [Ingest(Tag("column_STATEMENT")), Visit(name), Ingest(Tag(dataType)), Visit(table), Visit(keywords)]
    case Constraint(name, definition) => [Ingest(Tag("constraint_STATEMENT")), Visit(name), Visit(definition)]
    case Unsupported => [Reject]
  }

  /** The kinds that are not walked again when met again. */
  predicate Guarded(s: Stmt) {
    s.CreateView? || s.CreateTable? || s.TableValue? || s.Keyword? || s.Column? || s.TableAlias?
  }

  function RevisitSteps(s: Stmt): seq<Step> {
    match s
    case CreateView(name, _) => [Ingest(Tag("create_view_STATEMENT")), Visit(name)]
    case CreateTable(name, _, _, _, _) => [Ingest(Tag("create_table_STATEMENT")), Visit(name)]
    case TableValue(_, _) => [Ingest(Tag("table_value_STATEMENT"))]
    case Column(_, _, _, _, number) => [Ingest(Tag("column_STATEMENT")), Ingest(Number(number))]
    case TableAlias(_, _, uniqueId) => [Ingest(Tag("table_alias_STATEMENT")), Ingest(Number(uniqueId))]
    case _ => []
  }

  /** The steps when a statement is met as a list of columns. */
  function WholeSteps(s: Stmt): seq<Step> {
    if s.ColumnListAlias? then AliasesSteps(s.aliases) else []
  }
}
