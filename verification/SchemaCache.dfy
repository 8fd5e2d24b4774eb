/**
 The schema: definitions of tables, views and functions in the database, in fragments, and the cache
 of them that each process keeps.  Other processes change the database between any two lookups.
 */
module SchemaCache {
  import opened Common

  const MAX_DEFINITION_FRAGMENT_SIZE := 32768

  datatype Key = Relation(name: string) | Function(name: string, hash: string)

  /** A cell of a stored definition, which holds its kind, object identifier and name. */
  datatype Cell = Kind(isView: bool) | Oid(oid: nat) | Named(key: Key) | Other(content: int)

  /** A definition in memory.  That of a view has no object identifier of its own. */
  datatype Def = Def(isView: bool, oid: nat, key: Key, body: seq<Cell>)

  /** The nodes of one definition in the database. */
  datatype Entry = Entry(isView: bool, oid: nat, length: nat, fragments: seq<seq<Cell>>)

  /** `issued` tells, for every object identifier given out so far, what it was given to. */
  datatype Database = Database(nextOid: nat, entries: map<Key, Entry>, issued: map<nat, Def>)

  function Encode(d: Def): (cells: seq<Cell>) {
    [Kind(d.isView), Oid(d.oid), Named(d.key)] + d.body
  }

  function Decode(cells: seq<Cell>): (d: Option<Def>)
    ensures d.Some? ==> Encode(d.value) == cells
  {
    if |cells| >= 3 && cells[0].Kind? && cells[1].Oid? && cells[2].Named?
    then Some(Def(cells[0].isView, cells[1].oid, cells[2].key, cells[3..])) else None
  }

  lemma DecodeEncode(d: Def)
    ensures Decode(Encode(d)) == Some(d)
  {
    assert Encode(d)[3..] == d.body;
  }

  // ----- fragments

  function Concat(fragments: seq<seq<Cell>>): seq<Cell> {
    if fragments == [] then [] else Concat(fragments[..|fragments| - 1]) + fragments[|fragments| - 1]
  }

  lemma {:induction false} ConcatPrefix(fragments: seq<seq<Cell>>, i: nat)
    requires i <= |fragments|
    ensures Concat(fragments[..i]) <= Concat(fragments)
    decreases |fragments| - i
  {
    if i == |fragments| {
      assert fragments[..i] == fragments;
    } else {
      ConcatPrefix(fragments, i + 1);
      assert fragments[..i + 1][..i] == fragments[..i];
    }
  }

  /** Cuts a definition into fragments: all of them full but the last, which is not empty. */
  method StoreDefinition(cells: seq<Cell>) returns (fragments: seq<seq<Cell>>)
    ensures Concat(fragments) == cells
    ensures forall i :: 0 <= i < |fragments| ==> 0 < |fragments[i]| <= MAX_DEFINITION_FRAGMENT_SIZE
    ensures forall i :: 0 <= i < |fragments| - 1 ==> |fragments[i]| == MAX_DEFINITION_FRAGMENT_SIZE
  {
    fragments := [];
    var current := 0;
    while current < |cells|
      invariant Concat(fragments) == cells[..if current <= |cells| then current else |cells|]
      invariant current == |fragments| * MAX_DEFINITION_FRAGMENT_SIZE
      invariant forall i :: 0 <= i < |fragments| ==> 0 < |fragments[i]| <= MAX_DEFINITION_FRAGMENT_SIZE
      invariant forall i :: 0 <= i < |fragments| && (i < |fragments| - 1 || current <= |cells|)
                  ==> |fragments[i]| == MAX_DEFINITION_FRAGMENT_SIZE
    {
      var left := |cells| - current;
      var used := if MAX_DEFINITION_FRAGMENT_SIZE < left then MAX_DEFINITION_FRAGMENT_SIZE else left;
      var longer := fragments + [cells[current..current + used]];
      assert longer[..|longer| - 1] == fragments;
      assert cells[..current] + cells[current..current + used] == cells[..current + used];
      fragments := longer;
      current := current + MAX_DEFINITION_FRAGMENT_SIZE;
    }
  }

  /** Reads fragments until the length of the definition is reached. */
  method ReadDefinition(e: Entry) returns (cells: seq<Cell>)
    requires |Concat(e.fragments)| == e.length
    ensures cells == Concat(e.fragments)
  {
    cells := [];
    var i := 0;
    while i < |e.fragments|
      invariant i <= |e.fragments| && cells == Concat(e.fragments[..i])
    {
      assert e.fragments[..i + 1][..i] == e.fragments[..i];
      cells := cells + e.fragments[i];
      i := i + 1;
      if e.length == |cells| {
        break;
      }
    }
    ConcatPrefix(e.fragments, i);
    assert i == |e.fragments| ==> e.fragments[..i] == e.fragments;
  }

  // ----- the database

  function DefOf(e: Entry): Option<Def> {
    Decode(Concat(e.fragments))
  }

  /** What is in the database under `k` is what its object identifier was given to. */
  ghost predicate EntryInv(db: Database, k: Key) {
    k in db.entries ==>
      var e := db.entries[k];
      && e.oid in db.issued && |Concat(e.fragments)| == e.length && DefOf(e) == Some(db.issued[e.oid])
      && db.issued[e.oid].key == k && db.issued[e.oid].isView == e.isView
      && (if e.isView then k.Relation? else db.issued[e.oid].oid == e.oid)
  }

  ghost predicate DbInv(db: Database) {
    && (forall o <- db.issued :: o < db.nextOid)
    && forall k {:trigger EntryInv(db, k)} :: EntryInv(db, k)
  }

  /** The definitions that the database holds. */
  ghost predicate Holds(db: Database, defs: map<Key, Def>) {
    && db.entries.Keys == defs.Keys
    && forall k <- db.entries :: DefOf(db.entries[k]) == Some(defs[k])
  }

  function Fresh(oid: nat, k: Key, isView: bool, body: seq<Cell>): Def {
    Def(isView, if isView then 0 else oid, k, body)
  }

  /** CREATE, after a DROP if needed, with a new object identifier. */
  method Create(db: Database, k: Key, isView: bool, body: seq<Cell>, ghost defs: map<Key, Def>) returns (db': Database)
    requires DbInv(db) && Holds(db, defs) && (isView ==> k.Relation?)
    ensures DbInv(db') && Holds(db', defs[k := Fresh(db.nextOid, k, isView, body)])
    ensures db'.nextOid == db.nextOid + 1 && db'.issued == db.issued[db.nextOid := Fresh(db.nextOid, k, isView, body)]
  {
    var d := Fresh(db.nextOid, k, isView, body);
    var fragments := StoreDefinition(Encode(d));
    DecodeEncode(d);
    var e := Entry(isView, db.nextOid, |Encode(d)|, fragments);
    db' := Database(db.nextOid + 1, db.entries[k := e], db.issued[db.nextOid := d]);
    forall j ensures EntryInv(db', j) {
      assert EntryInv(db, j);
    }
  }

  /** DROP. */
  method Drop(db: Database, k: Key, ghost defs: map<Key, Def>) returns (db': Database)
    requires DbInv(db) && Holds(db, defs)
    ensures DbInv(db') && Holds(db', defs - {k})
    ensures db'.nextOid == db.nextOid && db'.issued == db.issued
  {
    db' := db.(entries := db.entries - {k});
    forall j ensures EntryInv(db', j) {
      assert EntryInv(db, j);
    }
  }

  // ----- lookups without a cache

  /** What follows the first dot of a name. */
  function AfterDot(name: string): (rest: Option<string>)
    ensures rest.Some? ==> |rest.value| < |name|
  {
    if name == "" then None else if name[0] == '.' then Some(name[1..]) else AfterDot(name[1..])
  }

  /** The first dot of a name is at `i`. */
  predicate FirstDot(name: string, i: nat) {
    i < |name| && name[i] == '.' && '.' !in name[..i]
  }

  lemma {:induction false} SplitAtDot(name: string)
    ensures AfterDot(name) == None <==> '.' !in name
    ensures forall i: nat :: FirstDot(name, i) ==> AfterDot(name) == Some(name[i + 1..])
  {
    if name != "" {
      SplitAtDot(name[1..]);
      forall i: nat | FirstDot(name, i) ensures AfterDot(name) == Some(name[i + 1..]) {
        if i > 0 {
          assert name[..i][0] == name[0] && name[1..][..i - 1] == name[..i][1..];
          assert FirstDot(name[1..], i - 1) && name[1..][i..] == name[i + 1..];
        }
      }
    }
  }

  /** A load from the database: the name as it is or, if there is none, without its schema. */
  function Direct(defs: map<Key, Def>, name: string): Option<Def>
    decreases |name|
  {
    if Relation(name) in defs then Some(defs[Relation(name)])
    else match AfterDot(name) case None => None case Some(rest) => Direct(defs, rest)
  }

  /** A name with a schema that is no relation as it is, is loaded without the schema. */
  lemma DirectWithoutSchema(defs: map<Key, Def>, schema: string, name: string)
    requires '.' !in schema && Relation(schema + "." + name) !in defs
    ensures Direct(defs, schema + "." + name) == Direct(defs, name)
  {
    var whole := schema + "." + name;
    assert whole[..|schema|] == schema && whole[|schema| + 1..] == name && FirstDot(whole, |schema|);
    SplitAtDot(whole);
  }

  /** A name without a dot that is no relation is not found. */
  lemma DirectPlain(defs: map<Key, Def>, name: string)
    requires '.' !in name
    ensures Direct(defs, name) == if Relation(name) in defs then Some(defs[Relation(name)]) else None
  {
    SplitAtDot(name);
  }

  // ----- the cache

  type Tables = map<string, Def>
  type Functions = map<(string, string), Def>

  ghost predicate TableInv(db: Database, tables: Tables, name: string) {
    name in tables ==>
      var d := tables[name];
      !d.isView && d.key == Relation(name) && d.oid in db.issued && db.issued[d.oid] == d
  }

  ghost predicate FunctionInv(db: Database, functions: Functions, name: string, hash: string) {
    (name, hash) in functions ==>
      var d := functions[(name, hash)];
      !d.isView && d.key == Function(name, hash) && d.oid in db.issued && db.issued[d.oid] == d
  }

  /** Whatever is cached was once in the database; views only with their name. */
  ghost predicate CacheInv(db: Database, tables: Tables, views: Tables, functions: Functions) {
    && (forall n {:trigger TableInv(db, tables, n)} :: TableInv(db, tables, n))
    && (forall n <- views :: views[n].isView && views[n].key == Relation(n))
    && (forall n, h {:trigger FunctionInv(db, functions, n, h)} :: FunctionInv(db, functions, n, h))
  }

  /** The views cached are those of the database. */
  ghost predicate ViewsCurrent(defs: map<Key, Def>, views: Tables) {
    forall n <- views :: Relation(n) in defs && defs[Relation(n)] == views[n]
  }

  /** Whatever is cached now was cached before or is what the database has. */
  ghost predicate Refreshed(defs: map<Key, Def>, before: Tables, after: Tables) {
    forall n <- after :: (n in before && after[n] == before[n]) || (Relation(n) in defs
        && after[n] == defs[Relation(n)])
  }

  predicate Hit(db: Database, k: Key, d: Def) {
    k in db.entries && db.entries[k].oid == d.oid
  }

  /** An object identifier that still matches is that of the same definition. */
  lemma HitIsCurrent(db: Database, defs: map<Key, Def>, k: Key, d: Def)
    requires DbInv(db) && Holds(db, defs) && d.oid in db.issued && db.issued[d.oid] == d && Hit(db, k, d)
    ensures defs[k] == d
  {
    assert EntryInv(db, k);
  }

  /** What a lookup gives: a cached table if it is current, a cached view, or what the database has. */
  function Lookup(db: Database, defs: map<Key, Def>, tables: Tables, views: Tables, name: string): Option<Def>
    decreases |name|
  {
    if name in tables && Hit(db, Relation(name), tables[name]) then Some(tables[name])
    else if name in views then Some(views[name])
    else if Relation(name) in defs then Some(defs[Relation(name)])
    else match AfterDot(name) case None => None case Some(rest) => Lookup(db, defs, tables, views, rest)
  }

  predicate IsView(r: Option<Def>) {
    r.Some? && r.value.isView
  }

  /** A lookup finds a view of an earlier time: it is reached before anything in the database is, and
      the database has something else, or nothing, under its name. */
  predicate Stale(db: Database, defs: map<Key, Def>, tables: Tables, views: Tables, name: string)
    decreases |name|
  {
    if name in tables && Hit(db, Relation(name), tables[name]) then false
    else if name in views then Relation(name) !in defs || defs[Relation(name)] != views[name]
    else if Relation(name) in defs then false
    else match AfterDot(name) case None => false case Some(rest) => Stale(db, defs, tables, views, rest)
  }

  lemma {:induction false} CurrentIsNotStale(db: Database, defs: map<Key, Def>, tables: Tables, views: Tables,
      name: string)
    requires ViewsCurrent(defs, views)
    ensures !Stale(db, defs, tables, views, name)
    decreases |name|
  {
    var rest := AfterDot(name);
    if rest.Some? {
      CurrentIsNotStale(db, defs, tables, views, rest.value);
    }
  }

  lemma {:induction false} LookupFrame(db: Database, defs: map<Key, Def>, tables: Tables, views: Tables, name: string,
      longer: string)
    requires |name| < |longer|
    ensures Lookup(db, defs, tables - {longer}, views, name) == Lookup(db, defs, tables, views, name)
    decreases |name|
  {
    var rest := AfterDot(name);
    if rest.Some? {
      LookupFrame(db, defs, tables, views, rest.value, longer);
    }
  }

  lemma {:induction false} DirectKey(defs: map<Key, Def>, name: string)
    requires forall k <- defs :: defs[k].key == k
    ensures Direct(defs, name).Some? ==>
      Direct(defs, name).value.key.Relation? && |Direct(defs, name).value.key.name| <= |name|
    decreases |name|
  {
    var rest := AfterDot(name);
    if Relation(name) !in defs && rest.Some? {
      DirectKey(defs, rest.value);
    }
  }

  lemma HeldKeys(db: Database, defs: map<Key, Def>)
    requires DbInv(db) && Holds(db, defs)
    ensures forall k <- defs :: defs[k].key == k
  {
    forall k <- defs ensures defs[k].key == k {
      assert EntryInv(db, k);
    }
  }

  /** A lookup is a direct load, except for exactly one case: a view cached earlier in the query is
      reached and the database has since lost or replaced it. */
  lemma {:induction false} LookupIsDirect(db: Database, defs: map<Key, Def>, tables: Tables, views: Tables,
      functions: Functions, name: string)
    requires DbInv(db) && Holds(db, defs) && CacheInv(db, tables, views, functions)
    ensures Lookup(db, defs, tables, views, name) == Direct(defs, name) <==> !Stale(db, defs, tables, views, name)
    ensures Stale(db, defs, tables, views, name) ==> IsView(Lookup(db, defs, tables, views, name))
    decreases |name|
  {
    var rest := AfterDot(name);
    if name in tables && Hit(db, Relation(name), tables[name]) {
      assert TableInv(db, tables, name);
      HitIsCurrent(db, defs, Relation(name), tables[name]);
    } else if name in views {
      HeldKeys(db, defs);
      if rest.Some? {
        DirectKey(defs, rest.value);
      }
    } else if Relation(name) !in defs && rest.Some? {
      LookupIsDirect(db, defs, tables, views, functions, rest.value);
    }
  }

  ghost predicate Cached(tables: Tables, views: Tables, d: Def) {
    && d.key.Relation?
    && (if d.isView then d.key.name in views && views[d.key.name] == d
      else d.key.name in tables && tables[d.key.name] == d)
  }

  class LocalCache {
    var tables: Tables
    var views: Tables
    var functions: Functions

    ghost predicate Valid(db: Database)
      reads this
    {
      CacheInv(db, tables, views, functions)
    }

    constructor ()
      ensures tables == map[] && views == map[] && functions == map[]
    {
      tables, views, functions := map[], map[], map[];
    }

    /** Drops a table or function from the cache. */
    method DropSchema(k: Key, ghost db: Database)
      requires Valid(db)
      modifies this
      ensures Valid(db) && views == old(views)
      ensures tables == if k.Relation? then old(tables) - {k.name} else old(tables)
      ensures functions == if k.Function? then old(functions) - {(k.name, k.hash)} else old(functions)
    {
      match k
      case Relation(name) =>
        tables := tables - {name};
        forall n ensures TableInv(db, tables, n) {
          assert TableInv(db, old(tables), n);
        }
      case Function(name, hash) =>
        functions := functions - {(name, hash)};
        forall n, h ensures FunctionInv(db, functions, n, h) {
          assert FunctionInv(db, old(functions), n, h);
        }
    }

    /** Forgets the views, at the start of every query. */
    method InitViewCache(ghost db: Database)
      requires Valid(db)
      modifies this
      ensures Valid(db) && tables == old(tables) && views == map[] && functions == old(functions)
    {
      views := map[];
    }

    /** A function, as it is in the database now. */
    method FindFunction(db: Database, name: string, hash: string, ghost defs: map<Key, Def>) returns (r: Option<Def>)
      requires DbInv(db) && Holds(db, defs) && Valid(db)
      modifies this
      ensures Valid(db) && tables == old(tables) && views == old(views)
      ensures r == if Function(name, hash) in defs then Some(defs[Function(name, hash)]) else None
      ensures functions == if r.Some? then old(functions)[(name, hash) := r.value] else old(functions) - {(name, hash)}
    {
      var k := Function(name, hash);
      assert FunctionInv(db, functions, name, hash);
      if (name, hash) in functions {
        var d := functions[(name, hash)];
        if Hit(db, k, d) {
          HitIsCurrent(db, defs, k, d);
          return Some(d);
        }
        DropSchema(k, db);
      }
      if k !in db.entries {
        return None;
      }
      assert EntryInv(db, k);
      var cells := ReadDefinition(db.entries[k]);
      r := Decode(cells);
      functions := functions[(name, hash) := r.value];
      forall n, h ensures FunctionInv(db, functions, n, h) {
        assert FunctionInv(db, old(functions), n, h);
      }
    }

    /** A table or view under this name in the cache; a table only if it is still current. */
    method FindInCache(db: Database, name: string, inTables: bool, ghost defs: map<Key, Def>) returns (r: Option<Def>)
      requires DbInv(db) && Holds(db, defs) && Valid(db)
      modifies this
      ensures Valid(db) && views == old(views) && functions == old(functions)
      ensures inTables ==> (r.Some? <==> name in old(tables) && Hit(db, Relation(name), old(tables)[name]))
      ensures inTables && r.Some? ==>
        r.value == old(tables)[name] && Relation(name) in defs && r.value == defs[Relation(name)]
      ensures tables == if inTables && r.None? then old(tables) - {name} else old(tables)
      ensures !inTables ==> r == if name in views then Some(views[name]) else None
    {
      if !inTables {
        return if name in views then Some(views[name]) else None;
      }
      assert TableInv(db, tables, name);
      if name !in tables {
        assert tables == tables - {name};
        return None;
      }
      var d := tables[name];
      if Hit(db, Relation(name), d) {
        HitIsCurrent(db, defs, Relation(name), d);
        return Some(d);
      }
      DropSchema(Relation(name), db);
      r := None;
    }

    /** The name without its schema. */
    method StripSchema(name: string) returns (rest: Option<string>)
      ensures rest == None <==> '.' !in name
      ensures forall i: nat :: FirstDot(name, i) ==> rest == Some(name[i + 1..])
      ensures rest == AfterDot(name)
    {
      SplitAtDot(name);
      var c := 0;
      while c < |name| && name[c] != '.'
        invariant c <= |name| && AfterDot(name) == AfterDot(name[c..])
      {
        c := c + 1;
      }
      return if c < |name| then Some(name[c + 1..]) else None;
    }

    /** Loads a definition that is in the database, and notes it in the cache. */
    method LoadRelation(db: Database, name: string, ghost defs: map<Key, Def>) returns (r: Option<Def>)
      requires DbInv(db) && Holds(db, defs) && Valid(db) && Relation(name) in db.entries
      modifies this
      ensures Valid(db) && functions == old(functions)
      ensures Relation(name) in defs && r == Some(defs[Relation(name)])
      ensures tables == if r.value.isView then old(tables) else old(tables)[name := r.value]
      ensures views == if r.value.isView then old(views)[name := r.value] else old(views)
    {
      var e := db.entries[Relation(name)];
      assert EntryInv(db, Relation(name));
      var cells := ReadDefinition(e);
      r := Decode(cells);
      if e.isView {
        views := views[name := r.value];
      } else {
        tables := tables[name := r.value];
        forall n ensures TableInv(db, tables, n) {
          assert TableInv(db, old(tables), n);
        }
      }
    }

    /** A table or view, which is then in the cache. */
    method FindViewOrTable(db: Database, name: string, ghost defs: map<Key, Def>) returns (r: Option<Def>)
      requires DbInv(db) && Holds(db, defs) && Valid(db)
      modifies this
      ensures Valid(db) && functions == old(functions)
      ensures r == Lookup(db, defs, old(tables), old(views), name)
      ensures r.Some? ==> Cached(tables, views, r.value)
      ensures Refreshed(defs, old(tables), tables) && Refreshed(defs, old(views), views)
          && old(views).Keys <= views.Keys
      decreases |name|
    {
      assert TableInv(db, tables, name);
      r := FindInCache(db, name, true, defs);
      if r.Some? {
        return;
      }
      r := FindInCache(db, name, false, defs);
      if r.Some? {
        return;
      }
      if Relation(name) in db.entries {
        HeldKeys(db, defs);
        r := LoadRelation(db, name, defs);
      } else {
        var rest := StripSchema(name);
        if rest.Some? {
          LookupFrame(db, defs, old(tables), views, rest.value, name);
          r := FindViewOrTable(db, rest.value, defs);
        }
      }
    }
  }

  // ----- histories

  /** What can happen: changes of the schema by any process, and what this process does. */
  datatype Event =
    | CreateTable(name: string, body: seq<Cell>) | CreateView(name: string, body: seq<Cell>)
    | CreateFunction(name: string, hash: string, body: seq<Cell>)
    | DropRelation(name: string) | DropFunction(name: string, hash: string)
    | NewQuery | Evict(key: Key) | FindRelation(name: string) | FindFunctionOf(name: string, hash: string)

  /** The schema without a cache and without fragments. */
  datatype Schema = Schema(nextOid: nat, defs: map<Key, Def>)

  function Added(s: Schema, k: Key, isView: bool, body: seq<Cell>): Schema {
    Schema(s.nextOid + 1, s.defs[k := Fresh(s.nextOid, k, isView, body)])
  }

  function Changed(s: Schema, e: Event): Schema {
    match e
    case CreateTable(n, body) => Added(s, Relation(n), false, body)
    case CreateView(n, body) => Added(s, Relation(n), true, body)
    case CreateFunction(n, h, body) => Added(s, Function(n, h), false, body)
    case DropRelation(n) => s.(defs := s.defs - {Relation(n)})
    case DropFunction(n, h) => s.(defs := s.defs - {Function(n, h)})
    case _ => s
  }

  function After(s: Schema, history: seq<Event>): Schema {
    if history == [] then s else Changed(After(s, history[..|history| - 1]), history[|history| - 1])
  }

  /** The schema has not changed since the last query began. */
  predicate Calm(history: seq<Event>) {
    history == [] ||
    match history[|history| - 1]
    case NewQuery => true
    case Evict(_) => Calm(history[..|history| - 1])
    case FindRelation(_) => Calm(history[..|history| - 1])
    case FindFunctionOf(_, _) => Calm(history[..|history| - 1])
    case _ => false
  }

  ghost predicate FoundAsDirect(s: Schema, history: seq<Event>, i: nat, r: Option<Def>) {
    i < |history| ==>
      var defs := After(s, history[..i]).defs;
      match history[i]
      case FindFunctionOf(n, h) => r == if Function(n, h) in defs then Some(defs[Function(n, h)]) else None
      case FindRelation(n) => !IsView(r) || Calm(history[..i]) ==> r == Direct(defs, n)
      case _ => true
  }

  /** The cache and the database after a history. */
  ghost predicate Sound(s: Schema, history: seq<Event>, db: Database, tables: Tables, views: Tables,
      functions: Functions) {
    var now := After(s, history);
    && DbInv(db) && Holds(db, now.defs) && db.nextOid == now.nextOid && CacheInv(db, tables, views, functions)
    && (Calm(history) ==> ViewsCurrent(now.defs, views))
  }

  /** No object identifier is given to anything else later. */
  ghost predicate Remembers(db: Database, db': Database) {
    forall o <- db.issued :: o in db'.issued && db'.issued[o] == db.issued[o]
  }

  lemma CacheSurvives(db: Database, db': Database, tables: Tables, views: Tables, functions: Functions)
    requires DbInv(db) && CacheInv(db, tables, views, functions)
    requires Remembers(db, db')
    ensures CacheInv(db', tables, views, functions)
  {
    forall n ensures TableInv(db', tables, n) {
      assert TableInv(db, tables, n);
    }
    forall n, h ensures FunctionInv(db', functions, n, h) {
      assert FunctionInv(db, functions, n, h);
    }
  }

  /** A change of the schema, by this process or another one. */
  method ChangeSchema(s: Schema, db: Database, e: Event) returns (db': Database)
    requires DbInv(db) && Holds(db, s.defs) && db.nextOid == s.nextOid
    ensures DbInv(db') && Holds(db', Changed(s, e).defs) && db'.nextOid == Changed(s, e).nextOid
    ensures Remembers(db, db')
  {
    match e
    case CreateTable(n, body) => db' := Create(db, Relation(n), false, body, s.defs);
    case CreateView(n, body) => db' := Create(db, Relation(n), true, body, s.defs);
    case CreateFunction(n, h, body) => db' := Create(db, Function(n, h), false, body, s.defs);
    case DropRelation(n) => db' := Drop(db, Relation(n), s.defs);
    case DropFunction(n, h) => db' := Drop(db, Function(n, h), s.defs);
    case _ => db' := db;
  }

  /** What one event does in this process. */
  method React(cache: LocalCache, db: Database, e: Event, ghost defs: map<Key, Def>) returns (r: Option<Def>)
    requires DbInv(db) && Holds(db, defs) && cache.Valid(db)
    modifies cache
    ensures cache.Valid(db)
    ensures e.FindFunctionOf? ==>
              r == if Function(e.name, e.hash) in defs then Some(defs[Function(e.name, e.hash)]) else None
    ensures e.FindRelation? && (!IsView(r) || ViewsCurrent(defs, old(cache.views))) ==> r == Direct(defs, e.name)
    ensures e.NewQuery? || ViewsCurrent(defs, old(cache.views)) ==> ViewsCurrent(defs, cache.views)
  {
    r := None;
    match e
    case NewQuery => cache.InitViewCache(db);
    case Evict(k) => cache.DropSchema(k, db);
    case FindRelation(n) =>
      if ViewsCurrent(defs, cache.views) {
        CurrentIsNotStale(db, defs, cache.tables, cache.views, n);
      }
      LookupIsDirect(db, defs, cache.tables, cache.views, cache.functions, n);
      r := cache.FindViewOrTable(db, n, defs);
    case FindFunctionOf(n, h) => r := cache.FindFunction(db, n, h, defs);
    case _ =>
  }

  /** In every history, each lookup of a function gives what the database has at that time, and so
      does each lookup that finds a table or nothing; one that finds a view does so if the schema has
      not changed since the query began. */
  method Replay(s: Schema, db: Database, history: seq<Event>) returns (results: seq<Option<Def>>)
    requires DbInv(db) && Holds(db, s.defs) && db.nextOid == s.nextOid
    ensures |results| == |history|
    ensures forall i: nat :: i < |history| ==> FoundAsDirect(s, history, i, results[i])
  {
    hide Holds, Direct, Remembers;
    var cache := new LocalCache();
    var now, current := db, s;
    results := [];
    while |results| < |history|
      invariant |results| <= |history| && current == After(s, history[..|results|])
      invariant Sound(s, history[..|results|], now, cache.tables, cache.views, cache.functions)
      invariant forall i: nat :: i < |results| ==> FoundAsDirect(s, history, i, results[i])
    {
      var i := |results|;
      var e := history[i];
      assert history[..i + 1][..i] == history[..i];
      var r := React(cache, now, e, current.defs);
      var next := ChangeSchema(current, now, e);
      CacheSurvives(now, next, cache.tables, cache.views, cache.functions);
      now, current := next, Changed(current, e);
      results := results + [r];
    }
    assert history[..|history|] == history;
  }

  /** Within one query, a view that another process drops is still found, and so is the old one if
      that process replaces it by a table. */
  method ViewOutlivesDrop(s: Schema, db: Database, name: string, body: seq<Cell>,
      replace: bool) returns (r: Option<Def>, later: Schema)
    requires DbInv(db) && Holds(db, s.defs) && db.nextOid == s.nextOid
    ensures later == After(s, [CreateView(name, body), if replace then CreateTable(name, body) else DropRelation(name)])
    ensures r == Some(Fresh(s.nextOid, Relation(name), true, body)) && r != Direct(later.defs, name)
  {
    hide Direct, DbInv, Holds;
    var cache := new LocalCache();
    var create := CreateView(name, body);
    var change := if replace then CreateTable(name, body) else DropRelation(name);
    var db1 := ChangeSchema(s, db, create);
    var s1 := Changed(s, create);
    assert After(s, [create, change]) == Changed(After(s, [create]), change) by {
      assert [create, change][..1] == [create];
    }
    assert After(s, [create]) == s1 by {
      assert [create][..0] == [];
    }
    r := cache.FindViewOrTable(db1, name, s1.defs);
    assert TableInv(db1, cache.tables, name);
    var db2 := ChangeSchema(s1, db1, change);
    later := Changed(s1, change);
    CacheSurvives(db1, db2, cache.tables, cache.views, cache.functions);
    LookupIsDirect(db2, later.defs, cache.tables, cache.views, cache.functions, name);
    r := cache.FindViewOrTable(db2, name, later.defs);
  }
}
