# A model of YDBOcto in Dafny

This project models the parts of YDBOcto, the SQL engine on top of YottaDB, whose correctness is hardest to see from the
code, and proves what they promise, for all inputs, all reachable states or all histories.

* **Stored definitions** (`ParseGraph`, `Blob`, `Walk`, `CompressInv`, `Compress`, `Decompress`, `RoundTrip`). The parse tree
  of a table, view or function is a cyclic graph. It is written as one position-independent blob by two passes over the
  graph, and turned back into a graph, at any address, by one pass over the blob. The two passes agree item by item, and the
  graph that comes back is bisimilar to the one that was stored.
* **WHERE to ON** (`Joins`, `Pushdown`). Conjuncts of a WHERE clause move into ON clauses. The result of the query, as a
  sequence of rows under three-valued logic, stays the same.
* **Startup checks** (`Upgrade`, `StartupRoutes`, `StartupRuns`). Any number of processes check three format markers and upgrade what is out
  of date, each call can fail, and a process can end at any time. Safety over all runs, and exactly when the promise that a
  process that comes through finds all markers current is broken.
* **Schema cache** (`SchemaCache`). Definitions in fragments in the database, a cache in each process, schema changes by
  others in between. Lookups agree with the database after every history, with one exception whose condition is given.
* **Plan names** (`QueryHash`, `PlanHash`, `HashTells`, `HashMembers`). What a query feeds into the hash that names its plan:
  ends on cyclic graphs, keeps the caller's status, does not depend on literals, visits every child, and tells statements with
  another hashed member apart.
* **Overloads** (`Overloads`), **result rows** (`ResultRow`), **rings** (`Rings`), **memory chunks** (`Arena`), **copies of
  statements** (`StatementCopy`) and **names of constraints** (`ConstraintNames`).

`dafny verify dfyconfig.toml` checks everything.

## What does not hold

Each of these is stated in the model together with its exact condition or a reachable state.

* A process can pass all startup checks although the seed marker is out of date. This is possible if and only if, at the start,
  the binary marker is absent or not newer than this build's and the seed marker is absent or older than 7
  (`StartupRuns.MissExactly`). The cause is the return after a failed `mkstemp` or `fdopen` in the middle of the upgrade of the
  definitions, which returns the status of the call before it, which is success. The plan and binary markers are current for
  every process that passes (`Upgrade.StartupHolds`).
* A process that finds, under the lock, that another one has fixed a marker returns success and keeps the lock. This is possible
  if and only if, at the start, some marker is out of date and the binary marker is not that of a later build
  (`StartupRuns.LeakExactly`); while it lives no other process gets to any upgrade (`Upgrade.LeakBlocks`).
* A seed that is current can be loaded again: the flag for a partial load outlives the second reading of the marker. This is
  possible if and only if the database is empty at the start (`StartupRuns.ReloadExactly`).
* The comment in `move_where_clause_to_on_clause.c` says that a conjunct that was moved must stay in the WHERE clause if there
  is an outer join. With LEFT joins as the only outer joins it need not (`Pushdown.KeepingIsRedundant`).
* A failure of the hash does not always reach its caller. The status is abnormal on return if and only if a statement that
  cannot be hashed was met outside the bodies of views (`PlanHash.VisitStatus`). If such a statement can be reached only through
  the body of a view the caller learns nothing (`PlanHash.ViewHidesFailure`, and `PlanHash.HiddenFailureHappens` for a view of
  every name). Every statement of a query reports its failure if and only if the body of every view in it can be hashed, where the
  names of views, which are values, can (`PlanHash.ReportsExactly`).
* Within a query, a cached view outlives its DROP and its replacement by a table (`SchemaCache.ViewOutlivesDrop`). Queries are
  safe from this while they hold the lock that keeps schema changes out; the parse that the prompt makes before it takes that
  lock (`src/octo.c:102-114`) is not.
* A statement does not match its own copy exactly if an element of a copied column list has keywords, which the copy takes
  from the new element instead of the old one (`StatementCopy.CopyMatches`).
* A result row is shown only up to the first zero byte in one of its columns (`ResultRow.ShowsAll`).

## Model

| member | source | states |
|---|---|---|
| RoundTrip.StoreAndLoad | src/compress_statement.c:32-44 | for every well-formed graph, every old content of the offset marks and every pair of addresses: what is loaded is bisimilar to the graph, shared records are copied one to one, table aliases get different new identifiers, the maximum identifiers of joins and the delimiters of columns are rebuilt, as many cells are written as were counted, nothing is stored exactly if the statement counts as NULL, and the marks are such that the graph can be stored again |
| RoundTrip.DecompressStatement | src/decompress_statement.c:28-70 | every complete blob, loaded at any address, becomes memory that is bisimilar to the graph it was made from, with identifiers, maximum identifiers and delimiters rebuilt |
| RoundTrip.LoadedScalar | src/compress_statement.c:408-470 | every scalar of every loaded record is that of its source; only a view loses the parameter index of a literal and those of the size and scale of a cast, which are 0 |
| RoundTrip.LoadedStmt | src/decompress_statement.c:42-70 | a loaded statement has the type and the words of its source and, in place or by a pointer, its payload |
| RoundTrip.LoadedField | src/decompress_statement.c:18-24 | a loaded pointer is NULL exactly if its source is NULL or leads to a statement whose own pointer is NULL; else it leads to the loaded text or statement |
| RoundTrip.SharedOnce | src/compress_statement.c:135-160 | statements that point to one table, table alias, column alias, column or element of a column list point to one loaded record |
| RoundTrip.ReachedBisimilar | src/decompress_statement.c:42-505 | once no call is at work, everything that was reached mirrors its source, pointer by pointer |
| RoundTrip.ReachedFresh | src/decompress_statement.c:96-113 | the identifiers of loaded table aliases are pairwise different and are the next ones, without a gap |
| RoundTrip.ReachedNumbers | src/decompress_statement.c:125-150 | the join that a statement points to has one more than the identifier of the table alias of its value, or of the right operand of a set operation: the new one or, only if that alias leads back to the join, the stored one; every other join keeps what was stored |
| RoundTrip.ReachedDelims | src/decompress_statement.c:338-341 | every column points to the value of the first delimiter keyword in its ring, or nowhere |
| RoundTrip.RingCloses | src/decompress_statement.c:151-179 | following `next` from any loaded ring record visits the copies in the original order and comes back after exactly as many steps |
| RoundTrip.PrevUndoesNext | src/decompress_statement.c:151-179 | `prev` of the successor of a loaded ring record is that record |
| RoundTrip.FollowsRing | src/decompress_statement.c:321-352 | after n steps along a loaded ring one is at the copy of the n-th element of the original |
| Compress.Compressor.CompressStatement | src/compress_statement.c:32-44 | counting and writing meet the same items in the same order; objects are in bounds and do not overlap; the blob is a complete encoding; also for a graph that was stored before |
| Compress.Compressor.WriteStatement | src/compress_statement.c:51-86 | the writing pass follows the walk of the counting pass and ends with every record complete and every mark moved on |
| Compress.Compressor.CountChild | src/compress_statement.c:51-86 | the counting pass over a child is the walk over it, in items, length and marks |
| Compress.Compressor.CountRec | src/compress_statement.c:135-192 | a shared record is counted once; ends on cyclic graphs |
| Compress.Compressor.CountFields | src/compress_statement.c:87-119 | the counting pass over the fields of a record is the walk over them |
| Compress.Compressor.CountRing | src/compress_statement.c:229-284 | the counting pass goes round a ring once |
| Compress.Compressor.WriteChild | src/compress_statement.c:18-27 | a child is written, or the address of its copy used; NULL for a dropped statement; everything written before stays |
| Compress.Compressor.WriteStmt | src/compress_statement.c:63-86 | a statement is copied and its payload points to what comes next, or to the copy made before |
| Compress.Compressor.WriteRing | src/compress_statement.c:471-524 | every element of the ring is written or found, linked by relative pointers, with a missing link exactly before the element at which the ring is entered |
| Compress.Compressor.WriteElement | src/compress_statement.c:229-284 | an element is written unless it is shared and was written before, when the copy is used |
| Compress.Compressor.AppendRecord | src/compress_statement.c:135-192 | a record is appended where a pointer already waits for it, then completed |
| Compress.Compressor.WriteFields | src/compress_statement.c:87-119 | all pointer fields of a record are set, each relative to itself |
| Compress.Complete | src/compress_statement.c:51-736 | after the walk, every counted record is written and the blob is closed |
| Compress.StmtSize | src/compress_statement.c:63-72 | a statement takes cells unless it counts as NULL |
| CompressInv.StepKeeps | src/compress_statement.c:51-736 | a write that touches few objects keeps the invariant of all others |
| CompressInv.AppendRec | src/compress_statement.c:471-524 | appending the awaited record keeps the invariant |
| CompressInv.SetField | src/compress_statement.c:18-27 | setting a relative pointer to a written child keeps the invariant; it is never 0 |
| CompressInv.SetNext | src/compress_statement.c:229-284 | setting a ring link keeps the invariant |
| CompressInv.EndRing | src/compress_statement.c:471-524 | a complete ring needs a link missing nowhere but before its entry |
| CompressInv.PointStmt | src/compress_statement.c:135-160 | a statement can point to a shared record that was written before |
| Walk.RingNext | src/compress_statement.c:229-284 | a ring walk comes back after the last element and not before |
| Walk.NewRecTrip | src/compress_statement.c:51-736 | what the walk over a record met for the first time adds |
| Decompress.Loader.DecompressHelper | src/decompress_statement.c:42-70 | a statement, and all below it that was not entered, becomes absolute; each pointer is converted once; ends on cyclic blobs |
| Decompress.Loader.DecompressRing | src/decompress_statement.c:321-352 | a ring is walked up to the first record entered before or until it closes, also from a start in its middle and with nested visits |
| Decompress.Loader.DecompressRecord | src/decompress_statement.c:151-179 | one record: its mark is cleared, its fields and links are converted |
| Decompress.Loader.LinkRecord | src/decompress_statement.c:321-352 | `next` becomes absolute, a missing one the start of the ring; `prev` of the successor points back |
| Decompress.Loader.DecompressFields | src/decompress_statement.c:18-24 | every pointer field is converted exactly once |
| Decompress.Loader.LeaveRecord | src/decompress_statement.c:96-113 | a finished table alias takes the next identifier, and nothing else changes |
| Decompress.Loader.LeaveJoin | src/decompress_statement.c:139-149 | after its ring, the start join gets one more than the identifier of its table alias, the stored one exactly if that alias is still being worked on; nothing else changes |
| Decompress.Loader.FindAlias | src/decompress_statement.c:139-147 | the pointers that the code follows from a start join lead to the copy of that table alias |
| Decompress.Loader.FindDelim | src/get_keyword.c:21-29 | the walk over the keywords of a column, with links that are already converted, finds the first delimiter keyword or none |
| Decompress.JoinAliasIs | src/decompress_statement.c:139-147 | the table alias of a join is that of its value, or of the right operand if the value is a set operation |
| Decompress.FirstDelimIs | src/get_keyword.c:21-29 | the keyword found is a delimiter, and none comes before it |
| Decompress.LinksDiffer | src/decompress_statement.c:151-179 | no two converted links lead to the same record |
| Decompress.Successor | src/decompress_statement.c:321-352 | a missing link stands for the element at which the ring was entered |
| Decompress.StepKeeps | src/decompress_statement.c:42-505 | a write that touches few objects keeps the invariant of all others |
| Joins.AndLaws | src/traverse_where_clause.c:24-33 | AND of three-valued logic is commutative and associative, true is its unit and false absorbs |
| Joins.EvalDepends | src/qualify_statement.c:211-222 | the value of a condition depends only on tables up to its maximum identifier |
| Joins.PushFilters | src/move_where_clause_to_on_clause.c:35-88 | for every join list without RIGHT or FULL: adding a condition to the ON clause of an inner join is filtering the whole result by it, row for row |
| Joins.ExtendAllFilter | src/move_where_clause_to_on_clause.c:35-66 | a later join that keeps left rows apart commutes with filtering by an earlier condition |
| Joins.ExtendAllMore | src/move_where_clause_to_on_clause.c:67-79 | on an inner join, more in the ON clause is filtering |
| Pushdown.Query.ScanJoins | src/move_where_clause_to_on_clause.c:28-61 | the first join that may take the condition, if any, and which outer joins there are |
| Pushdown.Query.MoveWhereClauseToOnClause | src/move_where_clause_to_on_clause.c:22-90 | without RIGHT and FULL joins the condition goes to the ON clause of the first inner join that comes after all its tables, is not the last and is not next to a CROSS join, and leaves the WHERE clause exactly if no join is outer; without such a join nothing changes |
| Pushdown.Query.TraverseWhereClause | src/traverse_where_clause.c:16-43 | for every tree of conjuncts: what is left of it together with what was moved is the tree; which conjunct goes to which join, in order, and which stay, as below |
| Pushdown.Query.ParseTreeOptimize | src/parse_tree_optimize.c:17-33 | for every query, database, meaning of operators and outer row: the same rows in the same order before and after; without RIGHT and FULL joins, the new ON clause of each join is the old one with, in order, exactly the conjuncts that it is the first to inherit, and a conjunct stays in the WHERE clause, in order, exactly if no join inherits it or some join is outer; with a RIGHT or FULL join nothing changes |
| Pushdown.MovesExactly | src/move_where_clause_to_on_clause.c:35-61 | a conjunct is taken if and only if its tables are all known at some join that is neither outer nor CROSS, is not the last and is not followed by a CROSS join |
| Pushdown.PushedTwice | src/traverse_where_clause.c:24-33 | moving two lists of conjuncts one after the other is moving their concatenation |
| Pushdown.SameResult | src/parse_tree_optimize.c:17-33 | joins that were narrowed by some conditions and a WHERE clause split off them give the same result |
| Pushdown.NarrowsTwice | src/traverse_where_clause.c:24-33 | moves of successive conjuncts compose |
| Pushdown.SplitsConj | src/traverse_where_clause.c:34-42 | what is left of a conjunction, with what was moved, is the conjunction, whichever side is left |
| Pushdown.RightOrFullGuardNeeded | src/move_where_clause_to_on_clause.c:62-67 | with a RIGHT or a FULL join there is a query whose result changes if the condition is moved |
| Pushdown.KeepingIsRedundant | src/move_where_clause_to_on_clause.c:80-86 | without RIGHT and FULL joins, the moved condition makes no difference in the WHERE clause, outer join or not |
| Upgrade.InvStep | src/auto_upgrade_binary_definition_if_needed.c:65-108 | every step of every process, failures and ends included, keeps the invariant; current markers stay current |
| Upgrade.RunInv | src/octo_init.c:1095-1120 | the invariant holds in every state of every run of any number of processes |
| Upgrade.RunStable | src/auto_upgrade_plan_definition_if_needed.c:88-106 | a marker that is current stays current for the rest of the run |
| Upgrade.MutualExclusion | src/auto_upgrade_binary_definition_if_needed.c:90-101 | at most one process is in any of the three upgrade bodies |
| Upgrade.AtMostOnce | src/auto_upgrade_plan_definition_if_needed.c:77-99 | at most one plan upgrade and one binary upgrade complete in a run |
| Upgrade.PlanCheckHolds | src/auto_upgrade_plan_definition_if_needed.c:41-107 | once a process is past the plan check the plan marker is current from then on |
| Upgrade.SeedImpliesBin | src/auto_load_octo_seed_if_needed.c:197-244 | if the seed marker becomes current in a run, the binary marker is current from then on |
| Upgrade.StartupHolds | src/octo_init.c:1095-1120 | a process that passed all checks leaves the plan and binary markers current from then on, and the seed marker too unless its seed check took the early return |
| Upgrade.FlagMeansSlip | src/octo.h:1108-1139 | the binary check upgrades with the flag of the special upgrade set only after that early return, when the file that it then closes is not open |
| Upgrade.LeakBlocks | src/auto_upgrade_binary_definition_if_needed.c:85-89 | while a process keeps a lock it should have given back, no other one gets into locked code |
| Upgrade.LoadNeeded | src/auto_load_octo_seed_if_needed.c:144-163 | under the lock, a load with the marker current is exactly one that is not full, and then the partial flag is set |
| StartupRoutes.PlanMadeCurrent | src/auto_upgrade_plan_definition_if_needed.c:72-99 | in every run, a process that makes the plan marker current has read it under the lock and then discarded the plans, and held the lock since |
| StartupRoutes.BinMadeCurrent | src/auto_upgrade_binary_definition_if_needed.c:85-108 | the same for the binary marker: the stored definitions were upgraded in the binary check, or the seed was loaded, and with it the stored definitions were upgraded if the load is full |
| StartupRoutes.SeedMadeCurrent | src/auto_load_octo_seed_if_needed.c:144-244 | the same for the seed marker: the seed was loaded, the stored definitions upgraded if the load is full, the binary marker written, and the special upgrade done if it was asked for |
| StartupRoutes.Came | src/auto_upgrade_binary_definition_if_needed.c:65-108 | the step that brought a process where it is, since when it has held the lock |
| StartupRuns.PassExactly | src/is_auto_upgrade_valid.c:18-68 | some run brings a process through with all markers current if and only if the binary marker is absent or not newer than this build's |
| StartupRuns.MissExactly | src/octo.h:1108-1139 | from which markers some run leads to a process that passed every check with a marker out of date, if and only if |
| StartupRuns.OldSeedCanMiss | src/octo.h:1108-1139 | the run, for every such start: one process writes the binary marker and fails, another returns early and passes |
| StartupRuns.NeverMissed | src/octo_init.c:1095-1120 | from every other start no run leads there |
| StartupRuns.QuietRun | src/is_auto_upgrade_valid.c:18-68 | with all markers current, or with a binary marker of a later build, no process ever takes the lock and no marker changes, and in the latter case none gets past the first check |
| StartupRuns.NoFlagRun | src/auto_load_octo_seed_if_needed.c:132-139 | with a seed marker that is not old no process ever asks for the special upgrade |
| StartupRuns.LeakExactly | src/auto_upgrade_binary_definition_if_needed.c:85-89 | from which markers some run leads to a process that goes on without an error and holds the lock outside the locked code, if and only if |
| StartupRuns.PlanLeaks | src/auto_upgrade_plan_definition_if_needed.c:72-76 | the run, for every start with the plan marker out of date |
| StartupRuns.SeedLeaks | src/auto_load_octo_seed_if_needed.c:144-149 | the run, for every start with the plan marker current and the seed marker not |
| StartupRuns.BinLeaks | src/auto_upgrade_binary_definition_if_needed.c:85-89 | the run, for every start with only the binary marker out of date |
| StartupRuns.ReloadExactly | src/auto_load_octo_seed_if_needed.c:74-163 | from which markers some run leads to a process that loads a current seed under the lock, if and only if |
| SchemaCache.StoreDefinition | src/store_table_definition.c:53-67 | the fragments concatenate to the definition, all of them full but the last, which is not empty |
| SchemaCache.ReadDefinition | src/find_view_or_table.c:270-300 | reading fragments until the length is reached gives the whole definition |
| SchemaCache.Create | src/store_table_or_view_in_pg_class.c:164-225 | a new definition under a new object identifier; what each identifier was given to is never changed |
| SchemaCache.Drop | src/run_query.c:642-646 | a definition is gone, its identifier is not given out again |
| SchemaCache.LocalCache.FindFunction | src/find_function.c:58-223 | the function as it is in the database now, for every valid cache; the cache then has it, or nothing |
| SchemaCache.LocalCache.FindInCache | src/find_view_or_table.c:34-120 | a table only if its object identifier is still that of the database, and then it is the same definition; else it is evicted |
| SchemaCache.LocalCache.LoadRelation | src/find_view_or_table.c:191-349 | the definition in the database, which is then in the cache of tables or views |
| SchemaCache.LocalCache.FindViewOrTable | src/find_view_or_table.c:122-349 | what is found, for every name, with or without a schema, and what the cache then has |
| SchemaCache.LocalCache.StripSchema | src/find_view_or_table.c:163-181 | nothing exactly if the name has no dot, else what follows the first one |
| SchemaCache.DirectWithoutSchema | src/find_view_or_table.c:163-181 | a load of a name with a schema that is no relation as it is, is the load of the name without the schema |
| SchemaCache.DirectPlain | src/find_view_or_table.c:163-181 | a name without a dot is found exactly if it is a relation |
| SchemaCache.LocalCache.DropSchema | src/drop_schema_from_local_cache.c:17-74 | exactly one entry goes |
| SchemaCache.LocalCache.InitViewCache | src/octo.h:1197-1203 | all views go, nothing else |
| SchemaCache.HitIsCurrent | src/find_function.c:66-90 | as no identifier is given out twice, one that matches is that of the same definition, even if a table was replaced by a view |
| SchemaCache.LookupIsDirect | src/find_view_or_table.c:122-181 | a lookup is a direct load if and only if it does not reach a cached view that the database has since lost or replaced |
| SchemaCache.CurrentIsNotStale | src/run_query.c:179-183 | with current views in the cache no lookup reaches an outdated one |
| SchemaCache.Replay | src/find_view_or_table.c:122-349 | in every history of schema changes and lookups: functions, tables and absent names as in the database at that time; views too if the schema has not changed since the query began |
| SchemaCache.ViewOutlivesDrop | src/find_view_or_table.c:104-110 | for every view: dropped or replaced by another process within the query, it is still found |
| PlanHash.VisitStmt | src/hash_canonical_query.c:117-182 | ends on every graph whose cycles pass through a guarded kind; statements marked stay marked |
| PlanHash.VisitStatus | src/hash_canonical_query.c:117-182 | the status on return is that on entry or abnormal, and from a normal status abnormal if and only if a statement that cannot be hashed was met outside the bodies of views |
| PlanHash.StepStatus | src/hash_canonical_query.c:85-92 | the same for each step, with status saved, forced and restored |
| PlanHash.MetExactly | src/hash_canonical_query.c:117-182 | a statement that cannot be hashed is met if and only if one can be reached, whatever cycles and revisits there are |
| PlanHash.ViewHidesFailure | src/hash_canonical_query.c:490-501 | if such a statement can be reached, but only through the body of a view, the status is kept |
| PlanHash.FailureExactly | src/hash_canonical_query.c:117-761 | where the bodies of all views can be hashed, the status is abnormal if and only if such a statement can be reached |
| PlanHash.ViewUnreported | src/hash_canonical_query.c:490-501 | every view whose name can be hashed and whose body cannot is hashed without an error |
| PlanHash.ReportsExactly | src/hash_canonical_query.c:117-761 | where the names of views can be hashed: every statement, hashed by itself, reports its failure if and only if the body of every view can be hashed |
| PlanHash.HiddenFailureHappens | src/hash_canonical_query.c:490-501 | a view, with any name, whose body fails without an error |
| PlanHash.SamePlan | src/hash_canonical_query.c:350-465 | queries that differ only in the text of literals and the sizes of casts, outside what is hashed with its literals, ingest the same |
| PlanHash.VisitSame | src/hash_canonical_query.c:117-761 | the same for every statement, state and mode |
| PlanHash.LiteralTrace | src/hash_canonical_query.c:366-412 | the text of a literal is ingested exactly if literals are hashed; the rest always |
| PlanHash.FunctionKey | src/hash_canonical_query.c:559-597 | CREATE FUNCTION and DROP FUNCTION ingest the name and the types, in order |
| PlanHash.KeysDiffer | src/hash_canonical_query.c:576-597 | functions ingest the same if and only if they have the same name and the same types |
| PlanHash.CallKey | src/function_definition_lookup.c:30-56 | the loop over the arguments of a call, with NULL as a string, ingests what the CREATE or DROP of the function with these types does |
| PlanHash.Hasher.HashCanonicalQuery | src/hash_canonical_query.c:117-182 | the status is kept, or abnormal exactly if a statement that cannot be hashed was met outside the bodies of views; the trace and marks are those of which the above is proved; ends on every well-formed graph |
| HashMembers.StatementsTold | src/hash_canonical_query.c:117-761 | two statements of one kind with the same children and one other hashed member leave different traces, from every state and whatever their children are; the members are listed kind by kind |
| HashMembers.GuardedTold | src/hash_canonical_query.c:117-182 | the same at the first visit of a kind that is not walked twice, whatever cycles lead back to it |
| HashMembers.ListsTold | src/hash_canonical_query.c:66-114 | the same for every element of a list of columns |
| HashMembers.RevisitTrace | src/hash_canonical_query.c:127-175 | what a column, table alias, list of values and keyword ingest when met again |
| HashMembers.RevisitName | src/hash_canonical_query.c:127-147 | tables and views ingest their name when met again |
| HashMembers.KindTold | src/hash_canonical_query.c:183-761 | every kind begins with its own constant |
| HashMembers.EmulationTold | src/hash_canonical_query.c:309-330 | a function call ingests the emulation mode |
| HashMembers.CastStyleTold | src/hash_canonical_query.c:366-465 | a cast to a date or time type ends with the date style |
| HashMembers.ForcedLiteral | src/hash_canonical_query.c:80-92 | where literals are hashed by force, as for aliases of columns, keywords other than LIMIT and bodies of views, the text of a literal is ingested |
| HashMembers.ModeStays | src/hash_canonical_query.c:490-501 | and this holds for everything below, as long as all can be hashed |
| HashMembers.CastSizesTold | src/hash_canonical_query.c:425-432 | there, casts to different sizes are told apart |
| HashMembers.VisitsExactly | src/hash_canonical_query.c:183-761 | the children of every kind, with those that are hashed with their literals, are visited and nothing else |
| HashMembers.ChildrenVisited | src/hash_canonical_query.c:183-761 | after the first visit of a statement that can be hashed, all its children were visited |
| HashMembers.ListVisited | src/hash_canonical_query.c:66-114 | and so were the children of all elements of a list of columns |
| HashTells.StepsTell | src/hash_canonical_query.c:117-182 | runs that are the same up to one token, or one more, leave different traces, through all visits of children |
| HashTells.VisitTwice | src/hash_canonical_query.c:117-182 | what a visit does, and how much it ingests, does not depend on what was ingested before, nor on the numbers of one guarded statement |
| Overloads.FitsExactly | src/function_definition_lookup.c:124-150 | NULL goes with every type, an integer with integers and numbers, any other type with itself |
| Overloads.ExactAt | src/function_definition_lookup.c:41-55 | a call looks for its own types, with a string for NULL |
| Overloads.Resolve | src/function_definition_lookup.c:20-188 | the number of matches is that of the different M functions among the accepting definitions, up to two, whatever the order of the scan; an exact definition comes first; the one returned accepts the arguments |
| Overloads.ParametersMatch | src/function_definition_lookup.c:113-167 | the walk over the parameters accepts exactly the arguments that fit in number and type |
| Overloads.OnlyExact | src/function_definition_lookup.c:30-82 | without an ambiguous argument, only the exact definition accepts |
| ResultRow.PrintResultRow | src/print_result_row.c:20-57 | for every row: the columns with bars between them, up to the first zero byte; no input is overwritten before it is read, nothing after the row is touched but one byte |
| ResultRow.NextColumn | src/print_result_row.c:37-53 | one column moves down behind its bar; the rest of the row is intact |
| ResultRow.GetMvalLen | src/get_mval_len.c:23-47 | the header lengths and data lengths of what was encoded |
| ResultRow.HeaderTells | src/aux/_ydboctoplanhelpers.m:1349-1377 | the headers of 1, 2 and 3 bytes tell themselves apart and give the length |
| ResultRow.ShowsAll | src/print_result_row.c:54-57 | all of the row is shown exactly if no column has a zero byte |
| Rings.Append | src/double_list.h:25-34 | two disjoint rings become the ring of their concatenation |
| Rings.Delete | src/double_list.h:37-42 | the rest stays a ring, in order, and the element is one |
| Rings.Rotated | src/double_list.h:25-34 | the order in which two rings are appended matters only up to rotation |
| Rings.Replace | src/octo.h:845-862 | exactly the one element gives way to the new list, be it first, last, between or alone; the head and the list follow |
| Rings.Copy | src/copy_sql_statement.c:162-219 | the copy of a ring has its elements in order from the head on, whether each new element is appended to the copy or the copy to it |
| Arena.Memory.Alloc | src/memory_chunk.c:36-54 | a zero block, in bounds, apart from all blocks so far; no block moves or changes; a chunk is added exactly if the last one is full, large enough for the block; blocks follow each other |
| Arena.Memory.AddChunk | src/memory_chunk.c:43-49 | the ring of chunks grows by one at its end |
| Arena.Memory.Write | src/memory_chunk.c:50-53 | what owners write into their blocks keeps everything |
| Arena.Memory.Free | src/memory_chunk.c:56-73 | every chunk is freed once, in the order of the ring |
| StatementCopy.MatchSqlStatement | src/match_sql_statement.c:22-383 | two statements match if and only if they are alike: both NULL, the same table or column, or of one type and alike structure by structure; which is to have the same canonical form, so matching is an equivalence |
| StatementCopy.MatchRing | src/match_sql_statement.c:196-228 | two rings match if and only if they are as long and match element by element |
| StatementCopy.MatchElement | src/match_sql_statement.c:118-148 | two structures match if and only if the members that are compared are equal and the statements below match |
| StatementCopy.CopySqlStatement | src/copy_sql_statement.c:22-305 | the copy is the original, and matches it, if and only if no element of a copied column list has keywords |
| StatementCopy.CopyParts | src/copy_sql_statement.c:180-200 | an element of a column list loses its keywords only; ORDER BY is shared; everything else is copied |
| StatementCopy.CopyEquals | src/copy_sql_statement.c:22-305 | a statement is its copy, in all members, if and only if no element of a copied column list has keywords |
| StatementCopy.CopyMatches | src/copy_sql_statement.c:180-200 | a statement matches its copy if and only if no element of a copied column list has keywords |
| ConstraintNames.AutoGenerate | src/constraint_name_auto_generate.c:102-169 | a name that fits is whole; any other fills the buffer exactly, keeps the word and the number, and takes from table and columns no more than the other's half |
| ConstraintNames.EndingIs | src/constraint_name_auto_generate.c:42-62 | the word for the kind of the constraint, and then the number in decimal notation unless it is 0 |
| ConstraintNames.DigitsValue | src/constraint_name_auto_generate.c:109-118 | the digits of a number are its decimal notation |
| ConstraintNames.ColumnList | src/constraint_name_auto_generate.c:64-97 | the columns with underscores between them, cut at 63 characters |
| ConstraintNames.Share | src/constraint_name_auto_generate.c:138-160 | the room is used up and shared fairly |
| ConstraintNames.NumbersDistinguish | src/constraint_name_auto_generate.c:102-169 | for fixed names, different numbers give different constraint names, cut or not |

## Left out

- Bytes: the blob has one cell for each C member instead of bytes, and a typed object at each offset; `int` lengths do not wrap around.
- Decompress.Loader.FindAlias: nothing is said of a join whose value is neither a table alias nor a set operation with a table alias on the right, which the code asserts or assumes not to occur.
- Decompress.Loader.FindDelim: nothing is said of a column whose keywords are of another type of statement.
- Statement types that the serializer does not support stop it with an error; the model has only those it supports.
- Compress.Compressor.WriteRing: a record that is in no ring is a ring of one.
- Pointers that `memcpy` copies and that are not converted yet are 0 in the copy.
- `FORCE_BINARY_DEFINITION_AUTO_UPGRADE`, `seedreload` and other settings of debug builds.
- Upgrade.InvStep: a temporary file descriptor 0, which would make a failed `fdopen` return success, does not occur.
- The M routines, SQL files and upgrades that the upgrade bodies run are single steps that succeed or fail.
- SchemaCache.LocalCache.FindViewOrTable: errors of database calls other than a missing node, and the exception for views during the upgrade of views, are not modelled; a lookup is one step.
- SchemaCache.LocalCache.LoadRelation: the same.
- SchemaCache.LocalCache.FindInCache: errors of database calls other than a missing node are not modelled.
- SchemaCache.LocalCache.FindFunction: errors of database calls other than a missing node are not modelled.
- SchemaCache.LocalCache.DropSchema: the memory of cached definitions is not modelled, so neither is what eviction frees.
- PlanHash.Hasher.HashCanonicalQuery: the switch of the code is a table of steps that one loop executes; rings are sequences; the hash is the trace of what it ingests, in which constants of enumerations, numbers and strings differ from each other.
- HashMembers.StatementsTold: traces are compared statement by statement; that whole queries with the same trace are the same is not claimed.
- The change of `BOOLEAN_OR_STRING_LITERAL` into `STRING_LITERAL` in place is part of what is ingested only.
- Overloads.Resolve: hashes do not collide, and a definition that is listed can be loaded.
- StatementCopy.MatchSqlStatement: statements are trees and their rings sequences, with the members of each structure sorted into those that are compared and those that are not, so it says nothing of cyclic statements; types at which the code stops with an error are not in the model.
- StatementCopy.CopySqlStatement: members that neither copying nor matching looks at (`tbl_and_col_id`, `group_by_fields`, `function_schema`), `column_list` of a table alias, which matching leaves out, and locations in the query text are left out; tables and columns are their addresses.
- ConstraintNames.AutoGenerate: the buffer has room for the ending and two characters, which the assertion at the end of the code (line 169) needs.
- Type tables, printers of DDL, the parser and the planner: they would add easier members.
