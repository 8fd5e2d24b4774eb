/**
 The hashing of a query: it ends on every graph whose cycles pass through a kind of statement that
 is not walked twice, it keeps the status it was given, and it does not depend on literals.
 */
module PlanHash {
  import opened Common
  import opened QueryHash
  import O = Overloads

  /** Shows that every cycle passes through a guarded statement: the rank falls along all others. */
  datatype Cert = Cert(rank: map<Ref, nat>, bound: nat)

  function ChildOf(step: Step): Ref {
    match step
    case Visit(child) => child
    case VisitList(child) => child
    case VisitSaved(child, _) => child
    case VisitView(child) => child
    case _ => 0
  }

  predicate ChildBelow(q: Query, c: Cert, child: Ref, b: nat) {
    child != 0 ==> child in q.stmts && child in c.rank && c.rank[child] < b
  }

  ghost predicate Below(q: Query, c: Cert, steps: seq<Step>, b: nat) {
    forall i :: 0 <= i < |steps| ==> ChildBelow(q, c, ChildOf(steps[i]), b)
  }

  ghost predicate StmtWF(q: Query, c: Cert, n: Ref) {
    n in q.stmts ==>
      && n in c.rank && c.rank[n] < c.bound
      && Below(q, c, WholeSteps(q.stmts[n]), c.rank[n])
      && (if Guarded(q.stmts[n]) then Below(q, c, Steps(q.settings, q.stmts[n]), c.bound)
          && Below(q, c, RevisitSteps(q.stmts[n]), c.rank[n])
          else Below(q, c, Steps(q.settings, q.stmts[n]), c.rank[n]))
  }

  ghost predicate WellFormed(q: Query, c: Cert) {
    forall n {:trigger StmtWF(q, c, n)} :: StmtWF(q, c, n)
  }

  /** What is ingested, the status and the statements visited; and for the record the lists walked as a
      whole, whether a statement that cannot be hashed was met at all, and whether one was met outside
      the bodies of views. */
  datatype State = State(trace: seq<Token>, status: int, marks: set<Ref>, lists: set<Ref>, met: bool, raised: bool)

  ghost function Unmarked(q: Query, marks: set<Ref>): set<Ref> {
    set n | n in q.stmts && Guarded(q.stmts[n]) && n !in marks
  }

  function Ingested(st: State, t: Token): State {
    st.(trace := st.trace + [t])
  }

  ghost function VisitStmt(q: Query, c: Cert, n: Ref, st: State): (r: State)
    requires WellFormed(q, c) && ChildBelow(q, c, n, c.bound)
    ensures st.marks <= r.marks
    decreases Unmarked(q, st.marks), if n == 0 then 0 else 2 * c.rank[n] + 2, 0
  {
    if n == 0 || st.status > 0 then st
    else
      assert StmtWF(q, c, n);
      var s := q.stmts[n];
      if !Guarded(s) then RunSteps(q, c, Steps(q.settings, s), c.rank[n], st.(marks := st.marks + {n}))
      else if n in st.marks then RunSteps(q, c, RevisitSteps(s), c.rank[n], st)
      else
        assert n in Unmarked(q, st.marks) && n !in Unmarked(q, st.marks + {n});
        RunSteps(q, c, Steps(q.settings, s), c.bound, st.(marks := st.marks + {n}))
  }

  ghost function RunSteps(q: Query, c: Cert, steps: seq<Step>, b: nat, st: State): (r: State)
    requires WellFormed(q, c) && b <= c.bound && Below(q, c, steps, b)
    ensures st.marks <= r.marks
    decreases Unmarked(q, st.marks), 2 * b + 1, |steps| + 1
  {
    if steps == [] then st
    else
      var m := RunSteps(q, c, steps[..|steps| - 1], b, st);
      DoStep(q, c, steps[|steps| - 1], b, m)
  }

  ghost function DoStep(q: Query, c: Cert, step: Step, b: nat, st: State): (r: State)
    requires WellFormed(q, c) && b <= c.bound && ChildBelow(q, c, ChildOf(step), b)
    ensures st.marks <= r.marks
    decreases Unmarked(q, st.marks), 2 * b + 1, 0
  {
    match step
    case Ingest(t) => Ingested(st, t)
    case IngestLiteral(t) => if st.status == HASH_LITERAL_VALUES then Ingested(st, t) else st
    case IngestSize(n) => Ingested(st, Number(if st.status == HASH_LITERAL_VALUES then n else UNSPECIFIED))
    case Visit(n) => VisitStmt(q, c, n, st)
    case VisitList(n) =>
      if n == 0 || st.status > 0 then st
      else
        assert StmtWF(q, c, n);
        RunSteps(q, c, WholeSteps(q.stmts[n]), c.rank[n], st.(lists := st.lists + {n}))
    case VisitSaved(n, force) =>
      var r := VisitStmt(q, c, n, if force then st.(status := HASH_LITERAL_VALUES) else st);
      if r.status == HASH_LITERAL_VALUES then r.(status := st.status) else r
    case VisitView(n) =>
      VisitStmt(q, c, n, st.(status := HASH_LITERAL_VALUES)).(status := st.status, raised := st.raised)
    case Reject => st.(status := ABNORMAL_STATUS, met := true, raised := true)
  }

  // ----- the status

  /** The status on return is that on entry, or abnormal; from a normal status it is abnormal if and only
      if a statement that cannot be hashed was met outside the bodies of views. */
  ghost predicate StatusKept(st: State, r: State) {
    && (r.status == st.status || r.status == ABNORMAL_STATUS)
    && (st.met ==> r.met) && (st.raised ==> r.raised) && st.marks <= r.marks && st.lists <= r.lists
    && (!r.met ==> r.status == st.status && r.raised == st.raised)
    && (!st.raised && st.status <= 0 ==> (r.status == ABNORMAL_STATUS <==> r.raised))
  }

  lemma {:induction false} VisitStatus(q: Query, c: Cert, n: Ref, st: State)
    requires WellFormed(q, c) && ChildBelow(q, c, n, c.bound)
    ensures StatusKept(st, VisitStmt(q, c, n, st))
    decreases Unmarked(q, st.marks), if n == 0 then 0 else 2 * c.rank[n] + 2, 0
  {
    hide Steps, RevisitSteps, WholeSteps;
    if n != 0 && st.status <= 0 {
      assert StmtWF(q, c, n);
      var s := q.stmts[n];
      if !Guarded(s) {
        StepsStatus(q, c, Steps(q.settings, s), c.rank[n], st.(marks := st.marks + {n}));
      } else if n in st.marks {
        StepsStatus(q, c, RevisitSteps(s), c.rank[n], st);
      } else {
        assert n in Unmarked(q, st.marks) && n !in Unmarked(q, st.marks + {n});
        StepsStatus(q, c, Steps(q.settings, s), c.bound, st.(marks := st.marks + {n}));
      }
    }
  }

  lemma {:induction false} StepsStatus(q: Query, c: Cert, steps: seq<Step>, b: nat, st: State)
    requires WellFormed(q, c) && b <= c.bound && Below(q, c, steps, b)
    ensures StatusKept(st, RunSteps(q, c, steps, b, st))
    decreases Unmarked(q, st.marks), 2 * b + 1, |steps| + 1
  {
    if steps != [] {
      var init := steps[..|steps| - 1];
      StepsStatus(q, c, init, b, st);
      StepStatus(q, c, steps[|steps| - 1], b, RunSteps(q, c, init, b, st));
    }
  }

  lemma {:induction false} StepStatus(q: Query, c: Cert, step: Step, b: nat, st: State)
    requires WellFormed(q, c) && b <= c.bound && ChildBelow(q, c, ChildOf(step), b)
    ensures StatusKept(st, DoStep(q, c, step, b, st))
    decreases Unmarked(q, st.marks), 2 * b + 1, 0
  {
    hide WholeSteps;
    match step
    case Visit(n) => VisitStatus(q, c, n, st);
    case VisitList(n) =>
      if n != 0 && st.status <= 0 {
        assert StmtWF(q, c, n);
        StepsStatus(q, c, WholeSteps(q.stmts[n]), c.rank[n], st.(lists := st.lists + {n}));
      }
    case VisitSaved(n, force) => VisitStatus(q, c, n, if force then st.(status := HASH_LITERAL_VALUES) else st);
    case VisitView(n) => VisitStatus(q, c, n, st.(status := HASH_LITERAL_VALUES));
    case _ =>
  }

  // ----- which statements are met

  /** What a step leads to is among the statements `f`, or for a list among `l`; a view's body need be
      only if `views` holds.  `Reject` is the step of a statement that cannot be hashed. */
  ghost predicate StepIn(step: Step, f: set<Ref>, l: set<Ref>, views: bool) {
    && !step.Reject?
    && (ChildOf(step) == 0 || (if step.VisitList? then ChildOf(step) in l
      else ChildOf(step) in f || (step.VisitView? && !views)))
  }

  ghost predicate StepsIn(steps: seq<Step>, f: set<Ref>, l: set<Ref>, views: bool) {
    forall i :: 0 <= i < |steps| ==> StepIn(steps[i], f, l, views)
  }

  ghost predicate ClosedAt(q: Query, f: set<Ref>, l: set<Ref>, views: bool, n: Ref) {
    n in q.stmts ==>
      && (n in f ==>
        StepsIn(Steps(q.settings, q.stmts[n]), f, l, views) && StepsIn(RevisitSteps(q.stmts[n]), f, l, views))
      && (n in l ==> StepsIn(WholeSteps(q.stmts[n]), f, l, views))
  }

  /** Steps lead from `f` and `l` nowhere else, and to no statement that cannot be hashed. */
  ghost predicate Closed(q: Query, f: set<Ref>, l: set<Ref>, views: bool) {
    forall n {:trigger ClosedAt(q, f, l, views, n)} :: ClosedAt(q, f, l, views, n)
  }

  /** No statement that cannot be hashed can be reached from `n`. */
  ghost predicate Hashable(q: Query, n: Ref) {
    exists f: set<Ref>, l: set<Ref> :: Closed(q, f, l, true) && (n == 0 || n in f)
  }

  /** Nothing that cannot be hashed was met; or only in bodies of views. */
  ghost predicate Clean(views: bool, st: State, r: State) {
    if views then r.met == st.met else r.raised == st.raised
  }

  lemma {:induction false} VisitClean(q: Query, c: Cert, f: set<Ref>, l: set<Ref>, views: bool, n: Ref, st: State)
    requires WellFormed(q, c) && ChildBelow(q, c, n, c.bound) && Closed(q, f, l, views) && (n == 0 || n in f)
    ensures Clean(views, st, VisitStmt(q, c, n, st))
    decreases Unmarked(q, st.marks), if n == 0 then 0 else 2 * c.rank[n] + 2, 0
  {
    hide Steps, RevisitSteps, WholeSteps, StepsIn;
    if n != 0 && st.status <= 0 {
      assert StmtWF(q, c, n) && ClosedAt(q, f, l, views, n);
      var s := q.stmts[n];
      if !Guarded(s) {
        StepsClean(q, c, f, l, views, Steps(q.settings, s), c.rank[n], st.(marks := st.marks + {n}));
      } else if n in st.marks {
        StepsClean(q, c, f, l, views, RevisitSteps(s), c.rank[n], st);
      } else {
        assert n in Unmarked(q, st.marks) && n !in Unmarked(q, st.marks + {n});
        StepsClean(q, c, f, l, views, Steps(q.settings, s), c.bound, st.(marks := st.marks + {n}));
      }
    }
  }

  lemma {:induction false} StepsClean(q: Query, c: Cert, f: set<Ref>, l: set<Ref>, views: bool, steps: seq<Step>,
      b: nat, st: State)
    requires WellFormed(q, c) && b <= c.bound && Below(q, c, steps, b) && Closed(q, f, l, views)
        && StepsIn(steps, f, l, views)
    ensures Clean(views, st, RunSteps(q, c, steps, b, st))
    decreases Unmarked(q, st.marks), 2 * b + 1, |steps| + 1
  {
    if steps != [] {
      var init := steps[..|steps| - 1];
      StepsClean(q, c, f, l, views, init, b, st);
      StepClean(q, c, f, l, views, steps[|steps| - 1], b, RunSteps(q, c, init, b, st));
    }
  }

  lemma {:induction false} StepClean(q: Query, c: Cert, f: set<Ref>, l: set<Ref>, views: bool, step: Step, b: nat,
      st: State)
    requires WellFormed(q, c) && b <= c.bound && ChildBelow(q, c, ChildOf(step), b)
    requires Closed(q, f, l, views) && StepIn(step, f, l, views)
    ensures Clean(views, st, DoStep(q, c, step, b, st))
    decreases Unmarked(q, st.marks), 2 * b + 1, 0
  {
    hide WholeSteps, StepsIn;
    match step
    case Visit(n) => VisitClean(q, c, f, l, views, n, st);
    case VisitList(n) =>
      if n != 0 && st.status <= 0 {
        assert StmtWF(q, c, n) && ClosedAt(q, f, l, views, n);
        StepsClean(q, c, f, l, views, WholeSteps(q.stmts[n]), c.rank[n], st.(lists := st.lists + {n}));
      }
    case VisitSaved(n, force) =>
      VisitClean(q, c, f, l, views, n, if force then st.(status := HASH_LITERAL_VALUES) else st);
    case VisitView(n) =>
      if views {
        VisitClean(q, c, f, l, views, n, st.(status := HASH_LITERAL_VALUES));
      }
    case _ =>
  }

  /** Everything that was visited since `st` has led to what was visited. */
  ghost predicate Explored(q: Query, st: State, r: State) {
    && (forall n {:trigger ExploredStmt(q, r.marks, r.lists, n)} :: n in r.marks && n !in st.marks ==>
      ExploredStmt(q, r.marks, r.lists, n))
    && (forall n {:trigger ExploredList(q, r.marks, r.lists, n)} :: n in r.lists && n !in st.lists ==>
      ExploredList(q, r.marks, r.lists, n))
  }

  ghost predicate ExploredStmt(q: Query, f: set<Ref>, l: set<Ref>, n: Ref) {
    n in q.stmts && StepsIn(Steps(q.settings, q.stmts[n]), f, l, true)
  }

  ghost predicate ExploredList(q: Query, f: set<Ref>, l: set<Ref>, n: Ref) {
    n in q.stmts && StepsIn(WholeSteps(q.stmts[n]), f, l, true)
  }

  lemma ExploredLater(q: Query, st: State, m: State, r: State)
    requires Explored(q, st, m) && Explored(q, m, r) && m.marks <= r.marks && m.lists <= r.lists
    ensures Explored(q, st, r)
  {
    forall n | n in r.marks && n !in st.marks ensures ExploredStmt(q, r.marks, r.lists, n) {
      assert n in m.marks ==> ExploredStmt(q, m.marks, m.lists, n);
      assert n !in m.marks ==> ExploredStmt(q, r.marks, r.lists, n);
    }
    forall n | n in r.lists && n !in st.lists ensures ExploredList(q, r.marks, r.lists, n) {
      assert n in m.lists ==> ExploredList(q, m.marks, m.lists, n);
      assert n !in m.lists ==> ExploredList(q, r.marks, r.lists, n);
    }
  }

  lemma {:induction false} VisitExplores(q: Query, c: Cert, n: Ref, st: State)
    requires WellFormed(q, c) && ChildBelow(q, c, n, c.bound) && st.status <= 0 && !VisitStmt(q, c, n, st).met
    ensures Explored(q, st, VisitStmt(q, c, n, st)) && (n == 0 || n in VisitStmt(q, c, n, st).marks)
    decreases Unmarked(q, st.marks), if n == 0 then 0 else 2 * c.rank[n] + 2, 0
  {
    hide Steps, RevisitSteps, WholeSteps, StepsIn;
    if n != 0 {
      assert StmtWF(q, c, n);
      var s, marked := q.stmts[n], st.(marks := st.marks + {n});
      var r := VisitStmt(q, c, n, st);
      if Guarded(s) && n in st.marks {
        StepsExplore(q, c, RevisitSteps(s), c.rank[n], st);
      } else {
        assert Guarded(s) ==> n in Unmarked(q, st.marks) && n !in Unmarked(q, marked.marks);
        var b := if Guarded(s) then c.bound else c.rank[n];
        StepsExplore(q, c, Steps(q.settings, s), b, marked);
        assert r == RunSteps(q, c, Steps(q.settings, s), b, marked);
        forall m | m in r.marks && m !in st.marks ensures ExploredStmt(q, r.marks, r.lists, m) {
          assert m != n ==> ExploredStmt(q, r.marks, r.lists, m);
        }
        assert Explored(q, st, r);
      }
    }
  }

  lemma {:induction false} StepsExplore(q: Query, c: Cert, steps: seq<Step>, b: nat, st: State)
    requires WellFormed(q, c) && b <= c.bound && Below(q, c, steps, b) && st.status <= 0
        && !RunSteps(q, c, steps, b, st).met
    ensures var r := RunSteps(q, c, steps, b, st); Explored(q, st, r) && StepsIn(steps, r.marks, r.lists, true)
    decreases Unmarked(q, st.marks), 2 * b + 1, |steps| + 1
  {
    hide Explored;
    if steps == [] {
      ExploredSelf(q, st);
    } else {
      var init, last := steps[..|steps| - 1], steps[|steps| - 1];
      var m := RunSteps(q, c, init, b, st);
      StepsStatus(q, c, init, b, st);
      StepStatus(q, c, last, b, m);
      StepsExplore(q, c, init, b, st);
      StepExplores(q, c, last, b, m);
      var r := RunSteps(q, c, steps, b, st);
      ExploredLater(q, st, m, r);
      assert StepsIn(init, m.marks, m.lists, true);
      forall i | 0 <= i < |steps| ensures StepIn(steps[i], r.marks, r.lists, true) {
        assert i < |init| ==> steps[i] == init[i] && StepIn(init[i], m.marks, m.lists, true);
      }
    }
  }

  lemma ExploredSelf(q: Query, st: State)
    ensures Explored(q, st, st)
  {
  }

  lemma {:induction false} StepExplores(q: Query, c: Cert, step: Step, b: nat, st: State)
    requires WellFormed(q, c) && b <= c.bound && ChildBelow(q, c, ChildOf(step), b) && st.status <= 0
    requires !DoStep(q, c, step, b, st).met
    ensures var r := DoStep(q, c, step, b, st); Explored(q, st, r) && StepIn(step, r.marks, r.lists, true)
    decreases Unmarked(q, st.marks), 2 * b + 1, 0
  {
    hide WholeSteps, StepsIn;
    match step
    case Visit(n) => VisitExplores(q, c, n, st);
    case VisitList(n) =>
      if n != 0 {
        assert StmtWF(q, c, n);
        var listed := st.(lists := st.lists + {n});
        StepsExplore(q, c, WholeSteps(q.stmts[n]), c.rank[n], listed);
        StepsStatus(q, c, WholeSteps(q.stmts[n]), c.rank[n], listed);
        var r := DoStep(q, c, step, b, st);
        forall m | m in r.lists && m !in st.lists ensures ExploredList(q, r.marks, r.lists, m) {
          assert m != n ==> ExploredList(q, r.marks, r.lists, m);
        }
      }
    case VisitSaved(n, force) => VisitExplores(q, c, n, if force then st.(status := HASH_LITERAL_VALUES) else st);
    case VisitView(n) => VisitExplores(q, c, n, st.(status := HASH_LITERAL_VALUES));
    case _ =>
  }

  predicate Fresh(st: State) {
    st.status <= 0 && st.marks == {} && st.lists == {} && !st.met && !st.raised
  }

  /** What a guarded statement leads to when met again it leads to when met first. */
  lemma RevisitLess(cfg: Settings, s: Stmt, f: set<Ref>, l: set<Ref>)
    requires StepsIn(Steps(cfg, s), f, l, true)
    ensures StepsIn(RevisitSteps(s), f, l, true)
  {
    if s.CreateView? || s.CreateTable? {
      assert Steps(cfg, s)[1] == Visit(s.name) == RevisitSteps(s)[1];
    }
  }

  /** A statement that cannot be hashed is met exactly if one can be reached. */
  lemma MetExactly(q: Query, c: Cert, n: Ref, st: State)
    requires WellFormed(q, c) && ChildBelow(q, c, n, c.bound) && Fresh(st)
    ensures VisitStmt(q, c, n, st).met <==> !Hashable(q, n)
  {
    hide Steps, RevisitSteps, WholeSteps, StepsIn;
    var r := VisitStmt(q, c, n, st);
    if !r.met {
      VisitExplores(q, c, n, st);
      forall m ensures ClosedAt(q, r.marks, r.lists, true, m) {
        assert m in r.marks ==> ExploredStmt(q, r.marks, r.lists, m);
        assert m in r.lists ==> ExploredList(q, r.marks, r.lists, m);
        if m in r.marks {
          RevisitLess(q.settings, q.stmts[m], r.marks, r.lists);
        }
      }
      assert Closed(q, r.marks, r.lists, true);
    } else if Hashable(q, n) {
      var f: set<Ref>, l: set<Ref> :| Closed(q, f, l, true) && (n == 0 || n in f);
      VisitClean(q, c, f, l, true, n, st);
    }
  }

  /** If no statement that cannot be hashed can be reached except through the body of a view, the caller
      learns of no failure, although there is one if such a statement can be reached at all. */
  lemma ViewHidesFailure(q: Query, c: Cert, f: set<Ref>, l: set<Ref>, n: Ref, st: State)
    requires WellFormed(q, c) && ChildBelow(q, c, n, c.bound) && Fresh(st) && Closed(q, f, l, false)
        && (n == 0 || n in f)
    ensures VisitStmt(q, c, n, st).status == st.status && (VisitStmt(q, c, n, st).met <==> !Hashable(q, n))
  {
    VisitClean(q, c, f, l, false, n, st);
    VisitStatus(q, c, n, st);
    MetExactly(q, c, n, st);
  }

  // ----- when every failure is reported

  predicate NoView(steps: seq<Step>) {
    forall i :: 0 <= i < |steps| ==> !steps[i].VisitView?
  }

  lemma PairsNoView(pairs: seq<Pair>, tags: seq<Step>)
    requires NoView(tags)
    ensures NoView(PairSteps(pairs, tags))
  {
  }

  lemma ListNoView(values: seq<Ref>, tags: seq<Step>)
    requires NoView(tags)
    ensures NoView(ListSteps(values, tags))
  {
  }

  lemma JoinNoView(items: seq<JoinItem>)
    ensures NoView(JoinSteps(items))
  {
  }

  lemma ColumnsNoView(cfg: Settings, items: seq<ColumnItem>, inTable: bool)
    ensures NoView(ColumnSteps(cfg, items, inTable))
  {
  }

  lemma TypesNoView(types: seq<string>)
    ensures NoView(TypeSteps(types))
  {
  }

  lemma KeywordsNoView(items: seq<KeywordItem>)
    ensures NoView(KeywordSteps(items))
  {
  }

  lemma ValueNoView(cfg: Settings, v: Value)
    ensures NoView(ValueSteps(cfg, v))
  {
  }

  lemma AliasNoView(a: AliasItem)
    ensures NoView(AliasSteps(a))
  {
  }

  lemma AliasesNoView(aliases: seq<AliasItem>)
    ensures NoView(AliasesSteps(aliases))
  {
  }

  /** The kinds with steps for each element of a list. */
  predicate Repeats(s: Stmt) {
    || s.CasBranch? || s.Update? || s.Join? || s.ColumnList? || s.CreateTable? || s.TableValue? || s.ParameterTypes?
    || s.Keyword?
  }

  lemma RepeatsNoView(cfg: Settings, s: Stmt)
    requires Repeats(s)
    ensures NoView(Steps(cfg, s))
  {
    hide PairSteps, ListSteps, JoinSteps, ColumnSteps, TypeSteps, KeywordSteps;
    match s
    case CasBranch(pairs) => PairsNoView(pairs, [Ingest(Tag("cas_branch_STATEMENT"))]);
    case Update(_, _, pairs) => PairsNoView(pairs, []);
    case Join(items) => JoinNoView(items);
    case ColumnList(values) => ListNoView(values, [Ingest(Tag("column_list_STATEMENT"))]);
    case CreateTable(_, items, _, _, _) => ColumnsNoView(cfg, items, true);
    case TableValue(items, rows) =>
      ColumnsNoView(cfg, items, false);
      ListNoView(rows, []);
    case ParameterTypes(types) => TypesNoView(types);
    case Keyword(items) => KeywordsNoView(items);
  }

  /** Only the statement of a view has a step to the body of a view. */
  lemma OthersNoView(cfg: Settings, s: Stmt)
    requires !s.CreateView?
    ensures NoView(Steps(cfg, s))
  {
    if Repeats(s) {
      hide Steps;
      RepeatsNoView(cfg, s);
    } else if s.ValueOf? {
      hide ValueSteps;
      ValueNoView(cfg, s.v);
    } else if s.ColumnListAlias? && s.aliases != [] {
      hide AliasSteps;
      AliasNoView(s.aliases[0]);
    }
  }

  ghost predicate IsView(q: Query, v: Ref) {
    v != 0 && v in q.stmts && q.stmts[v].CreateView?
  }

  /** The bodies of all views can be hashed. */
  ghost predicate BodiesHashable(q: Query) {
    forall v {:trigger IsView(q, v)} :: IsView(q, v) ==> Hashable(q, q.stmts[v].source)
  }

  ghost predicate NamesHashable(q: Query) {
    forall v {:trigger IsView(q, v)} :: IsView(q, v) ==> Hashable(q, q.stmts[v].name)
  }

  ghost predicate ViewsIn(q: Query, steps: seq<Step>) {
    forall i :: 0 <= i < |steps| && steps[i].VisitView? ==> Hashable(q, steps[i].child)
  }

  lemma BodiesIn(q: Query, n: Ref)
    requires BodiesHashable(q) && n != 0 && n in q.stmts
    ensures var s := q.stmts[n];
            ViewsIn(q, Steps(q.settings, s)) && ViewsIn(q, RevisitSteps(s)) && ViewsIn(q, WholeSteps(s))
  {
    hide Hashable, AliasesSteps;
    var s := q.stmts[n];
    if s.ColumnListAlias? {
      AliasesNoView(s.aliases);
    }
    if IsView(q, n) {
      assert Hashable(q, s.source);
    } else {
      hide Steps;
      OthersNoView(q.settings, s);
    }
  }

  lemma {:induction false} VisitRaises(q: Query, c: Cert, n: Ref, st: State)
    requires WellFormed(q, c) && ChildBelow(q, c, n, c.bound) && BodiesHashable(q) && st.met == st.raised
    ensures VisitStmt(q, c, n, st).met == VisitStmt(q, c, n, st).raised
    decreases Unmarked(q, st.marks), if n == 0 then 0 else 2 * c.rank[n] + 2, 0
  {
    hide Steps, RevisitSteps, WholeSteps, BodiesHashable;
    if n != 0 && st.status <= 0 {
      assert StmtWF(q, c, n);
      BodiesIn(q, n);
      var s := q.stmts[n];
      if !Guarded(s) {
        StepsRaise(q, c, Steps(q.settings, s), c.rank[n], st.(marks := st.marks + {n}));
      } else if n in st.marks {
        StepsRaise(q, c, RevisitSteps(s), c.rank[n], st);
      } else {
        assert n in Unmarked(q, st.marks) && n !in Unmarked(q, st.marks + {n});
        StepsRaise(q, c, Steps(q.settings, s), c.bound, st.(marks := st.marks + {n}));
      }
    }
  }

  lemma {:induction false} StepsRaise(q: Query, c: Cert, steps: seq<Step>, b: nat, st: State)
    requires WellFormed(q, c) && b <= c.bound && Below(q, c, steps, b) && BodiesHashable(q) && ViewsIn(q, steps)
    requires st.met == st.raised
    ensures RunSteps(q, c, steps, b, st).met == RunSteps(q, c, steps, b, st).raised
    decreases Unmarked(q, st.marks), 2 * b + 1, |steps| + 1
  {
    if steps != [] {
      var init := steps[..|steps| - 1];
      StepsRaise(q, c, init, b, st);
      StepRaises(q, c, steps[|steps| - 1], b, RunSteps(q, c, init, b, st));
    }
  }

  lemma {:induction false} StepRaises(q: Query, c: Cert, step: Step, b: nat, st: State)
    requires WellFormed(q, c) && b <= c.bound && ChildBelow(q, c, ChildOf(step), b) && BodiesHashable(q)
    requires st.met == st.raised && (step.VisitView? ==> Hashable(q, step.child))
    ensures DoStep(q, c, step, b, st).met == DoStep(q, c, step, b, st).raised
    decreases Unmarked(q, st.marks), 2 * b + 1, 0
  {
    hide WholeSteps, Closed, BodiesHashable;
    match step
    case Visit(n) => VisitRaises(q, c, n, st);
    case VisitList(n) =>
      if n != 0 && st.status <= 0 {
        assert StmtWF(q, c, n);
        BodiesIn(q, n);
        StepsRaise(q, c, WholeSteps(q.stmts[n]), c.rank[n], st.(lists := st.lists + {n}));
      }
    case VisitSaved(n, force) => VisitRaises(q, c, n, if force then st.(status := HASH_LITERAL_VALUES) else st);
    case VisitView(n) =>
      var f: set<Ref>, l: set<Ref> :| Closed(q, f, l, true) && (n == 0 || n in f);
      VisitClean(q, c, f, l, true, n, st.(status := HASH_LITERAL_VALUES));
    case _ =>
  }

  /** Where the bodies of all views can be hashed, the status is abnormal on return exactly if a statement
      that cannot be hashed can be reached. */
  lemma FailureExactly(q: Query, c: Cert, n: Ref, st: State)
    requires WellFormed(q, c) && ChildBelow(q, c, n, c.bound) && Fresh(st) && BodiesHashable(q)
    ensures VisitStmt(q, c, n, st).status == (if Hashable(q, n) then st.status else ABNORMAL_STATUS)
  {
    VisitRaises(q, c, n, st);
    VisitStatus(q, c, n, st);
    MetExactly(q, c, n, st);
  }

  /** What the name of a view leads to, with the view itself, leads elsewhere only by its body. */
  lemma NameCloses(q: Query, f: set<Ref>, l: set<Ref>, v: Ref)
    requires IsView(q, v) && Closed(q, f, l, true) && (q.stmts[v].name == 0 || q.stmts[v].name in f)
    ensures Closed(q, f + {v}, l, false)
  {
    hide WholeSteps;
    forall n ensures ClosedAt(q, f + {v}, l, false, n) {
      assert ClosedAt(q, f, l, true, n);
      if n != v {
        hide Steps, RevisitSteps;
      }
    }
  }

  /** A view whose body cannot be hashed, although its name can, is hashed without an error. */
  lemma ViewUnreported(q: Query, c: Cert, v: Ref, st: State)
    requires WellFormed(q, c) && IsView(q, v) && ChildBelow(q, c, v, c.bound) && Fresh(st)
    requires Hashable(q, q.stmts[v].name) && !Hashable(q, q.stmts[v].source)
    ensures VisitStmt(q, c, v, st).status == st.status && !Hashable(q, v)
  {
    hide Closed, ClosedAt, VisitStmt;
    var view := q.stmts[v];
    var f: set<Ref>, l: set<Ref> :| Closed(q, f, l, true) && (view.name == 0 || view.name in f);
    NameCloses(q, f, l, v);
    ViewHidesFailure(q, c, f + {v}, l, v, st);
    if Hashable(q, v) {
      ViewNeedsBody(q, v);
    }
  }

  lemma ViewNeedsBody(q: Query, v: Ref)
    requires IsView(q, v) && Hashable(q, v)
    ensures Hashable(q, q.stmts[v].source)
  {
    var f: set<Ref>, l: set<Ref> :| Closed(q, f, l, true) && v in f;
    assert ClosedAt(q, f, l, true, v);
    assert StepIn(Steps(q.settings, q.stmts[v])[2], f, l, true);
  }

  /** Hashing `n` by itself reports a failure exactly if there is one. */
  ghost predicate Reports(q: Query, c: Cert, n: Ref)
    requires WellFormed(q, c)
  {
    forall st {:trigger Fresh(st)} :: ChildBelow(q, c, n, c.bound) && Fresh(st) ==>
      VisitStmt(q, c, n, st).status == if Hashable(q, n) then st.status else ABNORMAL_STATUS
  }

  /** Every statement of a query reports its failure if and only if the body of every view can be hashed.
      The name of a view is a value and can. */
  lemma ReportsExactly(q: Query, c: Cert)
    requires WellFormed(q, c) && NamesHashable(q)
    ensures (forall n :: n in q.stmts ==> Reports(q, c, n)) <==> BodiesHashable(q)
  {
    hide Hashable, VisitStmt;
    if BodiesHashable(q) {
      forall n, st | n in q.stmts && ChildBelow(q, c, n, c.bound) && Fresh(st)
        ensures VisitStmt(q, c, n, st).status == if Hashable(q, n) then st.status else ABNORMAL_STATUS
      {
        FailureExactly(q, c, n, st);
      }
    } else {
      var v :| IsView(q, v) && !Hashable(q, q.stmts[v].source);
      assert StmtWF(q, c, v);
      var st := State([], NORMAL, {}, {}, false, false);
      ViewUnreported(q, c, v, st);
      assert Fresh(st) && !Reports(q, c, v);
    }
  }

  /** A view with a name whose body has, below a table alias and a query, a statement that cannot be
      hashed. */
  function HiddenFailure(cfg: Settings, name: string): Query {
    Query(cfg, map[
      1 := CreateView(2, 3),
      2 := ValueOf(Reference("COLUMN_REFERENCE", name)),
      3 := TableAlias(4, 2, 1),
      4 := Select(0, 0, 5, 0, 0, 0, 0),
      5 := Unsupported])
  }

  const HIDDEN_CERT := Cert(map[1 := 1, 2 := 0, 3 := 0, 4 := 1, 5 := 0], 2)

  /** It is hashed without an error, whatever its name. */
  lemma HiddenFailureHappens(cfg: Settings, name: string)
    ensures var q, st := HiddenFailure(cfg, name), State([], NORMAL, {}, {}, false, false);
            WellFormed(q, HIDDEN_CERT) && var r := VisitStmt(q, HIDDEN_CERT, 1, st); r.status == NORMAL && r.met
  {
    var q, st := HiddenFailure(cfg, name), State([], NORMAL, {}, {}, false, false);
    HiddenWellFormed(cfg, name);
    HiddenName(cfg, name);
    HiddenReached(cfg, name);
    ViewUnreported(q, HIDDEN_CERT, 1, st);
    MetExactly(q, HIDDEN_CERT, 1, st);
  }

  lemma HiddenView(cfg: Settings, name: string, n: Ref)
    requires n in {1, 2}
    ensures StmtWF(HiddenFailure(cfg, name), HIDDEN_CERT, n)
  {
  }

  lemma HiddenAlias(cfg: Settings, name: string)
    ensures StmtWF(HiddenFailure(cfg, name), HIDDEN_CERT, 3)
  {
  }

  lemma HiddenBody(cfg: Settings, name: string, n: Ref)
    requires n in {4, 5}
    ensures StmtWF(HiddenFailure(cfg, name), HIDDEN_CERT, n)
  {
  }

  lemma HiddenWellFormed(cfg: Settings, name: string)
    ensures WellFormed(HiddenFailure(cfg, name), HIDDEN_CERT)
  {
    hide Steps, RevisitSteps, WholeSteps, Guarded;
    var q := HiddenFailure(cfg, name);
    forall n ensures StmtWF(q, HIDDEN_CERT, n) {
      if n in {1, 2} {
        HiddenView(cfg, name, n);
      } else if n == 3 {
        HiddenAlias(cfg, name);
      } else if n in {4, 5} {
        HiddenBody(cfg, name, n);
      }
    }
  }

  lemma HiddenName(cfg: Settings, name: string)
    ensures Hashable(HiddenFailure(cfg, name), 2)
  {
    var q := HiddenFailure(cfg, name);
    forall n ensures ClosedAt(q, {2}, {}, true, n) {
    }
    assert Closed(q, {2}, {}, true);
  }

  lemma HiddenReached(cfg: Settings, name: string)
    ensures !Hashable(HiddenFailure(cfg, name), 3)
  {
    hide RevisitSteps, WholeSteps;
    var q := HiddenFailure(cfg, name);
    forall f: set<Ref>, l: set<Ref> | 3 in f ensures !Closed(q, f, l, true) {
      assert ClosedAt(q, f, l, true, 3) && 3 in f ==> StepIn(Steps(cfg, q.stmts[3])[1], f, l, true);
      assert ClosedAt(q, f, l, true, 4) && 4 in f ==> StepIn(Steps(cfg, q.stmts[4])[3], f, l, true);
      assert ClosedAt(q, f, l, true, 5) && 5 in f ==> StepIn(Steps(cfg, q.stmts[5])[0], f, l, true);
    }
  }

  // ----- literals

  /** The same value but for the text of a literal, or the size and scale of a cast that has them. */
  predicate ValueVariant(v: Value, v': Value) {
    || v == v'
    || (v.Literal? && v'.Literal? && v' == Literal(v.ty, v.index, v.dateFormat, v'.text))
    || (v.Coerce? && v'.Coerce? && v' == Coerce(v.dataType, v.isDate, v'.size, v'.scale, v.preType, v.groupBy, v.target)
        && (v.size == UNSPECIFIED <==> v'.size == UNSPECIFIED) && (v.scale == UNSPECIFIED <==> v'.scale == UNSPECIFIED))
  }

  predicate Variant(s: Stmt, s': Stmt) {
    s == s' || (s.ValueOf? && s'.ValueOf? && ValueVariant(s.v, s'.v))
  }

  predicate StepVariant(step: Step, step': Step) {
    step == step' || (step.IngestLiteral? && step'.IngestLiteral?) || (step.IngestSize? && step'.IngestSize?)
  }

  ghost predicate StepsVariant(steps: seq<Step>, steps': seq<Step>) {
    |steps| == |steps'| && forall i :: 0 <= i < |steps| ==> StepVariant(steps[i], steps'[i])
  }

  ghost predicate ChildrenIn(steps: seq<Step>, f: set<Ref>) {
    forall i :: 0 <= i < |steps| ==> ChildOf(steps[i]) == 0 || ChildOf(steps[i]) in f
  }

  /** What is visited with literals hashed is in `f`. */
  ghost predicate ForcedIn(steps: seq<Step>, f: set<Ref>) {
    forall i :: 0 <= i < |steps| && (steps[i].VisitView? || (steps[i].VisitSaved? && steps[i].force))
      ==> ChildOf(steps[i]) == 0 || ChildOf(steps[i]) in f
  }

  ghost predicate AllIn(q: Query, f: set<Ref>, n: Ref) {
    n in q.stmts ==>
      var s := q.stmts[n];
      && ForcedIn(Steps(q.settings, s), f) && ForcedIn(RevisitSteps(s), f) && ForcedIn(WholeSteps(s), f)
      && (n in f ==>
        ChildrenIn(Steps(q.settings, s), f) && ChildrenIn(RevisitSteps(s), f) && ChildrenIn(WholeSteps(s), f))
  }

  /** `f` holds every statement that is ever hashed with its literals: those under an alias, a keyword
      other than LIMIT, or the body of a view. */
  ghost predicate HashedWithLiterals(q: Query, f: set<Ref>) {
    forall n {:trigger AllIn(q, f, n)} :: AllIn(q, f, n)
  }

  ghost predicate VariantAt(q: Query, q': Query, f: set<Ref>, n: Ref) {
    n in q.stmts ==> n in q'.stmts && Variant(q.stmts[n], q'.stmts[n]) && (n in f ==> q.stmts[n] == q'.stmts[n])
  }

  /** The queries differ only in literals that are not hashed. */
  ghost predicate SameButLiterals(q: Query, q': Query, f: set<Ref>) {
    && q'.settings == q.settings && q.stmts.Keys == q'.stmts.Keys
    && forall n {:trigger VariantAt(q, q', f, n)} :: VariantAt(q, q', f, n)
  }

  lemma VariantConcat(a: seq<Step>, a': seq<Step>, b: seq<Step>, b': seq<Step>)
    requires StepsVariant(a, a') && StepsVariant(b, b')
    ensures StepsVariant(a + b, a' + b')
  {
  }

  lemma LiteralVariant(cfg: Settings, v: Value, v': Value)
    requires v.Literal? && v'.Literal? && ValueVariant(v, v')
    ensures StepsVariant(ValueSteps(cfg, v), ValueSteps(cfg, v'))
  {
    var common := [Ingest(Tag("value_STATEMENT"))] + ([Ingest(Tag(FixType(v.ty)))] + NonZero(v.index)
      + (if v.dateFormat.Some? then [Ingest(Tag(v.dateFormat.value)), Ingest(Text(cfg.datestyle))] else []));
    assert ValueSteps(cfg, v) == common + [IngestLiteral(Text(v.text))];
    assert ValueSteps(cfg, v') == common + [IngestLiteral(Text(v'.text))];
    VariantConcat(common, common, [IngestLiteral(Text(v.text))], [IngestLiteral(Text(v'.text))]);
  }

  lemma CoerceVariant(cfg: Settings, v: Value, v': Value)
    requires v.Coerce? && v'.Coerce? && ValueVariant(v, v')
    ensures StepsVariant(ValueSteps(cfg, v), ValueSteps(cfg, v'))
  {
    hide StepsVariant;
    var coerced := [Ingest(Tag("COERCE_TYPE")), Ingest(Tag(v.dataType))];
    var front := [Ingest(Tag("value_STATEMENT"))] + (coerced + NonZero(v.groupBy));
    var back := [Ingest(Tag(v.preType)), Visit(v.target)] + if v.isDate then [Ingest(Text(cfg.datestyle))] else [];
    assert ValueSteps(cfg, v) == front + SizeSteps(v.size) + SizeSteps(v.scale) + back;
    assert ValueSteps(cfg, v') == front + SizeSteps(v'.size) + SizeSteps(v'.scale) + back;
    SameIsVariant(front);
    SizeVariant(v.size, v'.size);
    SizeVariant(v.scale, v'.scale);
    SameIsVariant(back);
    VariantConcat(front, front, SizeSteps(v.size), SizeSteps(v'.size));
    VariantConcat(front + SizeSteps(v.size), front + SizeSteps(v'.size), SizeSteps(v.scale), SizeSteps(v'.scale));
    VariantConcat(front + SizeSteps(v.size) + SizeSteps(v.scale), front + SizeSteps(v'.size) + SizeSteps(v'.scale),
        back, back);
  }

  lemma SameIsVariant(a: seq<Step>)
    ensures StepsVariant(a, a)
  {
  }

  lemma SizeVariant(n: int, n': int)
    requires n == UNSPECIFIED <==> n' == UNSPECIFIED
    ensures StepsVariant(SizeSteps(n), SizeSteps(n'))
  {
  }

  lemma VariantSteps(cfg: Settings, s: Stmt, s': Stmt)
    requires Variant(s, s')
    ensures StepsVariant(Steps(cfg, s), Steps(cfg, s'))
    ensures RevisitSteps(s) == RevisitSteps(s') && WholeSteps(s) == WholeSteps(s') && Guarded(s) == Guarded(s')
  {
    hide ValueSteps;
    if s != s' && s.v.Literal? {
      LiteralVariant(cfg, s.v, s'.v);
    } else if s != s' {
      CoerceVariant(cfg, s.v, s'.v);
    }
  }

  lemma {:induction false} VisitSame(q: Query, q': Query, c: Cert, f: set<Ref>, n: Ref, st: State)
    requires WellFormed(q, c) && WellFormed(q', c) && SameButLiterals(q, q', f) && HashedWithLiterals(q, f)
    requires ChildBelow(q, c, n, c.bound) && (st.status == HASH_LITERAL_VALUES ==> n == 0 || n in f)
    ensures VisitStmt(q, c, n, st) == VisitStmt(q', c, n, st)
    decreases Unmarked(q, st.marks), if n == 0 then 0 else 2 * c.rank[n] + 2, 0
  {
    hide Steps, RevisitSteps, WholeSteps, Guarded, Variant, ForcedIn, ChildrenIn, Below;
    if n != 0 && st.status <= 0 {
      assert StmtWF(q, c, n) && StmtWF(q', c, n) && VariantAt(q, q', f, n) && AllIn(q, f, n);
      var s, s' := q.stmts[n], q'.stmts[n];
      VariantSteps(q.settings, s, s');
      if !Guarded(s) {
        StepsSame(q, q', c, f, Steps(q.settings, s), Steps(q.settings, s'), c.rank[n], st.(marks := st.marks + {n}));
      } else if n in st.marks {
        StepsSame(q, q', c, f, RevisitSteps(s), RevisitSteps(s), c.rank[n], st);
      } else {
        assert n in Unmarked(q, st.marks) && n !in Unmarked(q, st.marks + {n});
        StepsSame(q, q', c, f, Steps(q.settings, s), Steps(q.settings, s'), c.bound, st.(marks := st.marks + {n}));
      }
    }
  }

  lemma {:induction false} StepsSame(q: Query, q': Query, c: Cert, f: set<Ref>, steps: seq<Step>, steps': seq<Step>,
      b: nat, st: State)
    requires WellFormed(q, c) && WellFormed(q', c) && SameButLiterals(q, q', f) && HashedWithLiterals(q, f)
    requires b <= c.bound && Below(q, c, steps, b) && Below(q', c, steps', b) && StepsVariant(steps, steps')
        && ForcedIn(steps, f)
    requires st.status == HASH_LITERAL_VALUES ==> steps == steps' && ChildrenIn(steps, f)
    ensures RunSteps(q, c, steps, b, st) == RunSteps(q', c, steps', b, st)
    decreases Unmarked(q, st.marks), 2 * b + 1, |steps| + 1
  {
    if steps != [] {
      var init, init' := steps[..|steps| - 1], steps'[..|steps| - 1];
      StepsSame(q, q', c, f, init, init', b, st);
      StepsStatus(q, c, init, b, st);
      StepSame(q, q', c, f, steps[|steps| - 1], steps'[|steps| - 1], b, RunSteps(q, c, init, b, st));
    }
  }

  lemma {:induction false} StepSame(q: Query, q': Query, c: Cert, f: set<Ref>, step: Step, step': Step, b: nat,
      st: State)
    requires WellFormed(q, c) && WellFormed(q', c) && SameButLiterals(q, q', f) && HashedWithLiterals(q, f)
    requires b <= c.bound && ChildBelow(q, c, ChildOf(step), b) && ChildBelow(q', c, ChildOf(step'), b)
    requires StepVariant(step, step') && ForcedIn([step], f)
    requires st.status == HASH_LITERAL_VALUES ==> step == step' && ChildrenIn([step], f)
    ensures DoStep(q, c, step, b, st) == DoStep(q', c, step', b, st)
    decreases Unmarked(q, st.marks), 2 * b + 1, 0
  {
    hide Steps, RevisitSteps, WholeSteps, Variant, Below;
    assert [step][0] == step;
    match step
    case Visit(n) => VisitSame(q, q', c, f, n, st);
    case VisitList(n) =>
      if n != 0 && st.status <= 0 {
        assert StmtWF(q, c, n) && StmtWF(q', c, n) && VariantAt(q, q', f, n) && AllIn(q, f, n);
        VariantSteps(q.settings, q.stmts[n], q'.stmts[n]);
        var whole := WholeSteps(q.stmts[n]);
        StepsSame(q, q', c, f, whole, whole, c.rank[n], st.(lists := st.lists + {n}));
      }
    case VisitSaved(n, force) => VisitSame(q, q', c, f, n, if force then st.(status := HASH_LITERAL_VALUES) else st);
    case VisitView(n) => VisitSame(q, q', c, f, n, st.(status := HASH_LITERAL_VALUES));
    case _ =>
  }

  lemma VariantWellFormed(q: Query, q': Query, c: Cert, f: set<Ref>)
    requires WellFormed(q, c) && SameButLiterals(q, q', f)
    ensures WellFormed(q', c)
  {
    hide Steps, RevisitSteps, WholeSteps, Guarded, Variant;
    forall n ensures StmtWF(q', c, n) {
      assert StmtWF(q, c, n) && VariantAt(q, q', f, n);
      if n in q.stmts {
        VariantSteps(q.settings, q.stmts[n], q'.stmts[n]);
        forall i | 0 <= i < |Steps(q.settings, q.stmts[n])|
          ensures ChildOf(Steps(q.settings, q.stmts[n])[i]) == ChildOf(Steps(q.settings, q'.stmts[n])[i])
        {
          assert StepVariant(Steps(q.settings, q.stmts[n])[i], Steps(q.settings, q'.stmts[n])[i]);
        }
      }
    }
  }

  /** Queries that differ only in literals, outside aliases, keywords other than LIMIT and the bodies of
      views, ingest the same and so share a plan. */
  lemma SamePlan(q: Query, q': Query, c: Cert, f: set<Ref>, root: Ref, st: State)
    requires WellFormed(q, c) && SameButLiterals(q, q', f) && HashedWithLiterals(q, f)
    requires ChildBelow(q, c, root, c.bound) && st.status == NORMAL
    ensures WellFormed(q', c) && VisitStmt(q, c, root, st).trace == VisitStmt(q', c, root, st).trace
  {
    VariantWellFormed(q, q', c, f);
    VisitSame(q, q', c, f, root, st);
  }

  // ----- the key of a function

  /** What a call ingests to find the definition of its function: the name, and the types of the
      arguments. */
  function CallTrace(ty: string, name: string, types: seq<string>): seq<Token> {
    [Tag("value_STATEMENT"), Tag(ty), Text(name)] + seq(|types|, i requires 0 <= i < |types| => Tag(types[i]))
  }

  function Ingests(tokens: seq<Token>): seq<Step> {
    seq(|tokens|, i requires 0 <= i < |tokens| => Ingest(tokens[i]))
  }

  lemma {:induction false} IngestAll(q: Query, c: Cert, tokens: seq<Token>, b: nat, st: State)
    requires WellFormed(q, c) && b <= c.bound
    ensures Below(q, c, Ingests(tokens), b) && RunSteps(q, c, Ingests(tokens), b, st) == st.(trace := st.trace + tokens)
  {
    if tokens == [] {
      assert st.trace + tokens == st.trace;
    } else {
      var init := tokens[..|tokens| - 1];
      IngestAll(q, c, init, b, st);
      assert Ingests(tokens)[..|tokens| - 1] == Ingests(init);
      assert st.trace + init + [tokens[|tokens| - 1]] == st.trace + tokens;
    }
  }

  lemma {:induction false} TypeStepsIngest(types: seq<string>)
    ensures TypeSteps(types) == Ingests(seq(|types|, i requires 0 <= i < |types| => Tag(types[i])))
  {
    if types != [] {
      TypeStepsIngest(types[1..]);
    }
  }

  /** A statement that only ingests. */
  lemma VisitLeaf(q: Query, c: Cert, n: Ref, tokens: seq<Token>, st: State)
    requires WellFormed(q, c) && n != 0 && ChildBelow(q, c, n, c.bound) && st.status <= 0
    requires !Guarded(q.stmts[n]) && Steps(q.settings, q.stmts[n]) == Ingests(tokens)
    ensures VisitStmt(q, c, n, st) == st.(trace := st.trace + tokens, marks := st.marks + {n})
  {
    hide Steps;
    assert StmtWF(q, c, n);
    IngestAll(q, c, tokens, c.rank[n], st.(marks := st.marks + {n}));
  }

  /** What a literal ingests besides its text. */
  function LiteralHead(cfg: Settings, v: Value): seq<Token>
    requires v.Literal?
  {
    [Tag("value_STATEMENT"), Tag(FixType(v.ty))] + (if v.index != 0 then [Number(v.index)] else [])
    + if v.dateFormat.Some? then [Tag(v.dateFormat.value), Text(cfg.datestyle)] else []
  }

  /** The text of a literal is ingested exactly if literals are hashed. */
  lemma LiteralTrace(q: Query, c: Cert, n: Ref, st: State)
    requires WellFormed(q, c) && n != 0 && ChildBelow(q, c, n, c.bound) && st.status <= 0
    requires q.stmts[n].ValueOf? && q.stmts[n].v.Literal?
    ensures VisitStmt(q, c, n, st).trace
         == st.trace + LiteralHead(q.settings, q.stmts[n].v)
            + if st.status == HASH_LITERAL_VALUES then [Text(q.stmts[n].v.text)] else []
  {
    assert StmtWF(q, c, n);
    var v, marked, b := q.stmts[n].v, st.(marks := st.marks + {n}), c.rank[n];
    var head, last := Ingests(LiteralHead(q.settings, v)), IngestLiteral(Text(v.text));
    assert Steps(q.settings, q.stmts[n]) == head + [last];
    IngestAll(q, c, LiteralHead(q.settings, v), b, marked);
    assert (head + [last])[..|head|] == head;
    assert RunSteps(q, c, head + [last], b, marked) == DoStep(q, c, last, b, RunSteps(q, c, head, b, marked));
  }

  /** A statement that only visits two others. */
  lemma VisitBoth(q: Query, c: Cert, n: Ref, x: Ref, y: Ref, st: State)
    requires WellFormed(q, c) && n != 0 && ChildBelow(q, c, n, c.bound) && st.status <= 0
    requires !Guarded(q.stmts[n]) && Steps(q.settings, q.stmts[n]) == [Visit(x), Visit(y)]
    ensures ChildBelow(q, c, x, c.bound) && ChildBelow(q, c, y, c.bound)
    ensures VisitStmt(q, c, n, st) == VisitStmt(q, c, y, VisitStmt(q, c, x, st.(marks := st.marks + {n})))
  {
    hide Steps;
    assert StmtWF(q, c, n);
    var steps, marked, b := [Visit(x), Visit(y)], st.(marks := st.marks + {n}), c.rank[n];
    assert ChildBelow(q, c, ChildOf(steps[0]), b) && ChildBelow(q, c, ChildOf(steps[1]), b);
    assert RunSteps(q, c, steps[..1][..0], b, marked) == marked;
    assert RunSteps(q, c, steps[..1], b, marked) == DoStep(q, c, Visit(x), b, marked);
    assert RunSteps(q, c, steps, b, marked) == DoStep(q, c, Visit(y), b, RunSteps(q, c, steps[..1], b, marked));
  }

  /** Statement `n` creates or drops the function with this name and these parameter types. */
  ghost predicate Defines(q: Query, n: Ref, ty: string, name: string, types: seq<string>) {
    && n in q.stmts && (q.stmts[n].CreateFunction? || q.stmts[n].DropFunction?)
    && var s := q.stmts[n];
    && s.name != 0 && s.name in q.stmts && q.stmts[s.name] == ValueOf(Reference(ty, name))
    && (if types == [] then s.parameterTypes == 0
        else s.parameterTypes != 0 && s.parameterTypes in q.stmts && q.stmts[s.parameterTypes] == ParameterTypes(types))
  }

  lemma NameTrace(q: Query, c: Cert, n: Ref, ty: string, name: string, st: State)
    requires WellFormed(q, c) && n != 0 && ChildBelow(q, c, n, c.bound) && st.status <= 0
        && q.stmts[n] == ValueOf(Reference(ty, name))
    ensures VisitStmt(q, c, n, st) ==
            st.(trace := st.trace + [Tag("value_STATEMENT"), Tag(ty), Text(name)], marks := st.marks + {n})
  {
    var tags := [Tag("value_STATEMENT"), Tag(ty), Text(name)];
    assert ValueSteps(q.settings, Reference(ty, name)) == Ingests(tags);
    VisitLeaf(q, c, n, tags, st);
  }

  lemma TypesTrace(q: Query, c: Cert, n: Ref, types: seq<string>, st: State)
    requires WellFormed(q, c) && ChildBelow(q, c, n, c.bound) && st.status <= 0
    requires if types == [] then n == 0 else n != 0 && q.stmts[n] == ParameterTypes(types)
    ensures VisitStmt(q, c, n, st).trace == st.trace + seq(|types|, i requires 0 <= i < |types| => Tag(types[i]))
  {
    if types != [] {
      TypeStepsIngest(types);
      VisitLeaf(q, c, n, seq(|types|, i requires 0 <= i < |types| => Tag(types[i])), st);
    }
  }

  /** CREATE FUNCTION and DROP FUNCTION ingest the name and the types. */
  lemma FunctionKey(q: Query, c: Cert, n: Ref, ty: string, name: string, types: seq<string>, st: State)
    requires WellFormed(q, c) && n != 0 && ChildBelow(q, c, n, c.bound) && st.status <= 0
        && Defines(q, n, ty, name, types)
    ensures VisitStmt(q, c, n, st).trace == st.trace + CallTrace(ty, name, types)
  {
    var s, marked := q.stmts[n], st.(marks := st.marks + {n});
    VisitBoth(q, c, n, s.name, s.parameterTypes, st);
    hide Steps;
    NameTrace(q, c, s.name, ty, name, marked);
    TypesTrace(q, c, s.parameterTypes, types, VisitStmt(q, c, s.name, marked));
  }

  /** The members of the enumeration that is ingested for a type. */
  function TypeName(t: O.ValueType): string {
    match t
    case Boolean => "BOOLEAN_VALUE"
    case Integer => "INTEGER_LITERAL"
    case Numeric => "NUMERIC_LITERAL"
    case String => "STRING_LITERAL"
    case Null => "NUL_VALUE"
    case Date => "DATE_LITERAL"
    case Time => "TIME_LITERAL"
    case TimeTz => "TIME_WITH_TIME_ZONE_LITERAL"
    case Timestamp => "TIMESTAMP_LITERAL"
    case TimestampTz => "TIMESTAMP_WITH_TIME_ZONE_LITERAL"
  }

  function TypeNames(types: seq<O.ValueType>): seq<string> {
    seq(|types|, i requires 0 <= i < |types| => TypeName(types[i]))
  }

  lemma TypeNamesDiffer(t: O.ValueType, t': O.ValueType)
    requires TypeName(t) == TypeName(t')
    ensures t == t'
  {
  }

  /** Functions ingest the same if and only if they have the same name and the same types. */
  lemma KeysDiffer(ty: string, name: string, types: seq<O.ValueType>, name': string, types': seq<O.ValueType>)
    ensures CallTrace(ty, name, TypeNames(types)) == CallTrace(ty, name', TypeNames(types')) <==>
            name == name' && types == types'
  {
    hide TypeName;
    var t, t' := CallTrace(ty, name, TypeNames(types)), CallTrace(ty, name', TypeNames(types'));
    if t == t' {
      assert t[2] == Text(name) && t'[2] == Text(name') && |t| == |types| + 3 && |t'| == |types'| + 3;
      forall i | 0 <= i < |types| ensures types[i] == types'[i] {
        assert t[i + 3] == Tag(TypeName(types[i])) && t'[i + 3] == Tag(TypeName(types'[i]));
        TypeNamesDiffer(types[i], types'[i]);
      }
    }
  }

  /** What a call ingests is what the CREATE FUNCTION, and the DROP FUNCTION, of the same name and types
      ingest; NULL counts as a string. */
  method CallKey(ty: string, name: string, args: seq<O.ValueType>, ghost q: Query, ghost c: Cert, ghost n: Ref,
      ghost st: State)
    returns (trace: seq<Token>)
    requires WellFormed(q, c) && n != 0 && ChildBelow(q, c, n, c.bound)
    requires Defines(q, n, ty, name, TypeNames(O.Exact(args))) && Fresh(st) && st.trace == []
    ensures trace == VisitStmt(q, c, n, st).trace
  {
    ghost var types := TypeNames(O.Exact(args));
    trace := [Tag("value_STATEMENT"), Tag(ty), Text(name)];
    var i := 0;
    while i < |args|
      invariant i <= |args| && trace == CallTrace(ty, name, types[..i])
    {
      var argType := args[i];
      if argType.Null? {
        argType := O.String;
      }
      trace := trace + [Tag(TypeName(argType))];
      i := i + 1;
    }
    assert types[..i] == types;
    FunctionKey(q, c, n, ty, name, types, st);
  }

  // ----- the code

  /** Hashes statements: a trace in place of the state of the hash, the status and the marks. */
  class Hasher {
    const q: Query
    var trace: seq<Token>
    var status: int
    var marks: set<Ref>
    ghost var lists: set<Ref>
    ghost var met: bool
    ghost var raised: bool

    constructor (q: Query, status: int)
      ensures this.q == q && Now() == State([], status, {}, {}, false, false)
    {
      this.q, trace, this.status, marks := q, [], status, {};
      lists, met, raised := {}, false, false;
    }

    ghost function Now(): State
      reads this
    {
      State(trace, status, marks, lists, met, raised)
    }

    /** Ends on every well-formed graph and keeps the status unless it fails. */
    method HashCanonicalQuery(n: Ref, ghost c: Cert)
      requires WellFormed(q, c) && ChildBelow(q, c, n, c.bound)
      modifies this
      ensures Now() == VisitStmt(q, c, n, old(Now())) && StatusKept(old(Now()), Now())
      decreases Unmarked(q, marks), if n == 0 then 0 else 2 * c.rank[n] + 2, 0
    {
      VisitStatus(q, c, n, Now());
      if n == 0 || status > 0 {
        return;
      }
      assert StmtWF(q, c, n);
      var s := q.stmts[n];
      if Guarded(s) && n in marks {
        HashSteps(RevisitSteps(s), c, c.rank[n]);
        return;
      }
      marks := marks + {n};
      assert Guarded(s) ==> n in Unmarked(q, old(marks)) && n !in Unmarked(q, marks);
      HashSteps(Steps(q.settings, s), c, if Guarded(s) then c.bound else c.rank[n]);
    }

    method HashSteps(steps: seq<Step>, ghost c: Cert, ghost b: nat)
      requires WellFormed(q, c) && b <= c.bound && Below(q, c, steps, b)
      modifies this
      ensures Now() == RunSteps(q, c, steps, b, old(Now()))
      decreases Unmarked(q, marks), 2 * b + 1, 1
    {
      var i := 0;
      while i < |steps|
        invariant i <= |steps| && Now() == RunSteps(q, c, steps[..i], b, old(Now()))
      {
        assert steps[..i + 1][..i] == steps[..i];
        assert Unmarked(q, marks) <= Unmarked(q, old(marks));
        HashStep(steps[i], c, b);
        i := i + 1;
      }
      assert steps[..i] == steps;
    }

    method HashStep(step: Step, ghost c: Cert, ghost b: nat)
      requires WellFormed(q, c) && b <= c.bound && ChildBelow(q, c, ChildOf(step), b)
      modifies this
      ensures Now() == DoStep(q, c, step, b, old(Now()))
      decreases Unmarked(q, marks), 2 * b + 1, 0
    {
      match step
      case Ingest(t) => trace := trace + [t];
      case IngestLiteral(t) =>
        if status == HASH_LITERAL_VALUES {
          trace := trace + [t];
        }
      case IngestSize(n) => trace := trace + [Number(if status == HASH_LITERAL_VALUES then n else UNSPECIFIED)];
      case Visit(n) => HashCanonicalQuery(n, c);
      case VisitList(n) =>
        if n != 0 && status <= 0 {
          assert StmtWF(q, c, n);
          lists := lists + {n};
          HashSteps(WholeSteps(q.stmts[n]), c, c.rank[n]);
        }
      case VisitSaved(n, force) =>
        var save := status;
        if force {
          status := HASH_LITERAL_VALUES;
        }
        HashCanonicalQuery(n, c);
        if status == HASH_LITERAL_VALUES {
          status := save;
        }
      case VisitView(n) =>
        var save := status;
        ghost var outside := raised;
        status := HASH_LITERAL_VALUES;
        HashCanonicalQuery(n, c);
        status := save;
        raised := outside;
      case Reject =>
        status := ABNORMAL_STATUS;
        met, raised := true, true;
    }
  }
}
