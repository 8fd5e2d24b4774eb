/**
 What the hash of a query tells apart: a statement with another hashed member ingests something else,
 whatever its children are, and every child is visited.
 */
module HashTells {
  import opened Common
  import opened QueryHash
  import opened PlanHash

  // ----- two runs side by side

  /** States that the rest of a run cannot tell apart: marks count only for the kinds that are guarded, and
      neither what was ingested nor the lists walked counts. */
  ghost predicate Alike(q: Query, st: State, st': State) {
    && st'.status == st.status && st'.met == st.met && st'.raised == st.raised
    && forall x {:trigger SameMark(q, st, st', x)} :: SameMark(q, st, st', x)
  }

  ghost predicate SameMark(q: Query, st: State, st': State, x: Ref) {
    x in q.stmts && Guarded(q.stmts[x]) ==> (x in st.marks <==> x in st'.marks)
  }

  /** Both traces grow, by as many tokens. */
  ghost predicate Grows(st: State, r: State, st': State, r': State) {
    && |st.trace| <= |r.trace| && r.trace[..|st.trace|] == st.trace
    && |st'.trace| <= |r'.trace| && r'.trace[..|st'.trace|] == st'.trace
    && |r.trace| - |st.trace| == |r'.trace| - |st'.trace|
  }

  /** The same steps but for the tokens ingested. */
  ghost predicate StepsAlike(steps: seq<Step>, steps': seq<Step>) {
    |steps'| == |steps| && forall i :: 0 <= i < |steps| ==> StepAlike(steps[i], steps'[i])
  }

  ghost predicate StepAlike(step: Step, step': Step) {
    step' == step || (step.Ingest? && step'.Ingest?)
  }

  ghost predicate TwinAt(q: Query, q': Query, n: Ref, x: Ref) {
    (x in q'.stmts <==> x in q.stmts) && (x in q.stmts && x != n ==> q'.stmts[x] == q.stmts[x])
  }

  /** One query, or two that differ in the guarded statement `n` only. */
  ghost predicate Twins(q: Query, q': Query, n: Ref) {
    && q'.settings == q.settings && (forall x {:trigger TwinAt(q, q', n, x)} :: TwinAt(q, q', n, x))
    && (q' != q ==>
          && n in q.stmts && n in q'.stmts && Guarded(q.stmts[n]) && Guarded(q'.stmts[n])
          && StepsAlike(RevisitSteps(q.stmts[n]), RevisitSteps(q'.stmts[n])))
  }

  lemma GrowsTwice(st: State, m: State, r: State, st': State, m': State, r': State)
    requires Grows(st, m, st', m') && Grows(m, r, m', r')
    ensures Grows(st, r, st', r')
  {
    assert r.trace[..|st.trace|] == r.trace[..|m.trace|][..|st.trace|];
    assert r'.trace[..|st'.trace|] == r'.trace[..|m'.trace|][..|st'.trace|];
  }

  lemma {:induction false} VisitTwice(q: Query, q': Query, c: Cert, n: Ref, x: Ref, st: State, st': State)
    requires WellFormed(q, c) && WellFormed(q', c) && ChildBelow(q, c, x, c.bound) && ChildBelow(q', c, x, c.bound)
    requires Twins(q, q', n) && Alike(q, st, st') && (q' != q ==> n in st.marks && n in st'.marks)
    ensures var r, r' := VisitStmt(q, c, x, st), VisitStmt(q', c, x, st');
            Alike(q, r, r') && Grows(st, r, st', r')
    decreases Unmarked(q, st.marks), if x == 0 then 0 else 2 * c.rank[x] + 2, 0
  {
    hide Steps, RevisitSteps, WholeSteps, StepsAlike;
    if x != 0 && st.status <= 0 {
      assert StmtWF(q, c, x) && StmtWF(q', c, x) && TwinAt(q, q', n, x) && SameMark(q, st, st', x);
      var s, s' := q.stmts[x], q'.stmts[x];
      var m, m' := st.(marks := st.marks + {x}), st'.(marks := st'.marks + {x});
      forall y ensures SameMark(q, m, m', y) {
        assert SameMark(q, st, st', y);
      }
      if !Guarded(s) {
        SelfAlike(Steps(q.settings, s));
        StepsTwice(q, q', c, n, Steps(q.settings, s), Steps(q.settings, s), c.rank[x], c.rank[x], m, m');
      } else if x in st.marks {
        SelfAlike(RevisitSteps(s));
        StepsTwice(q, q', c, n, RevisitSteps(s), RevisitSteps(s'), c.rank[x], c.rank[x], st, st');
      } else {
        assert x in Unmarked(q, st.marks) && x !in Unmarked(q, st.marks + {x});
        SelfAlike(Steps(q.settings, s));
        StepsTwice(q, q', c, n, Steps(q.settings, s), Steps(q.settings, s), c.bound, c.bound, m, m');
      }
    }
  }

  lemma SelfAlike(steps: seq<Step>)
    ensures StepsAlike(steps, steps)
  {
  }

  lemma {:induction false} StepsTwice(q: Query, q': Query, c: Cert, n: Ref, steps: seq<Step>,
      steps': seq<Step>, b: nat, b': nat, st: State, st': State)
    requires WellFormed(q, c) && WellFormed(q', c) && b <= c.bound && b' <= c.bound
    requires Below(q, c, steps, b) && Below(q', c, steps', b') && StepsAlike(steps, steps')
    requires Twins(q, q', n) && Alike(q, st, st') && (q' != q ==> n in st.marks && n in st'.marks)
    ensures var r, r' := RunSteps(q, c, steps, b, st), RunSteps(q', c, steps', b', st');
            Alike(q, r, r') && Grows(st, r, st', r')
    decreases Unmarked(q, st.marks), 2 * b + 1, |steps| + 1
  {
    hide Alike, Twins;
    if steps != [] {
      var k := |steps| - 1;
      StepsTwice(q, q', c, n, steps[..k], steps'[..k], b, b', st, st');
      var m, m' := RunSteps(q, c, steps[..k], b, st), RunSteps(q', c, steps'[..k], b', st');
      assert StepAlike(steps[k], steps'[k]);
      StepTwice(q, q', c, n, steps[k], steps'[k], b, b', m, m');
      GrowsTwice(st, m, DoStep(q, c, steps[k], b, m), st', m', DoStep(q', c, steps'[k], b', m'));
    }
  }

  lemma {:induction false} StepTwice(q: Query, q': Query, c: Cert, n: Ref, step: Step, step': Step,
      b: nat, b': nat, st: State, st': State)
    requires WellFormed(q, c) && WellFormed(q', c) && b <= c.bound && b' <= c.bound
    requires ChildBelow(q, c, ChildOf(step), b) && ChildBelow(q', c, ChildOf(step'), b')
    requires Twins(q, q', n) && StepAlike(step, step')
    requires Alike(q, st, st') && (q' != q ==> n in st.marks && n in st'.marks)
    ensures var r, r' := DoStep(q, c, step, b, st), DoStep(q', c, step', b', st');
            Alike(q, r, r') && Grows(st, r, st', r')
    decreases Unmarked(q, st.marks), 2 * b + 1, 0
  {
    hide WholeSteps, RevisitSteps, Steps, StepsAlike, Alike, Twins, SameMark;
    assert st'.status == st.status && st'.raised == st.raised by {
      AlikeStatus(q, st, st');
    }
    match step
    case Visit(x) => VisitTwice(q, q', c, n, x, st, st');
    case VisitList(x) =>
      if x != 0 && st.status <= 0 {
        NoList(q, q', n, x);
        assert StmtWF(q, c, x) && StmtWF(q', c, x);
        var m, m' := st.(lists := st.lists + {x}), st'.(lists := st'.lists + {x});
        ListAlike(q, st, st', x);
        StepsTwice(q, q', c, n, WholeSteps(q.stmts[x]), WholeSteps(q'.stmts[x]), c.rank[x], c.rank[x], m, m');
      }
    case VisitSaved(x, force) =>
      var m, m' := if force then st.(status := HASH_LITERAL_VALUES) else st,
                   if force then st'.(status := HASH_LITERAL_VALUES) else st';
      ModeAlike(q, st, st', HASH_LITERAL_VALUES);
      VisitTwice(q, q', c, n, x, m, m');
      AlikeStatus(q, VisitStmt(q, c, x, m), VisitStmt(q', c, x, m'));
      ModeAlike(q, VisitStmt(q, c, x, m), VisitStmt(q', c, x, m'), st.status);
    case VisitView(x) =>
      ModeAlike(q, st, st', HASH_LITERAL_VALUES);
      var m, m' := st.(status := HASH_LITERAL_VALUES), st'.(status := HASH_LITERAL_VALUES);
      VisitTwice(q, q', c, n, x, m, m');
      ModeAlike(q, VisitStmt(q, c, x, m), VisitStmt(q', c, x, m'), st.status);
    case Reject => RejectAlike(q, st, st');
    case _ => TraceAlike(q, st, st', DoStep(q, c, step, b, st).trace, DoStep(q', c, step', b', st').trace);
  }

  lemma AlikeStatus(q: Query, st: State, st': State)
    requires Alike(q, st, st')
    ensures st'.status == st.status && st'.raised == st.raised
  {
  }

  lemma TraceAlike(q: Query, st: State, st': State, trace: seq<Token>, trace': seq<Token>)
    requires Alike(q, st, st')
    ensures Alike(q, st.(trace := trace), st'.(trace := trace'))
  {
    forall y ensures SameMark(q, st.(trace := trace), st'.(trace := trace'), y) {
      assert SameMark(q, st, st', y);
    }
  }

  lemma RejectAlike(q: Query, st: State, st': State)
    requires Alike(q, st, st')
    ensures var r := st.(status := ABNORMAL_STATUS, met := true, raised := true);
            var r' := st'.(status := ABNORMAL_STATUS, met := true, raised := true);
            Alike(q, r, r')
  {
    var r := st.(status := ABNORMAL_STATUS, met := true, raised := true);
    var r' := st'.(status := ABNORMAL_STATUS, met := true, raised := true);
    forall y ensures SameMark(q, r, r', y) {
      assert SameMark(q, st, st', y);
    }
  }

  lemma ModeAlike(q: Query, st: State, st': State, status: int)
    requires Alike(q, st, st')
    ensures Alike(q, st.(status := status), st'.(status := status))
    ensures Alike(q, st.(status := status, raised := false), st'.(status := status, raised := false))
    ensures Alike(q, st.(status := status, raised := true), st'.(status := status, raised := true))
  {
    forall y ensures SameMark(q, st.(status := status), st'.(status := status), y) {
      assert SameMark(q, st, st', y);
    }
    forall y, b ensures SameMark(q, st.(status := status, raised := b), st'.(status := status, raised := b), y) {
      assert SameMark(q, st, st', y);
    }
  }

  lemma ListAlike(q: Query, st: State, st': State, x: Ref)
    requires Alike(q, st, st')
    ensures Alike(q, st.(lists := st.lists + {x}), st'.(lists := st'.lists + {x}))
  {
    forall y ensures SameMark(q, st.(lists := st.lists + {x}), st'.(lists := st'.lists + {x}), y) {
      assert SameMark(q, st, st', y);
    }
  }

  /** A guarded statement is no list of columns. */
  lemma NoList(q: Query, q': Query, n: Ref, x: Ref)
    requires Twins(q, q', n) && x in q.stmts
    ensures x in q'.stmts && StepsAlike(WholeSteps(q.stmts[x]), WholeSteps(q'.stmts[x]))
  {
    assert TwinAt(q, q', n, x);
  }

  lemma {:induction false} RunConcat(q: Query, c: Cert, a: seq<Step>, a': seq<Step>, b: nat, st: State)
    requires WellFormed(q, c) && b <= c.bound && Below(q, c, a, b) && Below(q, c, a', b)
    ensures Below(q, c, a + a', b)
    ensures RunSteps(q, c, a + a', b, st) == RunSteps(q, c, a', b, RunSteps(q, c, a, b, st))
    decreases |a'|
  {
    if a' == [] {
      assert a + a' == a;
    } else {
      var k := |a'| - 1;
      RunConcat(q, c, a, a'[..k], b, st);
      assert (a + a')[..|a + a'| - 1] == a + a'[..k];
    }
  }

  lemma AlikeSelf(q: Query, st: State)
    ensures Alike(q, st, st)
  {
  }

  lemma RunGrows(q: Query, c: Cert, steps: seq<Step>, b: nat, st: State)
    requires WellFormed(q, c) && b <= c.bound && Below(q, c, steps, b)
    ensures var r := RunSteps(q, c, steps, b, st);
            |st.trace| <= |r.trace| && r.trace[..|st.trace|] == st.trace
  {
    hide RunSteps;
    AlikeSelf(q, st);
    SelfAlike(steps);
    assert Twins(q, q, 0);
    StepsTwice(q, q, c, 0, steps, steps, b, b, st, st);
  }

  // ----- steps that tell

  predicate Emitting(step: Step) {
    step.Ingest? || step.IngestSize?
  }

  /** `x` are some steps that ingest, and then those of `y`. */
  ghost predicate Extra(x: seq<Step>, y: seq<Step>) {
    |y| < |x| && x[|x| - |y|..] == y && forall i :: 0 <= i < |x| - |y| ==> Emitting(x[i])
  }

  /** The steps are the same up to `k`, where another token is ingested, or one more. */
  ghost predicate TellsAt(a: seq<Step>, a': seq<Step>, k: nat) {
    && k <= |a| && k <= |a'| && a[..k] == a'[..k]
    && (|| (k < |a| && k < |a'| && a[k].Ingest? && a'[k].Ingest? && a[k] != a'[k])
        || Extra(a[k..], a'[k..]) || Extra(a'[k..], a[k..]))
  }

  ghost predicate Tells(a: seq<Step>, a': seq<Step>) {
    exists k: nat :: TellsAt(a, a', k)
  }

  lemma {:induction false} EmitRun(q: Query, c: Cert, x: seq<Step>, b: nat, st: State)
    requires WellFormed(q, c) && b <= c.bound && forall i :: 0 <= i < |x| ==> Emitting(x[i])
    ensures Below(q, c, x, b)
    ensures var r := RunSteps(q, c, x, b, st); r == st.(trace := r.trace) && |r.trace| == |st.trace| + |x|
  {
    if x != [] {
      EmitRun(q, c, x[..|x| - 1], b, st);
    }
  }

  lemma BelowPart(q: Query, c: Cert, a: seq<Step>, b: nat, k: nat, l: nat)
    requires Below(q, c, a, b) && k <= l <= |a|
    ensures Below(q, c, a[k..l], b)
  {
    forall i | 0 <= i < |a[k..l]| ensures ChildBelow(q, c, ChildOf(a[k..l][i]), b) {
      assert a[k..l][i] == a[k + i];
    }
  }

  /** What is ingested at step `k`. */
  lemma IngestedAt(q: Query, c: Cert, a: seq<Step>, b: nat, k: nat, st: State)
    requires WellFormed(q, c) && b <= c.bound && Below(q, c, a, b) && k < |a| && a[k].Ingest?
    ensures Below(q, c, a[..k], b)
    ensures var m, r := RunSteps(q, c, a[..k], b, st), RunSteps(q, c, a, b, st);
            |m.trace| < |r.trace| && r.trace[|m.trace|] == a[k].token
  {
    BelowPart(q, c, a, b, 0, k);
    BelowPart(q, c, a, b, 0, k + 1);
    BelowPart(q, c, a, b, k + 1, |a|);
    assert a[0..k] == a[..k] && a[..k + 1][..k] == a[..k] && a == a[..k + 1] + a[k + 1..] && a[0..k + 1] == a[..k + 1];
    var m := RunSteps(q, c, a[..k], b, st);
    var m1 := RunSteps(q, c, a[..k + 1], b, st);
    assert m1 == DoStep(q, c, a[k], b, m);
    assert a[k + 1..|a|] == a[k + 1..];
    RunConcat(q, c, a[..k + 1], a[k + 1..], b, st);
    RunGrows(q, c, a[k + 1..], b, m1);
    var r := RunSteps(q, c, a, b, st);
    assert r.trace[|m.trace|] == r.trace[..|m1.trace|][|m.trace|];
  }

  /** One run ingests more than the other. */
  lemma IngestedMore(q: Query, q': Query, c: Cert, n: Ref, x: seq<Step>, y: seq<Step>, b: nat, b': nat, m: State,
      m': State)
    requires WellFormed(q, c) && WellFormed(q', c) && b <= c.bound && b' <= c.bound
    requires Below(q, c, x, b) && Below(q', c, y, b') && Extra(x, y)
    requires Twins(q, q', n) && Alike(q, m, m') && (q' != q ==> n in m.marks && n in m'.marks)
    requires |m.trace| >= |m'.trace|
    ensures |RunSteps(q, c, x, b, m).trace| > |RunSteps(q', c, y, b', m').trace|
  {
    var k := |x| - |y|;
    var head := x[..k];
    assert forall i :: 0 <= i < |head| ==> Emitting(head[i]);
    assert x == head + y && x[k..|x|] == y;
    hide Alike, Twins, RunSteps, Below, WellFormed, Extra, StepsAlike;
    EmitRun(q, c, head, b, m);
    var mx := RunSteps(q, c, head, b, m);
    BelowPart(q, c, x, b, k, |x|);
    RunConcat(q, c, head, y, b, m);
    TraceAlike(q, m, m', mx.trace, m'.trace);
    SelfAlike(y);
    StepsTwice(q, q', c, n, y, y, b, b', mx, m');
  }

  /** The same steps up to `k` ingest as much. */
  lemma SameSoFar(q: Query, q': Query, c: Cert, n: Ref, a: seq<Step>, a': seq<Step>, b: nat, b': nat, k: nat, st: State,
      st': State)
    requires WellFormed(q, c) && WellFormed(q', c) && b <= c.bound && b' <= c.bound
    requires Below(q, c, a, b) && Below(q', c, a', b') && k <= |a| && k <= |a'| && a[..k] == a'[..k]
    requires Twins(q, q', n) && Alike(q, st, st') && (q' != q ==> n in st.marks && n in st'.marks)
    requires |st.trace| == |st'.trace|
    ensures Below(q, c, a[..k], b) && Below(q', c, a'[..k], b') && Below(q, c, a[k..], b) && Below(q', c, a'[k..], b')
    ensures var m, m' := RunSteps(q, c, a[..k], b, st), RunSteps(q', c, a'[..k], b', st');
            && |m.trace| == |m'.trace| && Alike(q, m, m') && (q' != q ==> n in m.marks && n in m'.marks)
            && RunSteps(q, c, a, b, st) == RunSteps(q, c, a[k..], b, m)
            && RunSteps(q', c, a', b', st') == RunSteps(q', c, a'[k..], b', m')
  {
    hide Alike, RunSteps, WellFormed, Below, StepsAlike, Twins;
    assert a[0..k] == a[..k] && a'[0..k] == a'[..k] && a[k..|a|] == a[k..] && a'[k..|a'|] == a'[k..];
    BelowPart(q, c, a, b, 0, k);
    BelowPart(q', c, a', b', 0, k);
    BelowPart(q, c, a, b, k, |a|);
    BelowPart(q', c, a', b', k, |a'|);
    SelfAlike(a[..k]);
    StepsTwice(q, q', c, n, a[..k], a'[..k], b, b', st, st');
    assert a == a[..k] + a[k..] && a' == a'[..k] + a'[k..];
    RunConcat(q, c, a[..k], a[k..], b, st);
    RunConcat(q', c, a'[..k], a'[k..], b', st');
  }

  /** Steps that tell leave different traces, whatever the children are. */
  lemma StepsTell(q: Query, q': Query, c: Cert, n: Ref, a: seq<Step>, a': seq<Step>, b: nat, b': nat, st: State,
      st': State)
    requires WellFormed(q, c) && WellFormed(q', c) && b <= c.bound && b' <= c.bound
    requires Below(q, c, a, b) && Below(q', c, a', b') && Tells(a, a')
    requires Twins(q, q', n) && Alike(q, st, st') && (q' != q ==> n in st.marks && n in st'.marks)
    requires |st.trace| == |st'.trace|
    ensures RunSteps(q, c, a, b, st).trace != RunSteps(q', c, a', b', st').trace
  {
    hide Alike, RunSteps, WellFormed, Below, StepsAlike, Extra, Twins;
    var k: nat :| TellsAt(a, a', k);
    SameSoFar(q, q', c, n, a, a', b, b', k, st, st');
    var m, m' := RunSteps(q, c, a[..k], b, st), RunSteps(q', c, a'[..k], b', st');
    if Extra(a[k..], a'[k..]) {
      IngestedMore(q, q', c, n, a[k..], a'[k..], b, b', m, m');
    } else if Extra(a'[k..], a[k..]) {
      TwinsBack(q, q', n);
      AlikeBack(q, q', n, m, m');
      IngestedMore(q', q, c, n, a'[k..], a[k..], b', b, m', m);
    } else {
      IngestedAt(q, c, a, b, k, st);
      IngestedAt(q', c, a', b', k, st');
    }
  }

  lemma TwinsBack(q: Query, q': Query, n: Ref)
    requires Twins(q, q', n)
    ensures Twins(q', q, n)
  {
    hide RevisitSteps;
    forall x ensures TwinAt(q', q, n, x) {
      assert TwinAt(q, q', n, x);
    }
  }

  lemma AlikeBack(q: Query, q': Query, n: Ref, st: State, st': State)
    requires Twins(q, q', n) && Alike(q, st, st')
    ensures Alike(q', st', st)
  {
    forall x ensures SameMark(q', st', st, x) {
      assert TwinAt(q, q', n, x) && SameMark(q, st, st', x);
    }
  }

  // ----- in the middle of other steps

  lemma TellsAfter(h: seq<Step>, a: seq<Step>, a': seq<Step>)
    requires Tells(a, a')
    ensures Tells(h + a, h + a')
  {
    hide Extra;
    var k: nat :| TellsAt(a, a', k);
    assert (h + a)[..|h| + k] == h + a[..k] && (h + a')[..|h| + k] == h + a'[..k];
    assert (h + a)[|h| + k..] == a[k..] && (h + a')[|h| + k..] == a'[k..];
    assert TellsAt(h + a, h + a', |h| + k);
  }

  lemma TellsBefore(a: seq<Step>, a': seq<Step>, t: seq<Step>)
    requires Tells(a, a')
    ensures Tells(a + t, a' + t)
  {
    hide Extra;
    var k: nat :| TellsAt(a, a', k);
    assert (a + t)[..k] == a[..k] && (a' + t)[..k] == a'[..k];
    assert (a + t)[k..] == a[k..] + t && (a' + t)[k..] == a'[k..] + t;
    if Extra(a[k..], a'[k..]) {
      ExtraIn(a[k..], a'[k..], t);
    } else if Extra(a'[k..], a[k..]) {
      ExtraIn(a'[k..], a[k..], t);
    }
    assert TellsAt(a + t, a' + t, k);
  }

  lemma TellsIn(h: seq<Step>, a: seq<Step>, a': seq<Step>, t: seq<Step>)
    requires Tells(a, a')
    ensures Tells(h + a + t, h + a' + t)
  {
    hide Tells;
    TellsAfter(h, a, a');
    TellsBefore(h + a, h + a', t);
  }

  lemma ExtraIn(x: seq<Step>, y: seq<Step>, t: seq<Step>)
    requires Extra(x, y)
    ensures Extra(x + t, y + t)
  {
    assert (x + t)[|x| - |y|..] == x[|x| - |y|..] + t;
  }

  lemma TokenTells(t: Token, t': Token)
    requires t != t'
    ensures Tells([Ingest(t)], [Ingest(t')])
  {
    assert TellsAt([Ingest(t)], [Ingest(t')], 0);
  }

  lemma NumberTells(n: int, n': int)
    requires n != n'
    ensures Tells(NonZero(n), NonZero(n')) && Tells(Specified(n), Specified(n'))
  {
    assert TellsAt(NonZero(n), NonZero(n'), 0);
    assert TellsAt(Specified(n), Specified(n'), 0);
  }

  lemma SizeTells(n: int, n': int)
    requires n == UNSPECIFIED <==> n' != UNSPECIFIED
    ensures Tells(SizeSteps(n), SizeSteps(n'))
  {
    assert TellsAt(SizeSteps(n), SizeSteps(n'), 0);
  }
}
