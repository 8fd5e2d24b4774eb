/**
 What a marker stands for: a process that makes one current has, under the lock and since it last read
 the marker, completed the upgrade that the marker is about.
 */
module StartupRoutes {
  import opened Upgrade

  ghost predicate At(run: seq<State>, i: nat, p: nat, pc: PC) {
    i < |run| && p < |run[i].procs| && run[i].procs[p].pc == pc && run[i].procs[p].held > 0
  }

  /** After `j` and up to `i`, process `p` holds the lock and is at `pc`. */
  ghost predicate Through(run: seq<State>, j: nat, i: nat, p: nat, pc: PC) {
    forall t: nat {:trigger At(run, t, p, pc)} :: j < t <= i ==> At(run, t, p, pc)
  }

  /** Process `p` has come to where it is at `i` by steps of its own along the whole route, and held the
      lock all along. */
  ghost predicate Passes(run: seq<State>, i: nat, p: nat, route: seq<PC>)
    decreases |route|
  {
    && route != [] && At(run, i, p, route[|route| - 1])
    && (|route| > 1 ==>
          exists j: nat {:trigger Through(run, j, i, p, route[|route| - 1])} ::
            && j < i < |run| && StepOf(run[j], p, run[j + 1]) && Through(run, j, i, p, route[|route| - 1])
            && Passes(run, j, p, route[..|route| - 1]))
  }

  const PLAN_ROUTE := [Plan(Read(true)), Plan(Body), Plan(Set)]
  const BIN_ROUTE := [Bin(Read(true)), Bin(Body), Bin(Set)]

  /** A load of the seed under the lock, and then `more`. */
  ghost predicate Loads(run: seq<State>, i: nat, p: nat, more: seq<PC>) {
    || Passes(run, i, p, [Seed(Read(true)), Seed(Open), Seed(Load)] + more)
    || Passes(run, i, p, [Seed(ReadBin(true)), Seed(Open), Seed(Load)] + more)
  }

  /** A full load upgrades the stored definitions as well. */
  function Definitions(full: bool): seq<PC> {
    if full then [Seed(Body), Seed(SetBin)] else [Seed(SetBin)]
  }

  // ----- one step back

  /** Where a process can have come from. */
  predicate From(q: Proc, q': Proc) {
    match q'.pc
    case Plan(Set) => q.pc == Plan(Body)
    case Plan(Body) => q.pc == Plan(Read(true))
    case Bin(Set) => q.pc == Bin(Body)
    case Bin(Body) => q.pc == Bin(Read(true))
    case Seed(Open) => q.pc == Seed(Read(true)) || q.pc == Seed(ReadBin(true))
    case Seed(Load) => q.pc == Seed(Open)
    case Seed(Body) => q.pc == Seed(Load) && q'.full
    case Seed(SetBin) => q.full == q'.full && (q.pc == Seed(Body) || (q.pc == Seed(Load) && !q'.full))
    case Seed(Octo929) => q.pc == Seed(SetBin) && q.full == q'.full
    case Seed(Set) =>
      && q.full == q'.full
      && (q.pc == Seed(Octo929) || (q.pc == Seed(SetBin) && !(q'.full && q'.octo929)))
    case _ => true
  }

  lemma PlanFrom(sh: Shared, q: Proc, free: bool, sh': Shared, q': Proc)
    requires PlanStep(sh, q, free, sh', q')
    ensures q'.pc != q.pc && From(q, q')
  {
    hide FailExit, FineExit, TakeLock, GiveLock, SlipExit;
    ExitFlags(q, q', Locked(q.pc.at), free, if q.pc.at.Lock? then Plan(Read(true)) else Seed(Read(false)));
  }

  lemma DecidedFrom(q: Proc, locked: bool)
    ensures SeedDecided(q, locked).pc in {Bin(Read(false)), Seed(Lock), Seed(Open)}
    ensures SeedDecided(q, locked).pc == Seed(Open) ==> locked
  {
  }

  lemma SeedReadFrom(sh: Shared, q: Proc, free: bool, sh': Shared, q': Proc)
    requires SeedReadStep(sh, q, free, sh', q')
    ensures q'.pc != q.pc && From(q, q')
  {
    hide FailExit, FineExit, TakeLock, GiveLock, SlipExit, SeedDecided;
    ExitFlags(q, q', Locked(q.pc.at), free, if q.pc.at.Lock? then Seed(Read(true)) else Bin(Read(false)));
    if q.pc.at.Read? && sh.seed.Def? {
      DecidedFrom(SeedFlags(sh.seed.v, q), q.pc.at.locked);
    } else if q.pc.at.ReadBin? {
      DecidedFrom(BinFlags(sh.bin, q), q.pc.at.locked);
    }
  }

  lemma SeedLoadFrom(sh: Shared, q: Proc, sh': Shared, q': Proc)
    requires SeedLoadStep(sh, q, sh', q')
    ensures q'.pc != q.pc && From(q, q')
  {
    hide FailExit, FineExit, TakeLock, GiveLock, SlipExit;
    ExitFlags(q, q', Locked(q.pc.at), false, if q.pc.at.Lock? then Seed(Read(true)) else Bin(Read(false)));
  }

  lemma BinFrom(sh: Shared, q: Proc, free: bool, sh': Shared, q': Proc)
    requires BinStep(sh, q, free, sh', q')
    ensures q'.pc != q.pc && From(q, q')
  {
    hide FailExit, FineExit, TakeLock, GiveLock, SlipExit;
    ExitFlags(q, q', Locked(q.pc.at), free, if q.pc.at.Lock? then Bin(Read(true)) else Passed);
  }

  lemma StepFrom(sh: Shared, q: Proc, free: bool, sh': Shared, q': Proc)
    requires ProcStep(sh, q, free, sh', q') && !q'.pc.Ended?
    ensures q'.pc != q.pc && From(q, q')
  {
    hide PlanStep, SeedReadStep, SeedLoadStep, BinStep;
    if PlanStep(sh, q, free, sh', q') {
      PlanFrom(sh, q, free, sh', q');
    } else if SeedReadStep(sh, q, free, sh', q') {
      SeedReadFrom(sh, q, free, sh', q');
    } else if SeedLoadStep(sh, q, sh', q') {
      SeedLoadFrom(sh, q, sh', q');
    } else if BinStep(sh, q, free, sh', q') {
      BinFrom(sh, q, free, sh', q');
    }
  }

  // ----- the route back to the read under the lock

  /** The step by which process `p` came to where it is. */
  lemma {:induction false} Came(run: seq<State>, i: nat, p: nat) returns (j: nat)
    requires IsRun(run) && i < |run| && p < |run[i].procs| && InLock(run[i].procs[p].pc)
    ensures j < i && StepOf(run[j], p, run[j + 1]) && Through(run, j, i, p, run[i].procs[p].pc)
    ensures p < |run[j].procs| && From(run[j].procs[p], run[i].procs[p])
    ensures InLock(run[j].procs[p].pc) ==> At(run, j, p, run[j].procs[p].pc)
  {
    hide ProcStep, From, Inv, Knows, SharedInv;
    Holding(run, i, p);
    assert i > 0;
    assert StepAt(run, i - 1);
    var o: nat :| StepOf(run[i - 1], o, run[i]);
    if o == p {
      j := i - 1;
      StepFrom(run[j].sh, run[j].procs[p], LockFree(run[j].procs, p), run[i].sh, run[i].procs[p]);
      if InLock(run[j].procs[p].pc) {
        Holding(run, j, p);
      }
    } else {
      j := Came(run, i - 1, p);
      assert run[i].procs[p] == run[i - 1].procs[p];
    }
  }

  lemma Holding(run: seq<State>, i: nat, p: nat)
    requires IsRun(run) && i < |run| && p < |run[i].procs| && InLock(run[i].procs[p].pc)
    ensures At(run, i, p, run[i].procs[p].pc)
  {
    RunInv(run, i);
    assert Balanced(run[i].procs[p]);
  }

  lemma PassesOn(run: seq<State>, j: nat, i: nat, p: nat, route: seq<PC>)
    requires j < i < |run| && p < |run[i].procs| && StepOf(run[j], p, run[j + 1])
    requires Through(run, j, i, p, run[i].procs[p].pc) && Passes(run, j, p, route)
    ensures Passes(run, i, p, route + [run[i].procs[p].pc])
  {
    hide StepOf;
    var pc := run[i].procs[p].pc;
    assert (route + [pc])[..|route|] == route && At(run, i, p, pc);
  }

  lemma PassesOne(run: seq<State>, i: nat, p: nat)
    requires i < |run| && p < |run[i].procs| && At(run, i, p, run[i].procs[p].pc)
    ensures Passes(run, i, p, [run[i].procs[p].pc])
  {
  }

  lemma Joined(a: seq<PC>, b: seq<PC>, x: PC)
    ensures (a + b) + [x] == a + (b + [x])
  {
  }

  lemma LoadsOn(run: seq<State>, j: nat, i: nat, p: nat, more: seq<PC>)
    requires j < i < |run| && p < |run[i].procs| && StepOf(run[j], p, run[j + 1])
    requires Through(run, j, i, p, run[i].procs[p].pc) && Loads(run, j, p, more)
    ensures Loads(run, i, p, more + [run[i].procs[p].pc])
  {
    hide StepOf, Passes;
    var first, second := [Seed(Read(true)), Seed(Open), Seed(Load)], [Seed(ReadBin(true)), Seed(Open), Seed(Load)];
    Joined(first, more, run[i].procs[p].pc);
    Joined(second, more, run[i].procs[p].pc);
    if Passes(run, j, p, first + more) {
      PassesOn(run, j, i, p, first + more);
    } else {
      PassesOn(run, j, i, p, second + more);
    }
  }

  lemma PlanRoute(run: seq<State>, i: nat, p: nat)
    requires IsRun(run) && i < |run| && p < |run[i].procs| && run[i].procs[p].pc == Plan(Set)
    ensures Passes(run, i, p, PLAN_ROUTE)
  {
    hide IsRun, StepOf, Passes;
    var body := Came(run, i, p);
    var read := Came(run, body, p);
    PassesOne(run, read, p);
    PassesOn(run, read, body, p, [Plan(Read(true))]);
    assert [Plan(Read(true))] + [Plan(Body)] == [Plan(Read(true)), Plan(Body)];
    PassesOn(run, body, i, p, [Plan(Read(true)), Plan(Body)]);
    assert [Plan(Read(true)), Plan(Body)] + [Plan(Set)] == PLAN_ROUTE;
  }

  lemma BinRoute(run: seq<State>, i: nat, p: nat)
    requires IsRun(run) && i < |run| && p < |run[i].procs| && run[i].procs[p].pc == Bin(Set)
    ensures Passes(run, i, p, BIN_ROUTE)
  {
    hide IsRun, StepOf, Passes;
    var body := Came(run, i, p);
    var read := Came(run, body, p);
    PassesOne(run, read, p);
    PassesOn(run, read, body, p, [Bin(Read(true))]);
    assert [Bin(Read(true))] + [Bin(Body)] == [Bin(Read(true)), Bin(Body)];
    PassesOn(run, body, i, p, [Bin(Read(true)), Bin(Body)]);
    assert [Bin(Read(true)), Bin(Body)] + [Bin(Set)] == BIN_ROUTE;
  }

  lemma LoadRoute(run: seq<State>, i: nat, p: nat)
    requires IsRun(run) && i < |run| && p < |run[i].procs| && run[i].procs[p].pc == Seed(Load)
    ensures Loads(run, i, p, [])
  {
    hide IsRun, StepOf, Passes;
    var open := Came(run, i, p);
    var read := Came(run, open, p);
    var start := run[read].procs[p].pc;
    PassesOne(run, read, p);
    PassesOn(run, read, open, p, [start]);
    assert [start] + [Seed(Open)] == [start, Seed(Open)];
    PassesOn(run, open, i, p, [start, Seed(Open)]);
    assert [start, Seed(Open)] + [Seed(Load)] == [start, Seed(Open), Seed(Load)] + [];
  }

  lemma SetBinRoute(run: seq<State>, i: nat, p: nat)
    requires IsRun(run) && i < |run| && p < |run[i].procs| && run[i].procs[p].pc == Seed(SetBin)
    ensures Loads(run, i, p, Definitions(run[i].procs[p].full))
  {
    hide IsRun, StepOf, Loads;
    var j := Came(run, i, p);
    if run[j].procs[p].pc == Seed(Load) {
      LoadRoute(run, j, p);
      LoadsOn(run, j, i, p, []);
      assert [] + [Seed(SetBin)] == [Seed(SetBin)];
    } else {
      var k := Came(run, j, p);
      LoadRoute(run, k, p);
      LoadsOn(run, k, j, p, []);
      assert [] + [Seed(Body)] == [Seed(Body)];
      LoadsOn(run, j, i, p, [Seed(Body)]);
      assert [Seed(Body)] + [Seed(SetBin)] == [Seed(Body), Seed(SetBin)];
    }
  }

  /** What a process has done that is about to write the seed marker; the special upgrade only if it was
      asked for in a full load. */
  ghost predicate SeedDone(run: seq<State>, i: nat, p: nat, q: Proc) {
    || Loads(run, i, p, Definitions(q.full) + [Seed(Octo929)] + [Seed(Set)])
    || (!(q.full && q.octo929) && Loads(run, i, p, Definitions(q.full) + [Seed(Set)]))
  }

  lemma SetRoute(run: seq<State>, i: nat, p: nat)
    requires IsRun(run) && i < |run| && p < |run[i].procs| && run[i].procs[p].pc == Seed(Set)
    ensures SeedDone(run, i, p, run[i].procs[p])
  {
    hide IsRun, StepOf, Loads, Definitions;
    var j := Came(run, i, p);
    var full := run[i].procs[p].full;
    if run[j].procs[p].pc == Seed(SetBin) {
      SetBinRoute(run, j, p);
      LoadsOn(run, j, i, p, Definitions(full));
    } else {
      var k := Came(run, j, p);
      SetBinRoute(run, k, p);
      LoadsOn(run, k, j, p, Definitions(full));
      LoadsOn(run, j, i, p, Definitions(full) + [Seed(Octo929)]);
    }
  }

  // ----- the step that makes a marker current

  /** The plan marker becomes current only after a process has discarded the plans, under the lock and
      since it last read the marker. */
  lemma PlanMadeCurrent(run: seq<State>, i: nat) returns (p: nat)
    requires IsRun(run) && i + 1 < |run| && run[i].sh.plan != PLAN_CURRENT && run[i + 1].sh.plan == PLAN_CURRENT
    ensures StepOf(run[i], p, run[i + 1]) && Passes(run, i, p, PLAN_ROUTE)
  {
    assert StepAt(run, i);
    p :| StepOf(run[i], p, run[i + 1]);
    PlanRoute(run, i, p);
  }

  /** The binary marker becomes current only after a process has upgraded the stored definitions in the
      binary check, or loaded the seed, with the stored definitions if the load is full. */
  lemma BinMadeCurrent(run: seq<State>, i: nat) returns (p: nat)
    requires IsRun(run) && i + 1 < |run| && run[i].sh.bin != BIN_CURRENT && run[i + 1].sh.bin == BIN_CURRENT
    ensures p < |run[i].procs| && StepOf(run[i], p, run[i + 1])
    ensures Passes(run, i, p, BIN_ROUTE) || Loads(run, i, p, Definitions(run[i].procs[p].full))
  {
    hide Passes, Loads;
    assert StepAt(run, i);
    p :| StepOf(run[i], p, run[i + 1]);
    if run[i].procs[p].pc == Bin(Set) {
      BinRoute(run, i, p);
    } else {
      SetBinRoute(run, i, p);
    }
  }

  /** The seed marker becomes current only after a process has loaded the seed, and what goes with it. */
  lemma SeedMadeCurrent(run: seq<State>, i: nat) returns (p: nat)
    requires IsRun(run) && i + 1 < |run| && run[i].sh.seed != SEED_CURRENT && run[i + 1].sh.seed == SEED_CURRENT
    ensures p < |run[i].procs| && StepOf(run[i], p, run[i + 1]) && SeedDone(run, i, p, run[i].procs[p])
  {
    hide SeedDone;
    assert StepAt(run, i);
    p :| StepOf(run[i], p, run[i + 1]);
    SetRoute(run, i, p);
  }
}
