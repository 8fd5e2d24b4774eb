/**
 What some runs of the startup checks can reach: when a process can come through all of them with a
 marker out of date, a lock that stays held, and a load that is not needed.
 */
module StartupRuns {
  import opened Upgrade

  const START := Proc(Valid, false, false, false, 0, 0, false)

  ghost predicate IsPath(path: seq<State>, s: State, t: State) {
    path != [] && path[0] == s && path[|path| - 1] == t && forall i: nat :: StepAt(path, i)
  }

  ghost predicate Reach(s: State, t: State) {
    exists path: seq<State> :: IsPath(path, s, t)
  }

  /** `s` with process `p` at `q` and the shared state `sh`. */
  function With(s: State, p: nat, sh: Shared, q: Proc): State {
    if p < |s.procs| then State(sh, s.procs[p := q]) else s
  }

  lemma Stay(s: State)
    ensures Reach(s, s)
  {
    assert IsPath([s], s, s);
  }

  lemma Extend(s: State, t: State, p: nat, u: State)
    requires Reach(s, t) && StepOf(t, p, u)
    ensures Reach(s, u)
  {
    hide StepOf;
    var path: seq<State> :| IsPath(path, s, t);
    var longer := path + [u];
    forall i: nat ensures StepAt(longer, i) {
      assert StepAt(path, i);
    }
    assert IsPath(longer, s, u);
  }

  /** While the others stay as in `t`, process `p` goes from `q` to `q'`. */
  lemma Go(s: State, t: State, p: nat, sh: Shared, q: Proc, sh': Shared, q': Proc)
    requires p < |t.procs| && Reach(s, With(t, p, sh, q)) && ProcStep(sh, q, LockFree(t.procs, p), sh', q')
    ensures Reach(s, With(t, p, sh', q'))
  {
    hide ProcStep, Reach;
    var a, b := With(t, p, sh, q), With(t, p, sh', q');
    assert b.procs == a.procs[p := q'];
    assert forall i :: 0 <= i < |t.procs| && i != p ==> a.procs[i] == t.procs[i];
    assert LockFree(a.procs, p) == LockFree(t.procs, p);
    assert StepOf(a, p, b);
    Extend(s, a, p, b);
  }

  ghost predicate Alone(s: State, t: State, p: nat, sh: Shared, q: Proc) {
    p < |t.procs| && LockFree(t.procs, p) && Reach(s, With(t, p, sh, q))
  }

  predicate MayStart(sh: Shared) {
    sh.bin.Def? ==> sh.bin.v <= FMT_BINARY_DEFINITION
  }

  function PlanFixed(sh: Shared): Shared {
    if sh.plan == PLAN_CURRENT then sh else sh.(plan := PLAN_CURRENT, planDone := sh.planDone + 1)
  }

  lemma PlanAlone(s: State, t: State, p: nat, sh: Shared)
    requires Alone(s, t, p, sh, START.(pc := Plan(Lock))) && sh.plan != PLAN_CURRENT
    ensures Alone(s, t, p, PlanFixed(sh), START.(pc := Seed(Read(false))))
  {
    hide Reach, LockFree;
    var q := START.(held := 1);
    Go(s, t, p, sh, START.(pc := Plan(Lock)), sh, q.(pc := Plan(Read(true))));
    Go(s, t, p, sh, q.(pc := Plan(Read(true))), sh, q.(pc := Plan(Body)));
    Go(s, t, p, sh, q.(pc := Plan(Body)), sh, q.(pc := Plan(Set)));
    Go(s, t, p, sh, q.(pc := Plan(Set)), PlanFixed(sh), q.(pc := Plan(Unlock)));
    Go(s, t, p, PlanFixed(sh), q.(pc := Plan(Unlock)), PlanFixed(sh), START.(pc := Seed(Read(false))));
  }

  /** A process alone comes through the plan check. */
  lemma ToSeed(s: State, t: State, p: nat, sh: Shared)
    requires Alone(s, t, p, sh, START) && MayStart(sh)
    ensures Alone(s, t, p, PlanFixed(sh), START.(pc := Seed(Read(false))))
  {
    hide Reach, LockFree;
    var q := START.(pc := Plan(Read(false)));
    Go(s, t, p, sh, START, sh, q);
    if sh.plan == PLAN_CURRENT {
      Go(s, t, p, sh, q, sh, START.(pc := Seed(Read(false))));
    } else {
      Go(s, t, p, sh, q, sh, START.(pc := Plan(Lock)));
      PlanAlone(s, t, p, sh);
    }
  }

  // ----- coming through with a marker out of date

  predicate Current(sh: Shared) {
    sh.plan == PLAN_CURRENT && sh.seed == SEED_CURRENT && sh.bin == BIN_CURRENT
  }

  /** Some process has passed every check although a marker is not current. */
  ghost predicate Missed(s: State) {
    exists p: nat :: p < |s.procs| && s.procs[p].pc.Passed? && !Current(s.sh)
  }

  ghost predicate CanMiss(sh: Shared) {
    exists run: seq<State> :: IsRun(run) && run[0].sh == sh && Missed(run[|run| - 1])
  }

  /** The seed marker is older than the definitions that call for the special upgrade, or absent. */
  predicate SeedIsOld(sh: Shared) {
    sh.seed.Def? ==> sh.seed.v < FMT_SEED_DEFINITION_OCTO929
  }

  const FULL := START.(full := true, octo929 := true)
  const DONE := START.(full := true)

  /** The flags of a process that finds the seed marker out of date in a database that is not empty. */
  function Wants(sh: Shared): Proc {
    if SeedIsOld(sh) then FULL else DONE
  }

  /** A seed load that returns out of its middle, and the binary check after it. */
  lemma SlipAlone(s: State, t: State, p: nat, sh: Shared)
    requires Alone(s, t, p, sh, FULL.(pc := Seed(Open), held := 1)) && sh.bin == BIN_CURRENT
    ensures Alone(s, t, p, sh, FULL.(pc := Passed, slipped := true))
  {
    hide Reach, LockFree;
    var q, r := FULL.(held := 1), FULL.(slipped := true);
    Go(s, t, p, sh, q.(pc := Seed(Open)), sh, q.(pc := Seed(Load)));
    Go(s, t, p, sh, q.(pc := Seed(Load)), sh, q.(pc := Seed(Body)));
    Go(s, t, p, sh, q.(pc := Seed(Body)), sh, r.(pc := Bin(Read(false))));
    Go(s, t, p, sh, r.(pc := Bin(Read(false))), sh, r.(pc := Passed));
  }

  /** A seed load that writes the binary marker and then fails. */
  lemma FullFails(s: State, t: State, p: nat, sh: Shared)
    requires Alone(s, t, p, sh, FULL.(pc := Seed(Open), held := 1))
    ensures Alone(s, t, p, sh.(bin := BIN_CURRENT), FULL.(pc := Failed))
  {
    hide Reach, LockFree;
    var q, sh1 := FULL.(held := 1), sh.(bin := BIN_CURRENT);
    Go(s, t, p, sh, q.(pc := Seed(Open)), sh, q.(pc := Seed(Load)));
    Go(s, t, p, sh, q.(pc := Seed(Load)), sh, q.(pc := Seed(Body)));
    Go(s, t, p, sh, q.(pc := Seed(Body)), sh, q.(pc := Seed(SetBin)));
    Go(s, t, p, sh, q.(pc := Seed(SetBin)), sh1, q.(pc := Seed(Octo929)));
    Go(s, t, p, sh1, q.(pc := Seed(Octo929)), sh1, FULL.(pc := Failed));
  }

  /** A process comes from the first reading of an outdated seed marker to wait for the lock. */
  lemma ToSeedLock(s: State, t: State, p: nat, sh: Shared)
    requires p < |t.procs| && Reach(s, With(t, p, sh, START.(pc := Seed(Read(false)))))
    requires sh.seed != SEED_CURRENT && (sh.seed.Def? || sh.bin.Def?)
    ensures Reach(s, With(t, p, sh, Wants(sh).(pc := Seed(Lock))))
  {
    hide Reach, LockFree;
    if sh.seed.Def? {
      Go(s, t, p, sh, START.(pc := Seed(Read(false))), sh, Wants(sh).(pc := Seed(Lock)));
    } else {
      Go(s, t, p, sh, START.(pc := Seed(Read(false))), sh, START.(pc := Seed(ReadBin(false))));
      Go(s, t, p, sh, START.(pc := Seed(ReadBin(false))), sh, FULL.(pc := Seed(Lock)));
    }
  }

  /** A process alone that starts with an outdated seed marker comes to the load. */
  lemma ToOpen(s: State, t: State, p: nat, sh0: Shared)
    requires Alone(s, t, p, sh0, START) && MayStart(sh0) && sh0.seed != SEED_CURRENT && (sh0.seed.Def? || sh0.bin.Def?)
    ensures Alone(s, t, p, PlanFixed(sh0), Wants(sh0).(pc := Seed(Open), held := 1))
  {
    hide Reach, LockFree;
    ToSeed(s, t, p, sh0);
    var sh, q := PlanFixed(sh0), Wants(sh0);
    ToSeedLock(s, t, p, sh);
    var r := q.(held := 1);
    Go(s, t, p, sh, q.(pc := Seed(Lock)), sh, r.(pc := Seed(Read(true))));
    if sh.seed.Def? {
      Go(s, t, p, sh, r.(pc := Seed(Read(true))), sh, r.(pc := Seed(Open)));
    } else {
      Go(s, t, p, sh, r.(pc := Seed(Read(true))), sh, r.(pc := Seed(ReadBin(true))));
      Go(s, t, p, sh, r.(pc := Seed(ReadBin(true))), sh, r.(pc := Seed(Open)));
    }
  }

  const PARTIAL := START.(partial := true)

  /** In an empty database a process comes to wait for the lock of a partial load. */
  lemma ToPartial(s: State, t: State, p: nat, sh: Shared)
    requires Alone(s, t, p, sh, START) && sh.seed.Undef? && sh.bin.Undef?
    ensures Alone(s, t, p, PlanFixed(sh), PARTIAL.(pc := Seed(Lock)))
  {
    hide Reach, LockFree;
    ToSeed(s, t, p, sh);
    var sh1 := PlanFixed(sh);
    Go(s, t, p, sh1, START.(pc := Seed(Read(false))), sh1, START.(pc := Seed(ReadBin(false))));
    Go(s, t, p, sh1, START.(pc := Seed(ReadBin(false))), sh1, PARTIAL.(pc := Seed(Lock)));
  }

  /** Alone, it then loads the seed and writes the binary marker. */
  lemma PartialLoad(s: State, t: State, p: nat, sh: Shared)
    requires Alone(s, t, p, sh, PARTIAL.(pc := Seed(Lock))) && sh.seed.Undef? && sh.bin.Undef?
    ensures Alone(s, t, p, sh.(bin := BIN_CURRENT), PARTIAL.(pc := Seed(Set), held := 1))
  {
    hide Reach, LockFree;
    var r := PARTIAL.(held := 1);
    Go(s, t, p, sh, PARTIAL.(pc := Seed(Lock)), sh, r.(pc := Seed(Read(true))));
    Go(s, t, p, sh, r.(pc := Seed(Read(true))), sh, r.(pc := Seed(ReadBin(true))));
    Go(s, t, p, sh, r.(pc := Seed(ReadBin(true))), sh, r.(pc := Seed(Open)));
    Go(s, t, p, sh, r.(pc := Seed(Open)), sh, r.(pc := Seed(Load)));
    Go(s, t, p, sh, r.(pc := Seed(Load)), sh, r.(pc := Seed(SetBin)));
    Go(s, t, p, sh, r.(pc := Seed(SetBin)), sh.(bin := BIN_CURRENT), r.(pc := Seed(Set)));
  }

  /** It can fail after that. */
  lemma PartialFails(s: State, t: State, p: nat, sh: Shared)
    requires Alone(s, t, p, sh, START) && sh.seed.Undef? && sh.bin.Undef?
    ensures Alone(s, t, p, PlanFixed(sh).(bin := BIN_CURRENT), PARTIAL.(pc := Failed))
  {
    hide Reach, LockFree;
    ToPartial(s, t, p, sh);
    PartialLoad(s, t, p, PlanFixed(sh));
    var sh1 := PlanFixed(sh).(bin := BIN_CURRENT);
    Go(s, t, p, sh1, PARTIAL.(pc := Seed(Set), held := 1), sh1, PARTIAL.(pc := Failed));
  }

  lemma OldSeedCanMiss(sh: Shared)
    requires sh.planDone == 0 && sh.binDone == 0 && MayStart(sh) && SeedIsOld(sh)
    ensures CanMiss(sh)
  {
    hide Reach;
    var s := State(sh, [START, START]);
    Stay(s);
    assert With(s, 1, sh, START) == s;
    var sh1 := PlanFixed(sh).(bin := BIN_CURRENT);
    var q: Proc;
    if sh.seed.Undef? && sh.bin.Undef? {
      PartialFails(s, s, 1, sh);
      q := PARTIAL;
    } else {
      ToOpen(s, s, 1, sh);
      FullFails(s, s, 1, PlanFixed(sh));
      q := FULL;
    }
    var t := With(s, 1, sh1, q.(pc := Failed));
    assert With(t, 0, sh1, START) == t;
    ToOpen(s, t, 0, sh1);
    SlipAlone(s, t, 0, sh1);
    var u := With(t, 0, sh1, FULL.(pc := Passed, slipped := true));
    assert u.procs[0].pc.Passed? && !Current(u.sh);
    var run := RunTo(s, u);
  }

  /** With a seed marker that is not old, a process never asks for the special upgrade. */
  ghost predicate Unflagged(q: Proc) {
    !q.octo929 && !q.slipped && !(q.pc.Seed? && q.pc.at.ReadBin?)
  }

  ghost predicate NoFlag(s: State) {
    !SeedIsOld(s.sh) && forall i {:trigger s.procs[i]} :: 0 <= i < |s.procs| ==> Unflagged(s.procs[i])
  }

  lemma NoFlagOwn(sh: Shared, q: Proc, free: bool, sh': Shared, q': Proc)
    requires !SeedIsOld(sh) && Unflagged(q) && ProcStep(sh, q, free, sh', q')
    ensures !SeedIsOld(sh') && Unflagged(q')
  {
  }

  lemma NoFlagStep(s: State, p: nat, s': State)
    requires NoFlag(s) && StepOf(s, p, s')
    ensures NoFlag(s')
  {
    hide ProcStep, SeedIsOld, LockFree, Unflagged;
    NoFlagOwn(s.sh, s.procs[p], LockFree(s.procs, p), s'.sh, s'.procs[p]);
    forall i | 0 <= i < |s'.procs| ensures Unflagged(s'.procs[i]) {
      assert i != p ==> s'.procs[i] == s.procs[i];
    }
  }

  lemma {:induction false} NoFlagRun(run: seq<State>, i: nat)
    requires IsRun(run) && i < |run| && !SeedIsOld(run[0].sh)
    ensures NoFlag(run[i])
  {
    hide StepOf, SeedIsOld;
    if i > 0 {
      NoFlagRun(run, i - 1);
      assert StepAt(run, i - 1);
      var p: nat :| StepOf(run[i - 1], p, run[i]);
      NoFlagStep(run[i - 1], p, run[i]);
    }
  }

  /** Whether a process can come through every check although a marker is out of date depends only on
      the markers at the start, and exactly so: the binary marker is one that this build accepts and
      the seed marker is absent or from before the special upgrade. */
  lemma MissExactly(sh: Shared)
    requires sh.planDone == 0 && sh.binDone == 0
    ensures CanMiss(sh) <==>
              && (sh.bin.Undef? || sh.bin.v <= FMT_BINARY_DEFINITION)
              && (sh.seed.Undef? || sh.seed.v < FMT_SEED_DEFINITION_OCTO929)
  {
    if MayStart(sh) && SeedIsOld(sh) {
      OldSeedCanMiss(sh);
    } else if CanMiss(sh) {
      var run: seq<State> :| IsRun(run) && run[0].sh == sh && Missed(run[|run| - 1]);
      NeverMissed(run, |run| - 1);
    }
  }

  lemma NeverMissed(run: seq<State>, i: nat)
    requires IsRun(run) && i < |run| && !(MayStart(run[0].sh) && SeedIsOld(run[0].sh))
    ensures !Missed(run[i])
  {
    hide IsRun, MayStart, SeedIsOld;
    forall p: nat | p < |run[i].procs| && run[i].procs[p].pc.Passed? ensures Current(run[i].sh) {
      if MayStart(run[0].sh) {
        NoFlagRun(run, i);
        assert Unflagged(run[i].procs[p]);
        StartupHolds(run, i, i, p);
      } else {
        QuietRun(run, i);
        assert Lockless(run[i].sh, run[i].procs[p]);
      }
    }
  }

  // ----- a lock that stays held

  /** A process that has not failed holds the lock outside the locked code. */
  ghost predicate Leaking(s: State) {
    exists p: nat :: p < |s.procs| && LeakedBy(s.procs[p])
  }

  predicate LeakedBy(q: Proc) {
    q.held > 0 && !InLock(q.pc) && !q.pc.Failed? && !q.pc.Ended?
  }

  ghost predicate CanLeak(sh: Shared) {
    exists run: seq<State> :: IsRun(run) && run[0].sh == sh && Leaking(run[|run| - 1])
  }

  lemma ReachLeaks(s: State, t: State, p: nat)
    requires Init(s) && Reach(s, t) && p < |t.procs| && LeakedBy(t.procs[p])
    ensures CanLeak(s.sh)
  {
    var run := RunTo(s, t);
  }

  /** With the plan marker out of date, a process can find that another one has fixed it. */
  lemma PlanLeaks(sh: Shared)
    requires sh.planDone == 0 && sh.binDone == 0 && MayStart(sh) && sh.plan != PLAN_CURRENT
    ensures CanLeak(sh)
  {
    hide Reach, CanLeak;
    var s := State(sh, [START, START]);
    var q := START.(pc := Plan(Lock));
    Stay(s);
    Ready(s, sh, q);
    var t := State(sh, [q, q]);
    assert With(t, 0, sh, q) == t;
    PlanAlone(s, t, 0, sh);
    var sh1 := PlanFixed(sh);
    var u := State(sh1, [START.(pc := Seed(Read(false))), q]);
    assert With(t, 0, sh1, START.(pc := Seed(Read(false)))) == u == With(u, 1, sh1, q);
    var r := START.(held := 1);
    Go(s, u, 1, sh1, q, sh1, r.(pc := Plan(Read(true))));
    Go(s, u, 1, sh1, r.(pc := Plan(Read(true))), sh1, r.(pc := Seed(Read(false)), leaked := 1));
    ReachLeaks(s, With(u, 1, sh1, r.(pc := Seed(Read(false)), leaked := 1)), 1);
  }

  /** A load of the seed, alone, up to the marker. */
  lemma FullLoad(s: State, t: State, p: nat, sh: Shared)
    requires Alone(s, t, p, sh, Wants(sh).(pc := Seed(Open), held := 1))
    ensures Alone(s, t, p, sh.(bin := BIN_CURRENT), DONE.(pc := Seed(Set), held := 1))
  {
    hide Reach, LockFree;
    var q, sh1 := Wants(sh).(held := 1), sh.(bin := BIN_CURRENT);
    Go(s, t, p, sh, q.(pc := Seed(Open)), sh, q.(pc := Seed(Load)));
    Go(s, t, p, sh, q.(pc := Seed(Load)), sh, q.(pc := Seed(Body)));
    Go(s, t, p, sh, q.(pc := Seed(Body)), sh, q.(pc := Seed(SetBin)));
    if SeedIsOld(sh) {
      Go(s, t, p, sh, q.(pc := Seed(SetBin)), sh1, q.(pc := Seed(Octo929)));
      Go(s, t, p, sh1, q.(pc := Seed(Octo929)), sh1, DONE.(pc := Seed(Set), held := 1));
    } else {
      Go(s, t, p, sh, q.(pc := Seed(SetBin)), sh1, DONE.(pc := Seed(Set), held := 1));
    }
  }

  /** A second process comes to wait for the lock while the first one is about to set the marker, and
      then finds it set. */
  lemma SecondLeaks(s: State, t: State, sh: Shared, r: Proc)
    requires Init(s) && |t.procs| == 2 && t.procs[1] == START && r.held == 1 && r.leaked == 0
    requires Reach(s, With(t, 0, sh, r.(pc := Seed(Set))))
    requires sh.plan == PLAN_CURRENT && sh.seed != SEED_CURRENT && sh.bin == BIN_CURRENT
    ensures CanLeak(s.sh)
  {
    hide Reach, LockFree, CanLeak;
    var u := With(t, 0, sh, r.(pc := Seed(Set)));
    assert With(u, 1, sh, START) == u;
    Go(s, u, 1, sh, START, sh, START.(pc := Plan(Read(false))));
    Go(s, u, 1, sh, START.(pc := Plan(Read(false))), sh, START.(pc := Seed(Read(false))));
    ToSeedLock(s, u, 1, sh);
    var w := Wants(sh).(pc := Seed(Lock));
    var v := With(u, 1, sh, w);
    assert With(v, 0, sh, r.(pc := Seed(Set))) == v;
    FixedAndLeaked(s, v, sh, r, w);
  }

  lemma FixedAndLeaked(s: State, v: State, sh: Shared, r: Proc, w: Proc)
    requires Init(s) && |v.procs| == 2 && v.procs[1] == w == Wants(sh).(pc := Seed(Lock)) && r.held == 1
        && r.leaked == 0
    requires Reach(s, With(v, 0, sh, r.(pc := Seed(Set))))
    ensures CanLeak(s.sh)
  {
    hide Reach, CanLeak;
    var sh1 := sh.(seed := SEED_CURRENT);
    Go(s, v, 0, sh, r.(pc := Seed(Set)), sh1, r.(pc := Seed(Unlock)));
    Go(s, v, 0, sh1, r.(pc := Seed(Unlock)), sh1, r.(pc := Bin(Read(false)), held := 0));
    var x := With(v, 0, sh1, r.(pc := Bin(Read(false)), held := 0));
    assert With(x, 1, sh1, w) == x;
    Go(s, x, 1, sh1, w, sh1, w.(pc := Seed(Read(true)), held := 1));
    var y := w.(full := false, pc := Bin(Read(false)), held := 1, leaked := 1);
    Go(s, x, 1, sh1, w.(pc := Seed(Read(true)), held := 1), sh1, y);
    ReachLeaks(s, With(x, 1, sh1, y), 1);
  }

  lemma SeedLeaks(sh: Shared)
    requires sh.planDone == 0 && sh.binDone == 0 && MayStart(sh) && sh.plan == PLAN_CURRENT && sh.seed != SEED_CURRENT
    ensures CanLeak(sh)
  {
    hide Reach, CanLeak;
    var s := State(sh, [START, START]);
    Stay(s);
    assert With(s, 0, sh, START) == s;
    if sh.seed.Undef? && sh.bin.Undef? {
      ToPartial(s, s, 0, sh);
      PartialLoad(s, s, 0, sh);
      SecondLeaks(s, s, sh.(bin := BIN_CURRENT), PARTIAL.(held := 1));
    } else {
      ToOpen(s, s, 0, sh);
      FullLoad(s, s, 0, sh);
      SecondLeaks(s, s, sh.(bin := BIN_CURRENT), DONE.(held := 1));
    }
  }

  /** With the plan and seed markers current a process comes to wait for the lock of the binary check. */
  lemma ToBinLock(s: State, t: State, p: nat, sh: Shared)
    requires Alone(s, t, p, sh, START) && MayStart(sh)
    requires sh.plan == PLAN_CURRENT && sh.seed == SEED_CURRENT && sh.bin != BIN_CURRENT
    ensures Alone(s, t, p, sh, START.(pc := Bin(Lock)))
  {
    hide Reach, LockFree;
    ToSeed(s, t, p, sh);
    Go(s, t, p, sh, START.(pc := Seed(Read(false))), sh, START.(pc := Bin(Read(false))));
    Go(s, t, p, sh, START.(pc := Bin(Read(false))), sh, START.(pc := Bin(Lock)));
  }

  lemma BinLeaks(sh: Shared)
    requires sh.planDone == 0 && sh.binDone == 0 && MayStart(sh)
    requires sh.plan == PLAN_CURRENT && sh.seed == SEED_CURRENT && sh.bin != BIN_CURRENT
    ensures CanLeak(sh)
  {
    hide Reach, CanLeak;
    var s, q := State(sh, [START, START]), START.(pc := Bin(Lock));
    Stay(s);
    assert With(s, 0, sh, START) == s;
    ToBinLock(s, s, 0, sh);
    var t := State(sh, [q, START]);
    assert With(s, 0, sh, q) == t == With(t, 1, sh, START);
    ToBinLock(s, t, 1, sh);
    var u := State(sh, [q, q]);
    assert With(t, 1, sh, q) == u == With(u, 0, sh, q);
    BinFixedAndLeaked(s, u, sh, q);
  }

  lemma BinFixedAndLeaked(s: State, u: State, sh: Shared, q: Proc)
    requires Init(s) && q == START.(pc := Bin(Lock)) && u == State(sh, [q, q]) && Reach(s, With(u, 0, sh, q))
    requires sh.bin != BIN_CURRENT
    ensures CanLeak(s.sh)
  {
    hide Reach, CanLeak;
    var r, sh1 := START.(held := 1), sh.(bin := BIN_CURRENT, binDone := sh.binDone + 1);
    Go(s, u, 0, sh, q, sh, r.(pc := Bin(Read(true))));
    Go(s, u, 0, sh, r.(pc := Bin(Read(true))), sh, r.(pc := Bin(Body)));
    Go(s, u, 0, sh, r.(pc := Bin(Body)), sh, r.(pc := Bin(Set)));
    Go(s, u, 0, sh, r.(pc := Bin(Set)), sh1, r.(pc := Bin(Unlock)));
    Go(s, u, 0, sh1, r.(pc := Bin(Unlock)), sh1, START.(pc := Passed));
    var v := State(sh1, [START.(pc := Passed), q]);
    assert With(u, 0, sh1, START.(pc := Passed)) == v == With(v, 1, sh1, q);
    Go(s, v, 1, sh1, q, sh1, r.(pc := Bin(Read(true))));
    Go(s, v, 1, sh1, r.(pc := Bin(Read(true))), sh1, r.(pc := Passed, leaked := 1));
    ReachLeaks(s, With(v, 1, sh1, r.(pc := Passed, leaked := 1)), 1);
  }

  /** No process ever takes the lock: all markers are current, or none may start. */
  ghost predicate Quiet(s: State) {
    && (Current(s.sh) || !MayStart(s.sh))
    && forall i {:trigger s.procs[i]} :: 0 <= i < |s.procs| ==> Lockless(s.sh, s.procs[i])
  }

  predicate Lockless(sh: Shared, q: Proc) {
    && q.held == 0 && !q.full && !q.partial
    && (|| q.pc in {Valid, Failed, Ended}
        || (Current(sh) && q.pc in {Plan(Read(false)), Seed(Read(false)), Bin(Read(false)), Passed}))
  }

  lemma QuietOwn(sh: Shared, q: Proc, free: bool, sh': Shared, q': Proc)
    requires (Current(sh) || !MayStart(sh)) && Lockless(sh, q) && ProcStep(sh, q, free, sh', q')
    ensures sh' == sh && Lockless(sh', q')
  {
  }

  lemma QuietStep(s: State, p: nat, s': State)
    requires Quiet(s) && StepOf(s, p, s')
    ensures Quiet(s') && s'.sh == s.sh
  {
    hide ProcStep, LockFree, Lockless, Current, MayStart;
    QuietOwn(s.sh, s.procs[p], LockFree(s.procs, p), s'.sh, s'.procs[p]);
    forall i | 0 <= i < |s'.procs| ensures Lockless(s'.sh, s'.procs[i]) {
      assert i != p ==> s'.procs[i] == s.procs[i];
    }
  }

  lemma {:induction false} QuietRun(run: seq<State>, i: nat)
    requires IsRun(run) && i < |run| && (Current(run[0].sh) || !MayStart(run[0].sh))
    ensures Quiet(run[i]) && run[i].sh == run[0].sh
  {
    hide StepOf, Current, MayStart;
    if i > 0 {
      QuietRun(run, i - 1);
      assert StepAt(run, i - 1);
      var p: nat :| StepOf(run[i - 1], p, run[i]);
      QuietStep(run[i - 1], p, run[i]);
    }
  }

  /** Whether a process can go on without an error and keep the lock: exactly if this build accepts the
      binary marker and some marker is out of date at the start. */
  lemma LeakExactly(sh: Shared)
    requires sh.planDone == 0 && sh.binDone == 0
    ensures CanLeak(sh) <==>
              && (sh.bin.Undef? || sh.bin.v <= FMT_BINARY_DEFINITION)
              && (sh.plan != PLAN_CURRENT || sh.seed != SEED_CURRENT || sh.bin != BIN_CURRENT)
  {
    if MayStart(sh) && !Current(sh) {
      if sh.plan != PLAN_CURRENT {
        PlanLeaks(sh);
      } else if sh.seed != SEED_CURRENT {
        SeedLeaks(sh);
      } else {
        BinLeaks(sh);
      }
    } else if CanLeak(sh) {
      var run: seq<State> :| IsRun(run) && run[0].sh == sh && Leaking(run[|run| - 1]);
      QuietRun(run, |run| - 1);
    }
  }

  /** Two processes both come to wait for the lock of the plan check. */
  lemma Ready(s: State, sh: Shared, q: Proc)
    requires s == State(sh, [START, START]) && Reach(s, s) && MayStart(sh) && sh.plan != PLAN_CURRENT
    requires q == START.(pc := Plan(Lock))
    ensures Reach(s, State(sh, [q, q])) && LockFree([q, q], 0) && LockFree([q, q], 1)
  {
    hide Reach;
    assert With(s, 0, sh, START) == s;
    Go(s, s, 0, sh, START, sh, START.(pc := Plan(Read(false))));
    Go(s, s, 0, sh, START.(pc := Plan(Read(false))), sh, q);
    var t := State(sh, [q, START]);
    assert With(s, 0, sh, q) == t == With(t, 1, sh, START);
    Go(s, t, 1, sh, START, sh, START.(pc := Plan(Read(false))));
    Go(s, t, 1, sh, START.(pc := Plan(Read(false))), sh, q);
    assert With(t, 1, sh, q) == State(sh, [q, q]);
  }

  lemma RunTo(s: State, t: State) returns (run: seq<State>)
    requires Init(s) && Reach(s, t)
    ensures IsRun(run) && run[0] == s && run[|run| - 1] == t
  {
    run :| IsPath(run, s, t);
  }

  // ----- a load that is not needed

  /** A process is about to load the seed, under the lock, although its marker is current. */
  ghost predicate Reloading(s: State) {
    s.sh.seed == SEED_CURRENT && exists p: nat :: p < |s.procs| && s.procs[p].pc == Seed(Load)
  }

  ghost predicate CanReload(sh: Shared) {
    exists run: seq<State> :: IsRun(run) && run[0].sh == sh && Reloading(run[|run| - 1])
  }

  /** In an empty database, two processes can both load the seed: the second one finds the marker
      current under the lock and loads anyway. */
  lemma EmptyReloads(sh: Shared) returns (run: seq<State>)
    requires sh.planDone == 0 && sh.binDone == 0 && sh.seed.Undef? && sh.bin.Undef?
    ensures IsRun(run) && run[0].sh == sh && run[|run| - 1].sh.seed == SEED_CURRENT
    ensures |run[|run| - 1].procs| == 2 && run[|run| - 1].procs[1].pc == Seed(Load)
  {
    hide Reach;
    var s := State(sh, [START, START]);
    var q := PARTIAL.(pc := Seed(Lock));
    Stay(s);
    assert With(s, 0, sh, START) == s;
    ToPartial(s, s, 0, sh);
    var sh1 := PlanFixed(sh);
    var t := State(sh1, [q, START]);
    assert With(s, 0, sh1, q) == t == With(t, 1, sh1, START);
    ToPartial(s, t, 1, sh1);
    var u := State(sh1, [q, q]);
    assert With(t, 1, sh1, q) == u == With(u, 0, sh1, q);
    PartialLoad(s, u, 0, sh1);
    run := SecondLoad(s, u, sh1.(bin := BIN_CURRENT));
  }

  lemma SecondLoad(s: State, t: State, sh: Shared) returns (run: seq<State>)
    requires Init(s) && Alone(s, t, 0, sh, PARTIAL.(pc := Seed(Set), held := 1))
    requires |t.procs| == 2 && t.procs[1] == PARTIAL.(pc := Seed(Lock))
    ensures IsRun(run) && run[0] == s && run[|run| - 1].sh == sh.(seed := SEED_CURRENT)
    ensures |run[|run| - 1].procs| == 2 && run[|run| - 1].procs[1].pc == Seed(Load)
  {
    hide Reach;
    var sh1 := sh.(seed := SEED_CURRENT);
    var q, r := PARTIAL.(pc := Seed(Lock)), PARTIAL.(held := 1);
    Go(s, t, 0, sh, r.(pc := Seed(Set)), sh1, r.(pc := Seed(Unlock)));
    Go(s, t, 0, sh1, r.(pc := Seed(Unlock)), sh1, PARTIAL.(pc := Bin(Read(false))));
    var u := State(sh1, [PARTIAL.(pc := Bin(Read(false))), q]);
    assert With(t, 0, sh1, PARTIAL.(pc := Bin(Read(false)))) == u == With(u, 1, sh1, q);
    Go(s, u, 1, sh1, q, sh1, r.(pc := Seed(Read(true))));
    Go(s, u, 1, sh1, r.(pc := Seed(Read(true))), sh1, r.(pc := Seed(Open)));
    Go(s, u, 1, sh1, r.(pc := Seed(Open)), sh1, r.(pc := Seed(Load)));
    run := RunTo(s, With(u, 1, sh1, r.(pc := Seed(Load))));
  }

  /** In a database that is not empty no process ever wants a partial load. */
  ghost predicate NoPartial(s: State) {
    && (s.sh.seed.Def? || s.sh.bin.Def?)
    && forall i {:trigger s.procs[i]} :: 0 <= i < |s.procs| ==> Whole(s.sh, s.procs[i])
  }

  predicate Whole(sh: Shared, q: Proc) {
    !q.partial && (q.pc.Seed? && q.pc.at.ReadBin? ==> sh.bin.Def?)
  }

  lemma NoPartialOwn(sh: Shared, q: Proc, free: bool, sh': Shared, q': Proc)
    requires (sh.seed.Def? || sh.bin.Def?) && Whole(sh, q) && ProcStep(sh, q, free, sh', q')
    ensures Whole(sh', q') && (sh.seed.Def? ==> sh'.seed.Def?) && (sh.bin.Def? ==> sh'.bin.Def?)
  {
    hide PlanStep, SeedReadStep, SeedLoadStep, BinStep;
    if SeedReadStep(sh, q, free, sh', q') {
      ReadsWhole(sh, q, free, sh', q');
    } else {
      OtherWhole(sh, q, free, sh', q');
    }
  }

  lemma ReadsWhole(sh: Shared, q: Proc, free: bool, sh': Shared, q': Proc)
    requires (sh.seed.Def? || sh.bin.Def?) && Whole(sh, q) && SeedReadStep(sh, q, free, sh', q')
    ensures Whole(sh', q') && sh' == sh
  {
  }

  lemma OtherWhole(sh: Shared, q: Proc, free: bool, sh': Shared, q': Proc)
    requires Whole(sh, q) && ProcStep(sh, q, free, sh', q') && !SeedReadStep(sh, q, free, sh', q')
    ensures Whole(sh', q') && (sh.seed.Def? ==> sh'.seed.Def?) && (sh.bin.Def? ==> sh'.bin.Def?)
  {
    hide SeedReadStep;
  }

  lemma NoPartialStep(s: State, p: nat, s': State)
    requires NoPartial(s) && StepOf(s, p, s')
    ensures NoPartial(s')
  {
    hide ProcStep, LockFree;
    NoPartialOwn(s.sh, s.procs[p], LockFree(s.procs, p), s'.sh, s'.procs[p]);
    forall i | 0 <= i < |s'.procs| ensures Whole(s'.sh, s'.procs[i]) {
      assert i != p ==> s'.procs[i] == s.procs[i];
    }
  }

  lemma {:induction false} NoPartialRun(run: seq<State>, i: nat)
    requires IsRun(run) && i < |run| && (run[0].sh.seed.Def? || run[0].sh.bin.Def?)
    ensures NoPartial(run[i])
  {
    hide StepOf;
    if i > 0 {
      NoPartialRun(run, i - 1);
      assert StepAt(run, i - 1);
      var p: nat :| StepOf(run[i - 1], p, run[i]);
      NoPartialStep(run[i - 1], p, run[i]);
    }
  }

  /** A seed that is current can be loaded again exactly if the database is empty at the start. */
  lemma ReloadExactly(sh: Shared)
    requires sh.planDone == 0 && sh.binDone == 0
    ensures CanReload(sh) <==> sh.seed.Undef? && sh.bin.Undef?
  {
    if sh.seed.Undef? && sh.bin.Undef? {
      var run := EmptyReloads(sh);
      assert run[|run| - 1].procs[1].pc == Seed(Load);
    } else if CanReload(sh) {
      var run: seq<State> :| IsRun(run) && run[0].sh == sh && Reloading(run[|run| - 1]);
      var s := run[|run| - 1];
      var p: nat :| p < |s.procs| && s.procs[p].pc == Seed(Load);
      NoPartialRun(run, |run| - 1);
      assert Whole(s.sh, s.procs[p]);
      LoadNeeded(run, |run| - 1, p);
    }
  }

  // ----- coming through

  /** Some process has passed every check and all markers are current. */
  ghost predicate Through(s: State) {
    exists p: nat :: p < |s.procs| && s.procs[p].pc.Passed? && Current(s.sh)
  }

  ghost predicate CanPass(sh: Shared) {
    exists run: seq<State> :: IsRun(run) && run[0].sh == sh && Through(run[|run| - 1])
  }

  function BinFixed(sh: Shared): Shared {
    if sh.bin == BIN_CURRENT then sh else sh.(bin := BIN_CURRENT, binDone := sh.binDone + 1)
  }

  /** The binary check of a process alone. */
  lemma BinAlone(s: State, t: State, p: nat, sh: Shared, q: Proc)
    requires Alone(s, t, p, sh, q.(pc := Bin(Read(false)))) && q.held == 0 && !q.octo929
    ensures Alone(s, t, p, BinFixed(sh), q.(pc := Passed))
  {
    hide Reach, LockFree;
    if sh.bin == BIN_CURRENT {
      Go(s, t, p, sh, q.(pc := Bin(Read(false))), sh, q.(pc := Passed));
    } else {
      var r, sh' := q.(held := 1), BinFixed(sh);
      Go(s, t, p, sh, q.(pc := Bin(Read(false))), sh, q.(pc := Bin(Lock)));
      Go(s, t, p, sh, q.(pc := Bin(Lock)), sh, r.(pc := Bin(Read(true))));
      Go(s, t, p, sh, r.(pc := Bin(Read(true))), sh, r.(pc := Bin(Body)));
      Go(s, t, p, sh, r.(pc := Bin(Body)), sh, r.(pc := Bin(Set)));
      Go(s, t, p, sh, r.(pc := Bin(Set)), sh', r.(pc := Bin(Unlock)));
      Go(s, t, p, sh', r.(pc := Bin(Unlock)), sh', q.(pc := Passed));
    }
  }

  /** The end of a load of the seed, by a process alone. */
  lemma SetAlone(s: State, t: State, p: nat, sh: Shared, q: Proc)
    requires Alone(s, t, p, sh, q.(pc := Seed(Set), held := 1)) && q.held == 0 && !q.octo929 && sh.bin == BIN_CURRENT
    ensures Alone(s, t, p, sh.(seed := SEED_CURRENT), q.(pc := Passed))
  {
    hide Reach, LockFree;
    var r, sh' := q.(held := 1), sh.(seed := SEED_CURRENT);
    Go(s, t, p, sh, r.(pc := Seed(Set)), sh', r.(pc := Seed(Unlock)));
    Go(s, t, p, sh', r.(pc := Seed(Unlock)), sh', q.(pc := Bin(Read(false))));
    BinAlone(s, t, p, sh', q);
  }

  /** A full load of the seed by a process alone, with the special upgrade if it is asked for. */
  lemma FullAlone(s: State, t: State, p: nat, sh: Shared, q: Proc)
    requires q in {FULL, DONE} && Alone(s, t, p, sh, q.(pc := Seed(Open), held := 1))
    ensures Alone(s, t, p, sh.(bin := BIN_CURRENT, seed := SEED_CURRENT), DONE.(pc := Passed))
  {
    hide Reach, LockFree;
    var r, sh' := q.(held := 1), sh.(bin := BIN_CURRENT);
    Go(s, t, p, sh, r.(pc := Seed(Open)), sh, r.(pc := Seed(Load)));
    Go(s, t, p, sh, r.(pc := Seed(Load)), sh, r.(pc := Seed(Body)));
    Go(s, t, p, sh, r.(pc := Seed(Body)), sh, r.(pc := Seed(SetBin)));
    if q.octo929 {
      Go(s, t, p, sh, r.(pc := Seed(SetBin)), sh', r.(pc := Seed(Octo929)));
      Go(s, t, p, sh', r.(pc := Seed(Octo929)), sh', DONE.(pc := Seed(Set), held := 1));
    } else {
      Go(s, t, p, sh, r.(pc := Seed(SetBin)), sh', r.(pc := Seed(Set)));
    }
    SetAlone(s, t, p, sh', DONE);
  }

  lemma PassesAlone(sh: Shared)
    requires sh.planDone == 0 && sh.binDone == 0 && MayStart(sh)
    ensures CanPass(sh)
  {
    hide Reach;
    var s, sh1 := State(sh, [START]), PlanFixed(sh);
    Stay(s);
    assert With(s, 0, sh, START) == s;
    var sh2, q := sh1.(bin := BIN_CURRENT, seed := SEED_CURRENT), DONE;
    if sh.seed == SEED_CURRENT {
      ToSeed(s, s, 0, sh);
      Go(s, s, 0, sh1, START.(pc := Seed(Read(false))), sh1, START.(pc := Bin(Read(false))));
      BinAlone(s, s, 0, sh1, START);
      sh2, q := BinFixed(sh1), START;
    } else if sh.seed.Undef? && sh.bin.Undef? {
      ToPartial(s, s, 0, sh);
      PartialLoad(s, s, 0, sh1);
      SetAlone(s, s, 0, sh1.(bin := BIN_CURRENT), PARTIAL);
      q := PARTIAL;
    } else {
      ToOpen(s, s, 0, sh);
      FullAlone(s, s, 0, sh1, Wants(sh));
    }
    var u := With(s, 0, sh2, q.(pc := Passed));
    assert u.procs[0].pc.Passed? && Current(u.sh);
    var run := RunTo(s, u);
  }

  /** A process can come through with all markers current if and only if the binary marker is absent or not
      newer than that of this build, whatever the other markers are. */
  lemma PassExactly(sh: Shared)
    requires sh.planDone == 0 && sh.binDone == 0
    ensures CanPass(sh) <==> sh.bin.Undef? || sh.bin.v <= FMT_BINARY_DEFINITION
  {
    if MayStart(sh) {
      PassesAlone(sh);
    } else if CanPass(sh) {
      var run: seq<State> :| IsRun(run) && run[0].sh == sh && Through(run[|run| - 1]);
      QuietRun(run, |run| - 1);
    }
  }
}
