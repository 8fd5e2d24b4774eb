/**
 The checks that every process makes at startup: plan format, seed definitions, binary format.
 Each is a read of a shared marker, a lock, a second read, a body, a write of the marker and an
 unlock.  Any number of processes of one build run them concurrently, and each call can fail.
 */
module Upgrade {

  const FMT_PLAN_DEFINITION := 30
  const FMT_BINARY_DEFINITION := 20
  const FMT_SEED_DEFINITION := 8
  const FMT_SEED_DEFINITION_OCTO929 := 7

  /** A global variable node: undefined, or a number. */
  datatype Marker = Undef | Def(v: int)

  const PLAN_CURRENT := Def(FMT_PLAN_DEFINITION)
  const BIN_CURRENT := Def(FMT_BINARY_DEFINITION)
  const SEED_CURRENT := Def(FMT_SEED_DEFINITION)

  /** Where a process is within a check.  `locked` says whether this is the pass of the loop under
      the lock.  `Body` discards the plans, or upgrades the stored definitions; the steps from
      `ReadBin` to `Octo929` other than `Lock` and `Body` are only in the seed check. */
  datatype Spot =
    | Read(locked: bool) | ReadBin(locked: bool) | Lock | Open | Load | Body | SetBin | Octo929 | Set | Unlock

  datatype PC = Valid | Plan(at: Spot) | Seed(at: Spot) | Bin(at: Spot) | Passed | Failed | Ended

  /** `full`, `partial` and `octo929` are the flags of the seed loader; `held` counts the DDL locks
      of the process.  `leaked` and `slipped` record locks never given back and returns of success
      out of the middle of the upgrade of the definitions. */
  datatype Proc = Proc(pc: PC, full: bool, partial: bool, octo929: bool, held: nat, leaked: nat, slipped: bool)

  /** `planDone` and `binDone` count the completed upgrades of the plan and binary checks. */
  datatype Shared = Shared(plan: Marker, bin: Marker, seed: Marker, planDone: nat, binDone: nat)

  datatype State = State(sh: Shared, procs: seq<Proc>)

  // ----- steps of one process

  /** An error return that gives the lock back if it is held; giving it back can fail too. */
  predicate FailExit(q: Proc, q': Proc, locked: bool) {
    if !locked then q' == q.(pc := Failed)
    else (q.held > 0 && q' == q.(pc := Failed, held := q.held - 1)) || q' == q.(pc := Failed, leaked := q.leaked + 1)
  }

  /** A success return because the marker is current: under the lock, the lock stays held. */
  predicate FineExit(q: Proc, q': Proc, locked: bool, next: PC) {
    q' == (if locked then q.(pc := next, leaked := q.leaked + 1) else q.(pc := next))
  }

  /** A success return out of the upgrade of the definitions when a temporary file cannot be opened:
      the status is still that of the call before it. */
  predicate SlipExit(q: Proc, q': Proc, next: PC) {
    q.octo929 && ((q.held > 0 && q' == q.(pc := next, held := q.held - 1, slipped := true))
                  || q' == q.(pc := next, leaked := q.leaked + 1, slipped := true))
  }

  predicate TakeLock(q: Proc, q': Proc, free: bool, next: PC) {
    (free && q' == q.(pc := next, held := q.held + 1)) || q' == q.(pc := Failed)
  }

  predicate GiveLock(q: Proc, q': Proc, next: PC) {
    (q.held > 0 && q' == q.(pc := next, held := q.held - 1)) || q' == q.(pc := Failed, leaked := q.leaked + 1)
  }

  /** The flags of the seed loader after it reads a defined seed marker. */
  function SeedFlags(seed: int, q: Proc): Proc {
    var full := seed != FMT_SEED_DEFINITION;
    q.(full := full, octo929 := q.octo929 || (full && seed < FMT_SEED_DEFINITION_OCTO929))
  }

  /** The flags of the seed loader after it reads the binary marker instead. */
  function BinFlags(bin: Marker, q: Proc): Proc {
    if bin.Def? then q.(full := true, octo929 := true) else q.(partial := true)
  }

  /** What the seed loader decides from its flags. */
  function SeedDecided(q: Proc, locked: bool): Proc {
    if !q.full && !q.partial then q.(pc := Bin(Read(false)), leaked := q.leaked + if locked then 1 else 0)
    else q.(pc := if locked then Seed(Open) else Seed(Lock))
  }

  predicate ValidStep(sh: Shared, q: Proc, sh': Shared, q': Proc) {
    && q.pc.Valid? && sh' == sh
    && (q' == q.(pc := Failed) || ((sh.bin.Def? ==> sh.bin.v <= FMT_BINARY_DEFINITION)
        && q' == q.(pc := Plan(Read(false)))))
  }

  predicate PlanStep(sh: Shared, q: Proc, free: bool, sh': Shared, q': Proc) {
    q.pc.Plan? &&
    match q.pc.at
    case Read(locked) =>
      sh' == sh && (FailExit(q, q', locked)
                    || (if sh.plan == PLAN_CURRENT then FineExit(q, q', locked, Seed(Read(false)))
                        else q' == q.(pc := if locked then Plan(Body) else Plan(Lock))))
    case Lock => sh' == sh && TakeLock(q, q', free, Plan(Read(true)))
    case Body => sh' == sh && (FailExit(q, q', true) || q' == q.(pc := Plan(Set)))
    case Set =>
      (sh' == sh && FailExit(q, q', true))
      || (sh' == sh.(plan := PLAN_CURRENT, planDone := sh.planDone + 1) && q' == q.(pc := Plan(Unlock)))
    case Unlock => sh' == sh && GiveLock(q, q', Seed(Read(false)))
    case _ => false
  }

  /** The seed check up to the decision to load. */
  predicate SeedReadStep(sh: Shared, q: Proc, free: bool, sh': Shared, q': Proc) {
    q.pc.Seed? &&
    match q.pc.at
    case Read(locked) =>
      sh' == sh && (FailExit(q, q', locked)
                    || (if sh.seed.Undef? then q' == q.(pc := Seed(ReadBin(locked)))
                        else q' == SeedDecided(SeedFlags(sh.seed.v, q), locked)))
    case ReadBin(locked) =>
      sh' == sh && (FailExit(q, q', locked) || q' == SeedDecided(BinFlags(sh.bin, q), locked))
    case Lock => sh' == sh && TakeLock(q, q', free, Seed(Read(true)))
    case _ => false
  }

  /** The load of the seed, under the lock. */
  predicate SeedLoadStep(sh: Shared, q: Proc, sh': Shared, q': Proc) {
    q.pc.Seed? &&
    match q.pc.at
    case Open => sh' == sh && ((q.octo929 && FailExit(q, q', true)) || q' == q.(pc := Seed(Load)))
    case Load => sh' == sh && (FailExit(q, q', true) || q' == q.(pc := if q.full then Seed(Body) else Seed(SetBin)))
    case Body =>
      sh' == sh && (FailExit(q, q', true) || SlipExit(q, q', Bin(Read(false))) || q' == q.(pc := Seed(SetBin)))
    case SetBin =>
      (sh' == sh && FailExit(q, q', true))
      || (sh' == sh.(bin := BIN_CURRENT) && q' == q.(pc := if q.full && q.octo929 then Seed(Octo929) else Seed(Set)))
    case Octo929 => sh' == sh && (FailExit(q, q', true) || q' == q.(pc := Seed(Set), octo929 := false))
    case Set =>
      (sh' == sh && FailExit(q, q', true)) || (sh' == sh.(seed := SEED_CURRENT) && q' == q.(pc := Seed(Unlock)))
    case Unlock => sh' == sh && GiveLock(q, q', Bin(Read(false)))
    case _ => false
  }

  /** The binary check.  With the flag for the special upgrade still set its body closes a file that is
      not open, which has no defined outcome: the process fails or ends. */
  predicate BinStep(sh: Shared, q: Proc, free: bool, sh': Shared, q': Proc) {
    q.pc.Bin? &&
    match q.pc.at
    case Read(locked) =>
      sh' == sh && (FailExit(q, q', locked)
                    || (if sh.bin == BIN_CURRENT then FineExit(q, q', locked, Passed)
                        else q' == q.(pc := if locked then Bin(Body) else Bin(Lock))))
    case Lock => sh' == sh && TakeLock(q, q', free, Bin(Read(true)))
    case Body => sh' == sh && (FailExit(q, q', true) || (!q.octo929 && q' == q.(pc := Bin(Set))))
    case Set =>
      (sh' == sh && FailExit(q, q', true))
      || (sh' == sh.(bin := BIN_CURRENT, binDone := sh.binDone + 1) && q' == q.(pc := Bin(Unlock)))
    case Unlock => sh' == sh && GiveLock(q, q', Passed)
    case _ => false
  }

  /** A process may end at any time; the database then drops its locks. */
  predicate EndStep(sh: Shared, q: Proc, sh': Shared, q': Proc) {
    sh' == sh && q' == q.(pc := Ended, held := 0, leaked := 0)
  }

  predicate ProcStep(sh: Shared, q: Proc, free: bool, sh': Shared, q': Proc) {
    || ValidStep(sh, q, sh', q') || PlanStep(sh, q, free, sh', q')
    || SeedReadStep(sh, q, free, sh', q') || SeedLoadStep(sh, q, sh', q')
    || BinStep(sh, q, free, sh', q') || EndStep(sh, q, sh', q')
  }

  /** No process other than `p` holds the lock. */
  ghost predicate LockFree(procs: seq<Proc>, p: nat) {
    forall i :: 0 <= i < |procs| && i != p ==> procs[i].held == 0
  }

  ghost predicate StepOf(s: State, p: nat, s': State) {
    && p < |s.procs| == |s'.procs|
    && s'.procs == s.procs[p := s'.procs[p]]
    && ProcStep(s.sh, s.procs[p], LockFree(s.procs, p), s'.sh, s'.procs[p])
  }

  ghost predicate Next(s: State, s': State) {
    exists p: nat :: StepOf(s, p, s')
  }

  ghost predicate Init(s: State) {
    && s.sh.planDone == 0 && s.sh.binDone == 0
    && forall i :: 0 <= i < |s.procs| ==> s.procs[i] == Proc(Valid, false, false, false, 0, 0, false)
  }

  ghost predicate StepAt(run: seq<State>, i: nat) {
    i + 1 < |run| ==> Next(run[i], run[i + 1])
  }

  ghost predicate IsRun(run: seq<State>) {
    run != [] && Init(run[0]) && forall i: nat :: StepAt(run, i)
  }

  // ----- the invariant

  /** The code between taking the lock and giving it back. */
  predicate Locked(at: Spot) {
    if at.Read? || at.ReadBin? then at.locked else !at.Lock?
  }

  predicate InLock(pc: PC) {
    (pc.Plan? || pc.Seed? || pc.Bin?) && Locked(pc.at)
  }

  predicate PastPlan(pc: PC) {
    pc.Seed? || PastSeed(pc)
  }

  predicate PastSeed(pc: PC) {
    pc.Bin? || pc.Passed?
  }

  predicate Balanced(q: Proc) {
    q.held == q.leaked + (if InLock(q.pc) then 1 else 0)
  }

  predicate SameFlags(q: Proc, q': Proc) {
    q'.full == q.full && q'.partial == q.partial && q'.octo929 == q.octo929 && q'.slipped == q.slipped
  }

  predicate SeedAfterBin(sh: Shared) {
    sh.seed == SEED_CURRENT ==> sh.bin == BIN_CURRENT
  }

  /** What a process may rely on, by the check it is in. */
  ghost predicate Knows(sh: Shared, q: Proc) {
    && (PastPlan(q.pc) ==> sh.plan == PLAN_CURRENT)
    && (PastSeed(q.pc) && !q.slipped ==> sh.seed == SEED_CURRENT)
    && (q.pc.Passed? ==> sh.bin == BIN_CURRENT)
    && (q.octo929 ==> SeedAfterBin(sh))
    && (q.pc.Plan? ==> PlanKnows(sh, q.pc.at))
    && (q.pc.Seed? ==> SeedKnows(sh, q, q.pc.at))
    && (q.pc.Bin? ==> BinKnows(sh, q.pc.at))
  }

  ghost predicate PlanKnows(sh: Shared, at: Spot) {
    (at.Unlock? ==> sh.plan == PLAN_CURRENT) && (at.Body? || at.Set? ==> sh.plan != PLAN_CURRENT)
  }

  ghost predicate BinKnows(sh: Shared, at: Spot) {
    (at.Unlock? ==> sh.bin == BIN_CURRENT) && (at.Body? || at.Set? ==> sh.bin != BIN_CURRENT)
  }

  /** Under the lock, a load of the seed that is not full finds its marker current or undefined. */
  ghost predicate SeedKnows(sh: Shared, q: Proc, at: Spot) {
    && (at == ReadBin(true) ==> sh.seed.Undef?)
    && (at.ReadBin? ==> SeedAfterBin(sh))
    && (at.Open? || at.Load? ==> (q.full || q.partial) && (sh.seed.Def? ==> (q.full <==> sh.seed != SEED_CURRENT)))
    && (at.Octo929? || at.Set? ==> sh.bin == BIN_CURRENT)
    && (at.Unlock? ==> sh.seed == SEED_CURRENT)
  }

  ghost predicate SharedInv(sh: Shared) {
    && sh.planDone <= 1 && (sh.planDone == 1 ==> sh.plan == PLAN_CURRENT)
    && sh.binDone <= 1 && (sh.binDone == 1 ==> sh.bin == BIN_CURRENT)
  }

  ghost predicate Exclusive(procs: seq<Proc>) {
    forall i, j :: 0 <= i < |procs| && 0 <= j < |procs| && i != j && procs[i].held > 0 ==> procs[j].held == 0
  }

  ghost predicate Inv(s: State) {
    && SharedInv(s.sh) && Exclusive(s.procs)
    && forall i {:trigger s.procs[i]} :: 0 <= i < |s.procs| ==> Balanced(s.procs[i]) && Knows(s.sh, s.procs[i])
  }

  /** Markers that are current stay current, and the seed marker becomes current after the binary one. */
  ghost predicate Stable(sh: Shared, sh': Shared) {
    && (sh.plan == PLAN_CURRENT ==> sh'.plan == PLAN_CURRENT)
    && (sh.bin == BIN_CURRENT ==> sh'.bin == BIN_CURRENT)
    && (sh.seed == SEED_CURRENT ==> sh'.seed == SEED_CURRENT)
    && (sh'.seed == SEED_CURRENT ==> sh.seed == SEED_CURRENT || sh'.bin == BIN_CURRENT)
  }

  lemma FailLocks(q: Proc, q': Proc, locked: bool)
    requires q.held == q.leaked + (if locked then 1 else 0)
    ensures FailExit(q, q', locked) ==> q'.pc == Failed && q'.held == q'.leaked <= q.held
  {
  }

  lemma FineLocks(q: Proc, q': Proc, locked: bool, next: PC)
    requires q.held == q.leaked + (if locked then 1 else 0)
    ensures FineExit(q, q', locked, next) ==> q'.pc == next && q'.held == q'.leaked <= q.held
  {
  }

  lemma GiveLocks(q: Proc, q': Proc, next: PC)
    requires q.held == q.leaked + 1
    ensures GiveLock(q, q', next) ==> q'.pc in {next, Failed} && q'.held == q'.leaked <= q.held
    ensures SlipExit(q, q', next) ==> q'.pc == next && q'.held == q'.leaked <= q.held
  {
  }

  lemma TakeLocks(q: Proc, q': Proc, free: bool, next: PC)
    requires q.held == q.leaked && TakeLock(q, q', free, next)
    ensures (q'.pc == Failed && q'.held == q'.leaked == q.held) || (free && q'.pc == next && q'.held == q'.leaked + 1)
  {
  }

  /** What each kind of exit does to the count of locks. */
  lemma LockExits(q: Proc, q': Proc, locked: bool, free: bool, next: PC)
    requires q.held == q.leaked + (if locked then 1 else 0)
    ensures FailExit(q, q', locked) ==> q'.pc == Failed && q'.held == q'.leaked <= q.held
    ensures FineExit(q, q', locked, next) ==> q'.pc == next && q'.held == q'.leaked <= q.held
    ensures locked && GiveLock(q, q', next) ==> q'.pc in {next, Failed} && q'.held == q'.leaked <= q.held
    ensures locked && SlipExit(q, q', next) ==> q'.pc == next && q'.held == q'.leaked <= q.held
    ensures !locked && TakeLock(q, q', free, next)
      ==> (q'.pc == Failed && q'.held == q'.leaked == q.held) || (free && q'.pc == next && q'.held == q'.leaked + 1)
  {
    hide FailExit, FineExit, TakeLock, GiveLock, SlipExit;
    FailLocks(q, q', locked);
    FineLocks(q, q', locked, next);
    if locked {
      GiveLocks(q, q', next);
    } else if TakeLock(q, q', free, next) {
      TakeLocks(q, q', free, next);
    }
  }

  lemma FailFlags(q: Proc, q': Proc, locked: bool)
    ensures FailExit(q, q', locked) ==> SameFlags(q, q') && q'.pc == Failed
  {
  }

  lemma FineFlags(q: Proc, q': Proc, locked: bool, next: PC)
    ensures FineExit(q, q', locked, next) ==> SameFlags(q, q') && q'.pc == next
  {
  }

  lemma GiveFlags(q: Proc, q': Proc, next: PC)
    ensures GiveLock(q, q', next) ==> SameFlags(q, q') && q'.pc in {next, Failed}
  {
  }

  lemma TakeFlags(q: Proc, q': Proc, free: bool, next: PC)
    ensures TakeLock(q, q', free, next) ==> SameFlags(q, q') && q'.pc in {next, Failed}
  {
  }

  lemma SlipFlags(q: Proc, q': Proc, next: PC)
    ensures SlipExit(q, q', next) ==> SameFlags(q.(slipped := true), q') && q'.pc == next && q.octo929
  {
  }

  /** What each kind of exit does to the flags. */
  lemma ExitFlags(q: Proc, q': Proc, locked: bool, free: bool, next: PC)
    ensures FailExit(q, q', locked) ==> SameFlags(q, q') && q'.pc == Failed
    ensures FineExit(q, q', locked, next) ==> SameFlags(q, q') && q'.pc == next
    ensures GiveLock(q, q', next) || TakeLock(q, q', free, next) ==> SameFlags(q, q') && q'.pc in {next, Failed}
    ensures SlipExit(q, q', next) ==> SameFlags(q.(slipped := true), q') && q'.pc == next && q.octo929
  {
    hide FailExit, FineExit, TakeLock, GiveLock, SlipExit;
    FailFlags(q, q', locked);
    FineFlags(q, q', locked, next);
    GiveFlags(q, q', next);
    TakeFlags(q, q', free, next);
    SlipFlags(q, q', next);
  }

  lemma PlanLocks(sh: Shared, q: Proc, free: bool, sh': Shared, q': Proc)
    requires Balanced(q) && PlanStep(sh, q, free, sh', q')
    ensures Balanced(q')
    ensures sh' != sh ==> q.held > 0
    ensures q'.held > q.held ==> free
  {
    hide FailExit, FineExit, TakeLock, GiveLock, SlipExit;
    LockExits(q, q', Locked(q.pc.at), free, if q.pc.at.Lock? then Plan(Read(true)) else Seed(Read(false)));
  }

  lemma PlanMarkers(sh: Shared, q: Proc, free: bool, sh': Shared, q': Proc)
    requires Knows(sh, q) && SharedInv(sh) && PlanStep(sh, q, free, sh', q')
    ensures Knows(sh', q') && SharedInv(sh') && Stable(sh, sh')
  {
    hide FailExit, FineExit, TakeLock, GiveLock, SlipExit;
    ExitFlags(q, q', Locked(q.pc.at), free, if q.pc.at.Lock? then Plan(Read(true)) else Seed(Read(false)));
  }

  lemma DecidedLocks(q: Proc, locked: bool)
    requires q.held == q.leaked + (if locked then 1 else 0)
    ensures Balanced(SeedDecided(q, locked)) && SeedDecided(q, locked).held == q.held
  {
  }

  lemma DecidedMarkers(sh: Shared, q: Proc, locked: bool)
    requires sh.plan == PLAN_CURRENT && (q.octo929 ==> SeedAfterBin(sh))
    requires !q.full && !q.partial ==> sh.seed == SEED_CURRENT
    requires locked && sh.seed.Def? ==> (q.full <==> sh.seed != SEED_CURRENT)
    ensures Knows(sh, SeedDecided(q, locked))
  {
  }

  lemma SeedReadLocks(sh: Shared, q: Proc, free: bool, sh': Shared, q': Proc)
    requires Balanced(q) && SeedReadStep(sh, q, free, sh', q')
    ensures Balanced(q')
    ensures sh' != sh ==> q.held > 0
    ensures q'.held > q.held ==> free
  {
    hide FailExit, FineExit, TakeLock, GiveLock, SlipExit, SeedDecided;
    LockExits(q, q', Locked(q.pc.at), free, if q.pc.at.Lock? then Seed(Read(true)) else Bin(Read(false)));
    if q.pc.at.Read? && sh.seed.Def? {
      DecidedLocks(SeedFlags(sh.seed.v, q), q.pc.at.locked);
    } else if q.pc.at.ReadBin? {
      DecidedLocks(BinFlags(sh.bin, q), q.pc.at.locked);
    }
  }

  lemma SeedReadMarkers(sh: Shared, q: Proc, free: bool, sh': Shared, q': Proc)
    requires Knows(sh, q) && SharedInv(sh) && SeedReadStep(sh, q, free, sh', q')
    ensures Knows(sh', q') && SharedInv(sh') && Stable(sh, sh')
  {
    hide FailExit, FineExit, TakeLock, GiveLock, SlipExit, SeedDecided;
    ExitFlags(q, q', Locked(q.pc.at), free, if q.pc.at.Lock? then Seed(Read(true)) else Bin(Read(false)));
    if q.pc.at.Read? && sh.seed.Def? {
      DecidedMarkers(sh, SeedFlags(sh.seed.v, q), q.pc.at.locked);
    } else if q.pc.at.ReadBin? {
      DecidedMarkers(sh, BinFlags(sh.bin, q), q.pc.at.locked);
    }
  }

  lemma SeedLoadLocks(sh: Shared, q: Proc, sh': Shared, q': Proc)
    requires Balanced(q) && SeedLoadStep(sh, q, sh', q')
    ensures Balanced(q')
    ensures sh' != sh ==> q.held > 0
    ensures q'.held <= q.held
  {
    hide FailExit, FineExit, TakeLock, GiveLock, SlipExit;
    LockExits(q, q', Locked(q.pc.at), false, if q.pc.at.Lock? then Seed(Read(true)) else Bin(Read(false)));
  }

  lemma SeedLoadMarkers(sh: Shared, q: Proc, sh': Shared, q': Proc)
    requires Knows(sh, q) && SharedInv(sh) && SeedLoadStep(sh, q, sh', q')
    ensures Knows(sh', q') && SharedInv(sh') && Stable(sh, sh')
  {
    hide FailExit, FineExit, TakeLock, GiveLock, SlipExit;
    ExitFlags(q, q', Locked(q.pc.at), false, if q.pc.at.Lock? then Seed(Read(true)) else Bin(Read(false)));
  }

  lemma BinLocks(sh: Shared, q: Proc, free: bool, sh': Shared, q': Proc)
    requires Balanced(q) && BinStep(sh, q, free, sh', q')
    ensures Balanced(q')
    ensures sh' != sh ==> q.held > 0
    ensures q'.held > q.held ==> free
  {
    hide FailExit, FineExit, TakeLock, GiveLock, SlipExit;
    LockExits(q, q', Locked(q.pc.at), free, if q.pc.at.Lock? then Bin(Read(true)) else Passed);
  }

  lemma BinMarkers(sh: Shared, q: Proc, free: bool, sh': Shared, q': Proc)
    requires Knows(sh, q) && SharedInv(sh) && BinStep(sh, q, free, sh', q')
    ensures Knows(sh', q') && SharedInv(sh') && Stable(sh, sh')
  {
    hide FailExit, FineExit, TakeLock, GiveLock, SlipExit;
    ExitFlags(q, q', Locked(q.pc.at), free, if q.pc.at.Lock? then Bin(Read(true)) else Passed);
  }

  /** A process keeps what it knows while another one, which holds the lock if it changes anything,
      takes a step. */
  lemma OthersKnow(sh: Shared, r: Proc, sh': Shared)
    requires Balanced(r) && Knows(sh, r) && Stable(sh, sh') && (sh' != sh ==> r.held == 0)
    ensures Knows(sh', r)
  {
  }

  lemma OwnStep(sh: Shared, q: Proc, free: bool, sh': Shared, q': Proc)
    requires Balanced(q) && Knows(sh, q) && SharedInv(sh) && ProcStep(sh, q, free, sh', q')
    ensures Balanced(q') && Knows(sh', q') && SharedInv(sh') && Stable(sh, sh')
    ensures sh' != sh ==> q.held > 0
    ensures q'.held > q.held ==> free
  {
    hide PlanStep, SeedReadStep, SeedLoadStep, BinStep;
    if PlanStep(sh, q, free, sh', q') {
      PlanLocks(sh, q, free, sh', q');
      PlanMarkers(sh, q, free, sh', q');
    } else if SeedReadStep(sh, q, free, sh', q') {
      SeedReadLocks(sh, q, free, sh', q');
      SeedReadMarkers(sh, q, free, sh', q');
    } else if SeedLoadStep(sh, q, sh', q') {
      SeedLoadLocks(sh, q, sh', q');
      SeedLoadMarkers(sh, q, sh', q');
    } else if BinStep(sh, q, free, sh', q') {
      BinLocks(sh, q, free, sh', q');
      BinMarkers(sh, q, free, sh', q');
    }
  }

  /** Every step of every process keeps the invariant. */
  lemma InvStep(s: State, p: nat, s': State)
    requires Inv(s) && StepOf(s, p, s')
    ensures Inv(s') && Stable(s.sh, s'.sh)
  {
    hide ProcStep, Knows, SharedInv, Stable, Balanced;
    OwnStep(s.sh, s.procs[p], LockFree(s.procs, p), s'.sh, s'.procs[p]);
    forall i | 0 <= i < |s'.procs| ensures Balanced(s'.procs[i]) && Knows(s'.sh, s'.procs[i]) {
      if i != p {
        OthersKnow(s.sh, s.procs[i], s'.sh);
      }
    }
  }

  // ----- safety over whole runs

  lemma InitInv(s: State)
    requires Init(s)
    ensures Inv(s)
  {
  }

  lemma {:induction false} RunInv(run: seq<State>, i: nat)
    requires IsRun(run) && i < |run|
    ensures Inv(run[i])
  {
    hide Inv, Init, StepOf;
    if i == 0 {
      InitInv(run[0]);
    } else {
      RunInv(run, i - 1);
      assert StepAt(run, i - 1);
      var p: nat :| StepOf(run[i - 1], p, run[i]);
      InvStep(run[i - 1], p, run[i]);
    }
  }

  lemma {:induction false} RunStable(run: seq<State>, i: nat, j: nat)
    requires IsRun(run) && i <= j < |run|
    ensures Stable(run[i].sh, run[j].sh)
    ensures |run[j].procs| == |run[i].procs|
    decreases j
  {
    hide Inv, Init, ProcStep;
    if i < j {
      RunStable(run, i, j - 1);
      RunInv(run, j - 1);
      assert StepAt(run, j - 1);
      var p: nat :| StepOf(run[j - 1], p, run[j]);
      InvStep(run[j - 1], p, run[j]);
    }
  }

  /** The steps that change the schema or a marker. */
  predicate InBody(pc: PC) {
    InLock(pc) && !pc.at.Read? && !pc.at.ReadBin? && !pc.at.Unlock?
  }

  /** In every interleaving, at most one process is in any of the upgrade bodies. */
  lemma MutualExclusion(run: seq<State>, i: nat, p: nat, q: nat)
    requires IsRun(run) && i < |run| && p < |run[i].procs| && q < |run[i].procs|
    requires InBody(run[i].procs[p].pc) && InBody(run[i].procs[q].pc)
    ensures p == q
  {
    RunInv(run, i);
    assert Balanced(run[i].procs[p]) && Balanced(run[i].procs[q]);
  }

  /** At most one plan upgrade and one binary upgrade complete in a run. */
  lemma AtMostOnce(run: seq<State>, i: nat)
    requires IsRun(run) && i < |run|
    ensures run[i].sh.planDone <= 1 && run[i].sh.binDone <= 1
  {
    RunInv(run, i);
  }

  /** A process that passed the plan check leaves the plan marker current from then on. */
  lemma PlanCheckHolds(run: seq<State>, i: nat, j: nat, p: nat)
    requires IsRun(run) && i <= j < |run| && p < |run[i].procs| && PastPlan(run[i].procs[p].pc)
    ensures run[j].sh.plan == PLAN_CURRENT
  {
    RunInv(run, i);
    assert Knows(run[i].sh, run[i].procs[p]);
    RunStable(run, i, j);
  }

  /** If the seed marker becomes current in a run, the binary marker is current from then on. */
  lemma SeedImpliesBin(run: seq<State>, i: nat)
    requires IsRun(run) && i < |run| && run[0].sh.seed != SEED_CURRENT
    ensures run[i].sh.seed == SEED_CURRENT ==> run[i].sh.bin == BIN_CURRENT
  {
    RunStable(run, 0, i);
  }

  /** A process that passed all checks leaves the plan and binary markers current from then on, and the
      seed marker too unless its seed check returned out of the middle of the load. */
  lemma StartupHolds(run: seq<State>, i: nat, j: nat, p: nat)
    requires IsRun(run) && i <= j < |run| && p < |run[i].procs| && run[i].procs[p].pc.Passed?
    ensures run[j].sh.plan == PLAN_CURRENT && run[j].sh.bin == BIN_CURRENT
    ensures !run[i].procs[p].slipped ==> run[j].sh.seed == SEED_CURRENT
  {
    RunInv(run, i);
    assert Knows(run[i].sh, run[i].procs[p]);
    RunStable(run, i, j);
  }

  /** The body of the binary check is entered with the flag for the special upgrade only after such a
      return of the seed check, which leaves its file closed. */
  lemma FlagMeansSlip(run: seq<State>, i: nat, p: nat)
    requires IsRun(run) && i < |run| && p < |run[i].procs| && run[i].procs[p].pc == Bin(Body) && run[i].procs[p].octo929
    ensures run[i].procs[p].slipped
  {
    RunInv(run, i);
    assert Knows(run[i].sh, run[i].procs[p]);
  }

  /** While a process keeps a leaked lock, no other process gets into the locked code. */
  lemma LeakBlocks(run: seq<State>, i: nat, p: nat, q: nat)
    requires IsRun(run) && i < |run| && p < |run[i].procs| && q < |run[i].procs| && p != q
    requires run[i].procs[p].leaked > 0
    ensures !InLock(run[i].procs[q].pc)
  {
    RunInv(run, i);
    assert Balanced(run[i].procs[p]) && Balanced(run[i].procs[q]);
  }

  /** A process about to load the seed, under the lock, finds the marker not current, except if it
      comes with no more than the stale wish for a partial load. */
  lemma LoadNeeded(run: seq<State>, i: nat, p: nat)
    requires IsRun(run) && i < |run| && p < |run[i].procs| && run[i].procs[p].pc == Seed(Load)
    ensures run[i].sh.seed == SEED_CURRENT <==> run[i].sh.seed.Def? && !run[i].procs[p].full
    ensures !run[i].procs[p].full ==> run[i].procs[p].partial
  {
    RunInv(run, i);
    assert Knows(run[i].sh, run[i].procs[p]);
  }
}
