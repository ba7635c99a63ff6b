/** The locks of the job manager, as each of its methods takes them, and why no set of threads running
    those methods can block each other for ever (src/job_manager.rs). */
module LockOrder {

  /** The registry's own lock, the creation time and, per job, its three mutexes. */
  datatype Lock =
    | RegistryLock
    | LastCreatedLock
    | StateOf(job: nat)
    | CompletedAtOf(job: nat)
    | LastActivityOf(job: nat)

  function LockRank(l: Lock): (r: nat)
    ensures r <= 4
  {
    match l
    case RegistryLock => 0
    case LastCreatedLock => 1
    case StateOf(_) => 2
    case CompletedAtOf(_) => 3
    case LastActivityOf(_) => 4
  }

  datatype Mode = Shared | Exclusive

  datatype LockOp = Acquire(lock: Lock, mode: Mode) | Release(lock: Lock)

  // --- What each method does -----------------------------------------------------------------

  datatype Removal = Removal(job: nat, found: bool)

  datatype CreateOutcome = Full | Collision | Inserted

  /** One call of a manager method, with what it found; scans list the jobs in iteration order. */
  datatype Call =
    | CreateJob(outcome: CreateOutcome)
    | TransitionState(job: nat, found: bool, allowed: bool, terminal: bool)
    | CancelJob(job: nat, found: bool, wasTerminal: bool, stillFound: bool, allowed: bool)
    | CleanupJob(removal: Removal)
    | ForceCleanupAll(removals: seq<Removal>)
    | CleanupIdleJobs(scanned: seq<nat>, quiet: bool, examined: seq<nat>, removals: seq<Removal>)
    | UpdateActivity(job: nat, found: bool)
    | ReadState(job: nat)
    | Lookup

  function Around(l: Lock, mode: Mode, inner: seq<LockOp>): seq<LockOp> {
    [Acquire(l, mode)] + inner + [Release(l)]
  }

  function ReadRegistry(): seq<LockOp> {
    Around(RegistryLock, Shared, [])
  }

  function WriteRegistry(): seq<LockOp> {
    Around(RegistryLock, Exclusive, [])
  }

  function Mutex(l: Lock, inner: seq<LockOp>): seq<LockOp> {
    Around(l, Exclusive, inner)
  }

  function TransitionTrace(job: nat, found: bool, allowed: bool, terminal: bool): seq<LockOp> {
    ReadRegistry()
    + if !found then []
      else Mutex(StateOf(job),
                 if !allowed then []
                 else Mutex(LastActivityOf(job), []) + if terminal then Mutex(CompletedAtOf(job), []) else [])
  }

  function RemovalTrace(removals: seq<Removal>): seq<LockOp> {
    if removals == [] then []
    else ReadRegistry() + (if removals[0].found then WriteRegistry() else []) + RemovalTrace(removals[1..])
  }

  /** The first scan looks at states only. */
  function ScanTrace(jobs: seq<nat>): seq<LockOp> {
    if jobs == [] then [] else Mutex(StateOf(jobs[0]), []) + ScanTrace(jobs[1..])
  }

  /** The second scan holds a job's three mutexes together. */
  function ExamineTrace(jobs: seq<nat>): seq<LockOp> {
    if jobs == [] then []
    else
      Mutex(StateOf(jobs[0]), Mutex(CompletedAtOf(jobs[0]), Mutex(LastActivityOf(jobs[0]), [])))
      + ExamineTrace(jobs[1..])
  }

  function Trace(call: Call): seq<LockOp> {
    match call
    case CreateJob(Full) => ReadRegistry()
    case CreateJob(Collision) => ReadRegistry() + ReadRegistry()
    case CreateJob(Inserted) => ReadRegistry() + ReadRegistry() + WriteRegistry() + Mutex(LastCreatedLock, [])
    case TransitionState(job, found, allowed, terminal) => TransitionTrace(job, found, allowed, terminal)
    case CancelJob(job, found, wasTerminal, stillFound, allowed) =>
      ReadRegistry()
      + if !found then []
        else Mutex(StateOf(job), []) + if wasTerminal then [] else TransitionTrace(job, stillFound, allowed, true)
    case CleanupJob(removal) => RemovalTrace([removal])
    case ForceCleanupAll(removals) => ReadRegistry() + RemovalTrace(removals)
    case CleanupIdleJobs(scanned, quiet, examined, removals) =>
      Mutex(LastCreatedLock, [])
      + Around(RegistryLock, Shared, ScanTrace(scanned))
      + (if quiet then ReadRegistry() else Around(RegistryLock, Shared, ExamineTrace(examined)))
      + RemovalTrace(removals)
    case UpdateActivity(job, found) => ReadRegistry() + if found then Mutex(LastActivityOf(job), []) else []
    case ReadState(job) => Mutex(StateOf(job), [])
    case Lookup => ReadRegistry()
  }

  function Program(calls: seq<Call>): seq<LockOp> {
    if calls == [] then [] else Trace(calls[0]) + Program(calls[1..])
  }

  // --- The discipline ------------------------------------------------------------------------

  /** Which lock may be acquired while which is held: under the registry's lock any mutex of a job, under a
      job's state mutex its other two, under its completion time its last activity. */
  predicate MayNest(held: Lock, l: Lock) {
    || (held.RegistryLock? && (l.StateOf? || l.CompletedAtOf? || l.LastActivityOf?))
    || (held.StateOf? && (l == CompletedAtOf(held.job) || l == LastActivityOf(held.job)))
    || (held.CompletedAtOf? && l == LastActivityOf(held.job))
  }

  predicate Above(held: map<Lock, Mode>, l: Lock) {
    forall h :: h in held ==> MayNest(h, l)
  }

  lemma NestingClimbs(held: Lock, l: Lock)
    ensures MayNest(held, l) ==> LockRank(held) < LockRank(l)
  {
  }

  /** Every acquisition may nest in all locks held, every release is of a held lock, and the locks held
      at the end are `final`. */
  predicate Disciplined(held: map<Lock, Mode>, ops: seq<LockOp>, final: map<Lock, Mode>)
    decreases |ops|
  {
    if ops == [] then held == final
    else
      match ops[0]
      case Acquire(l, mode) => Above(held, l) && Disciplined(held[l := mode], ops[1..], final)
      case Release(l) => l in held && Disciplined(held - {l}, ops[1..], final)
  }

  lemma {:induction false} DisciplinedAppend(
      a: map<Lock, Mode>, first: seq<LockOp>, b: map<Lock, Mode>, second: seq<LockOp>, c: map<Lock, Mode>)
    requires Disciplined(a, first, b) && Disciplined(b, second, c)
    ensures Disciplined(a, first + second, c)
    decreases |first|
  {
    if first == [] {
      assert first + second == second;
    } else {
      assert (first + second)[1..] == first[1..] + second;
      match first[0]
      case Acquire(l, mode) => DisciplinedAppend(a[l := mode], first[1..], b, second, c);
      case Release(l) => DisciplinedAppend(a - {l}, first[1..], b, second, c);
    }
  }

  /** Taking a higher lock around something disciplined. */
  lemma AroundDisciplined(held: map<Lock, Mode>, l: Lock, mode: Mode, inner: seq<LockOp>)
    requires Above(held, l) && Disciplined(held[l := mode], inner, held[l := mode])
    ensures Disciplined(held, Around(l, mode, inner), held)
  {
    var within := held[l := mode];
    assert l !in held;
    assert within - {l} == held;
    assert Disciplined(within, [Release(l)], held) by {
      assert [Release(l)][1..] == [];
    }
    DisciplinedAppend(within, inner, within, [Release(l)], held);
    assert ([Acquire(l, mode)] + inner + [Release(l)])[1..] == inner + [Release(l)];
  }

  /** The blocks that hold at most the registry lock before a job's mutexes. */
  lemma {:induction false} ScanDisciplined(held: map<Lock, Mode>, jobs: seq<nat>)
    requires forall h :: h in held ==> h == RegistryLock
    ensures Disciplined(held, ScanTrace(jobs), held)
  {
    if jobs != [] {
      AroundDisciplined(held, StateOf(jobs[0]), Exclusive, []);
      ScanDisciplined(held, jobs[1..]);
      DisciplinedAppend(held, Mutex(StateOf(jobs[0]), []), held, ScanTrace(jobs[1..]), held);
    }
  }

  lemma {:induction false} ExamineDisciplined(held: map<Lock, Mode>, jobs: seq<nat>)
    requires forall h :: h in held ==> h == RegistryLock
    ensures Disciplined(held, ExamineTrace(jobs), held)
  {
    if jobs != [] {
      var s, c, a := StateOf(jobs[0]), CompletedAtOf(jobs[0]), LastActivityOf(jobs[0]);
      var h1 := held[s := Exclusive];
      var h2 := h1[c := Exclusive];
      AroundDisciplined(h2, a, Exclusive, []);
      AroundDisciplined(h1, c, Exclusive, Mutex(a, []));
      AroundDisciplined(held, s, Exclusive, Mutex(c, Mutex(a, [])));
      ExamineDisciplined(held, jobs[1..]);
      DisciplinedAppend(held, Mutex(s, Mutex(c, Mutex(a, []))), held, ExamineTrace(jobs[1..]), held);
    }
  }

  /** Self-contained: takes nothing over and leaves nothing behind. */
  predicate Clean(ops: seq<LockOp>) {
    Disciplined(map[], ops, map[])
  }

  lemma CleanAppend(first: seq<LockOp>, second: seq<LockOp>)
    requires Clean(first) && Clean(second)
    ensures Clean(first + second)
  {
    DisciplinedAppend(map[], first, map[], second, map[]);
  }

  lemma SimpleClean(l: Lock, mode: Mode)
    ensures Clean(Around(l, mode, [])) && Clean([])
  {
    AroundDisciplined(map[], l, mode, []);
  }

  lemma {:induction false} RemovalClean(removals: seq<Removal>)
    ensures Clean(RemovalTrace(removals))
  {
    if removals != [] {
      SimpleClean(RegistryLock, Shared);
      SimpleClean(RegistryLock, Exclusive);
      RemovalClean(removals[1..]);
      hide Clean;
      var write := if removals[0].found then WriteRegistry() else [];
      CleanAppend(ReadRegistry(), write);
      CleanAppend(ReadRegistry() + write, RemovalTrace(removals[1..]));
    }
  }

  lemma TransitionClean(job: nat, found: bool, allowed: bool, terminal: bool)
    ensures Clean(TransitionTrace(job, found, allowed, terminal))
  {
    var held := map[StateOf(job) := Exclusive];
    assert map[][StateOf(job) := Exclusive] == held;
    AroundDisciplined(held, LastActivityOf(job), Exclusive, []);
    AroundDisciplined(held, CompletedAtOf(job), Exclusive, []);
    var stamp := Mutex(LastActivityOf(job), []);
    var complete := if terminal then Mutex(CompletedAtOf(job), []) else [];
    DisciplinedAppend(held, stamp, held, complete, held);
    var inner := if !allowed then [] else stamp + complete;
    AroundDisciplined(map[], StateOf(job), Exclusive, inner);
    SimpleClean(RegistryLock, Shared);
    hide Clean, Disciplined;
    CleanAppend(ReadRegistry(), if !found then [] else Mutex(StateOf(job), inner));
  }

  lemma CleanIdleClean(scanned: seq<nat>, quiet: bool, examined: seq<nat>, removals: seq<Removal>)
    ensures Clean(Trace(CleanupIdleJobs(scanned, quiet, examined, removals)))
  {
    var held := map[RegistryLock := Shared];
    assert map[][RegistryLock := Shared] == held;
    ScanDisciplined(held, scanned);
    ExamineDisciplined(held, examined);
    AroundDisciplined(map[], RegistryLock, Shared, ScanTrace(scanned));
    AroundDisciplined(map[], RegistryLock, Shared, ExamineTrace(examined));
    SimpleClean(RegistryLock, Shared);
    SimpleClean(LastCreatedLock, Exclusive);
    RemovalClean(removals);
    var first := Around(RegistryLock, Shared, ScanTrace(scanned));
    var second := if quiet then ReadRegistry() else Around(RegistryLock, Shared, ExamineTrace(examined));
    assert Clean(first) && Clean(second);
    hide Clean, Disciplined;
    CleanAppend(Mutex(LastCreatedLock, []), first);
    CleanAppend(Mutex(LastCreatedLock, []) + first, second);
    CleanAppend(Mutex(LastCreatedLock, []) + first + second, RemovalTrace(removals));
  }

  /** Every method of the manager takes its locks in rank order and gives all of them back. */
  lemma CallsAreClean(call: Call)
    ensures Clean(Trace(call))
  {
    SimpleClean(RegistryLock, Shared);
    SimpleClean(RegistryLock, Exclusive);
    SimpleClean(LastCreatedLock, Exclusive);
    hide Clean;
    match call
    case CreateJob(outcome) =>
      CleanAppend(ReadRegistry(), ReadRegistry());
      CleanAppend(ReadRegistry() + ReadRegistry(), WriteRegistry());
      CleanAppend(ReadRegistry() + ReadRegistry() + WriteRegistry(), Mutex(LastCreatedLock, []));
    case TransitionState(job, found, allowed, terminal) =>
      TransitionClean(job, found, allowed, terminal);
    case CancelJob(job, found, wasTerminal, stillFound, allowed) =>
      SimpleClean(StateOf(job), Exclusive);
      TransitionClean(job, stillFound, allowed, true);
      var rest := if wasTerminal then [] else TransitionTrace(job, stillFound, allowed, true);
      CleanAppend(Mutex(StateOf(job), []), rest);
      CleanAppend(ReadRegistry(), if !found then [] else Mutex(StateOf(job), []) + rest);
    case CleanupJob(removal) =>
      RemovalClean([removal]);
    case ForceCleanupAll(removals) =>
      RemovalClean(removals);
      CleanAppend(ReadRegistry(), RemovalTrace(removals));
    case CleanupIdleJobs(scanned, quiet, examined, removals) =>
      CleanIdleClean(scanned, quiet, examined, removals);
    case UpdateActivity(job, found) =>
      SimpleClean(LastActivityOf(job), Exclusive);
      CleanAppend(ReadRegistry(), if found then Mutex(LastActivityOf(job), []) else []);
    case ReadState(job) =>
      SimpleClean(StateOf(job), Exclusive);
    case Lookup =>
  }

  lemma {:induction false} ProgramsAreClean(calls: seq<Call>)
    ensures Clean(Program(calls))
  {
    if calls != [] {
      CallsAreClean(calls[0]);
      ProgramsAreClean(calls[1..]);
      CleanAppend(Trace(calls[0]), Program(calls[1..]));
    }
  }

  /** Somewhere in the trace `l` is acquired while `held` is held. */
  predicate Nests(now: map<Lock, Mode>, ops: seq<LockOp>, held: Lock, l: Lock)
    decreases |ops|
  {
    ops != []
    && match ops[0]
       case Acquire(k, mode) => (k == l && held in now) || Nests(now[k := mode], ops[1..], held, l)
       case Release(k) => Nests(now - {k}, ops[1..], held, l)
  }

  lemma {:induction false} DisciplinedNests(
      now: map<Lock, Mode>, ops: seq<LockOp>, final: map<Lock, Mode>, held: Lock, l: Lock)
    requires Disciplined(now, ops, final) && Nests(now, ops, held, l)
    ensures MayNest(held, l)
    decreases |ops|
  {
    match ops[0]
    case Acquire(k, mode) =>
      if !(k == l && held in now) {
        DisciplinedNests(now[k := mode], ops[1..], final, held, l);
      }
    case Release(k) => DisciplinedNests(now - {k}, ops[1..], final, held, l);
  }

  lemma {:induction false} NestsBefore(now: map<Lock, Mode>, ops: seq<LockOp>, more: seq<LockOp>, held: Lock, l: Lock)
    requires Nests(now, ops, held, l)
    ensures Nests(now, ops + more, held, l)
    decreases |ops|
  {
    assert (ops + more)[1..] == ops[1..] + more;
    match ops[0]
    case Acquire(k, mode) =>
      if !(k == l && held in now) {
        NestsBefore(now[k := mode], ops[1..], more, held, l);
      }
    case Release(k) => NestsBefore(now - {k}, ops[1..], more, held, l);
  }

  lemma {:induction false} NestsAfter(
      now: map<Lock, Mode>, ops: seq<LockOp>, final: map<Lock, Mode>, more: seq<LockOp>, held: Lock, l: Lock)
    requires Disciplined(now, ops, final) && Nests(final, more, held, l)
    ensures Nests(now, ops + more, held, l)
    decreases |ops|
  {
    if ops == [] {
      assert ops + more == more;
    } else {
      assert (ops + more)[1..] == ops[1..] + more;
      match ops[0]
      case Acquire(k, mode) => NestsAfter(now[k := mode], ops[1..], final, more, held, l);
      case Release(k) => NestsAfter(now - {k}, ops[1..], final, more, held, l);
    }
  }

  lemma NestsAround(now: map<Lock, Mode>, k: Lock, mode: Mode, inner: seq<LockOp>, held: Lock, l: Lock)
    requires (k == l && held in now) || Nests(now[k := mode], inner, held, l)
    ensures Nests(now, Around(k, mode, inner), held, l)
  {
    var ops := Around(k, mode, inner);
    assert ops[0] == Acquire(k, mode) && ops[1..] == inner + [Release(k)];
    if !(k == l && held in now) {
      NestsBefore(now[k := mode], inner, [Release(k)], held, l);
    }
  }

  /** A transition stamps the activity, and a terminal one the completion time, under the state mutex; it takes
      that mutex iff the job is found, and goes on to the others only if the transition is allowed. */
  lemma TransitionNests(job: nat, found: bool, allowed: bool, terminal: bool)
    ensures var ops := Trace(TransitionState(job, found, allowed, terminal));
            && (Acquire(StateOf(job), Exclusive) in ops <==> found)
            && (Acquire(LastActivityOf(job), Exclusive) in ops <==> found && allowed)
            && (Acquire(CompletedAtOf(job), Exclusive) in ops <==> found && allowed && terminal)
            && |ops| == 2 + if !found then 0 else if !allowed then 2 else if terminal then 6 else 4
  {
  }

  /** Who takes the registry's lock exclusively: a creation that inserts, with the creation time after it, and
      a removal that finds its job; nothing else does on its own account. */
  lemma WritersLock(call: Call)
    ensures var ops := Trace(call);
            var writes := Acquire(RegistryLock, Exclusive) in ops;
            match call
            case CreateJob(outcome) => writes == outcome.Inserted? == (Acquire(LastCreatedLock, Exclusive) in ops)
            case CleanupJob(removal) => writes == removal.found
            case ForceCleanupAll(removals) => writes <==> exists i :: 0 <= i < |removals| && removals[i].found
            case UpdateActivity(job, found) =>
              !writes && (Acquire(LastActivityOf(job), Exclusive) in ops <==> found)
            case _ => true
  {
    match call
    case CreateJob(_) =>
    case CleanupJob(removal) =>
      RemovalWrites([removal]);
      assert [removal][0] == removal;
    case ForceCleanupAll(removals) => RemovalWrites(removals);
    case UpdateActivity(_, _) =>
    case _ =>
  }

  lemma {:induction false} RemovalWrites(removals: seq<Removal>)
    ensures Acquire(RegistryLock, Exclusive) in RemovalTrace(removals)
            <==> exists i :: 0 <= i < |removals| && removals[i].found
  {
    if removals != [] {
      RemovalWrites(removals[1..]);
      assert forall i :: 0 <= i < |removals| - 1 ==> removals[1..][i] == removals[i + 1];
      if i :| 0 <= i < |removals| && removals[i].found {
        assert i > 0 ==> removals[1..][i - 1].found;
      }
    }
  }

  /** The exact relation: some method acquires `l` while holding `held` iff it is one of these pairs, always of
      one and the same job. */
  lemma NestingIsExact(held: Lock, l: Lock)
    ensures (exists call :: Nests(map[], Trace(call), held, l)) <==> MayNest(held, l)
  {
    forall call | Nests(map[], Trace(call), held, l) ensures MayNest(held, l) {
      CallsAreClean(call);
      DisciplinedNests(map[], Trace(call), map[], held, l);
    }
    if MayNest(held, l) {
      NestingOccurs(held, l);
    }
  }

  lemma NestingOccurs(held: Lock, l: Lock)
    requires MayNest(held, l)
    ensures Nests(map[], Trace(CleanupIdleJobs([], false, [l.job], [])), held, l)
  {
    var job := l.job;
    ExaminationNests(held, l);
    SimpleClean(LastCreatedLock, Exclusive);
    SimpleClean(RegistryLock, Shared);
    var before := Mutex(LastCreatedLock, []) + Around(RegistryLock, Shared, ScanTrace([]));
    var examination := Around(RegistryLock, Shared, ExamineTrace([job]));
    CleanAppend(Mutex(LastCreatedLock, []), Around(RegistryLock, Shared, []));
    hide Nests, Disciplined;
    NestsAfter(map[], before, map[], examination, held, l);
    NestsBefore(map[], before + examination, [], held, l);
  }

  /** The examination of one job, lock by lock. */
  lemma ExaminationNests(held: Lock, l: Lock)
    requires MayNest(held, l)
    ensures Nests(map[], Around(RegistryLock, Shared, ExamineTrace([l.job])), held, l)
  {
    var job := l.job;
    var s, c, a := StateOf(job), CompletedAtOf(job), LastActivityOf(job);
    var none: map<Lock, Mode> := map[];
    var h1 := none[RegistryLock := Shared];
    var h2 := h1[s := Exclusive];
    var h3 := h2[c := Exclusive];
    var inner := Mutex(s, Mutex(c, Mutex(a, [])));
    assert [job][1..] == [] && ExamineTrace([job]) == inner + [];
    hide Nests;
    if l == a {
      NestsAround(h3, a, Exclusive, [], held, l);
    }
    if l != s {
      NestsAround(h2, c, Exclusive, Mutex(a, []), held, l);
    }
    NestsAround(h1, s, Exclusive, Mutex(c, Mutex(a, [])), held, l);
    NestsBefore(h1, inner, [], held, l);
    NestsAround(none, RegistryLock, Shared, ExamineTrace([job]), held, l);
  }

  // --- Threads -------------------------------------------------------------------------------

  datatype Thread = Thread(held: map<Lock, Mode>, rest: seq<LockOp>)

  type World = seq<Thread>

  predicate HeldByOther(w: World, i: nat, l: Lock) {
    exists j :: 0 <= j < |w| && j != i && l in w[j].held
  }

  /** Shared holders admit each other; an exclusive holder admits nobody. */
  predicate Permitted(w: World, i: nat) {
    && i < |w| && w[i].rest != []
    && match w[i].rest[0]
       case Release(_) => true
       case Acquire(l, mode) =>
         forall j :: 0 <= j < |w| && j != i && l in w[j].held ==> mode == Shared && w[j].held[l] == Shared
  }

  function Advance(t: Thread): Thread
    requires t.rest != []
  {
    match t.rest[0]
    case Acquire(l, mode) => Thread(t.held[l := mode], t.rest[1..])
    case Release(l) => Thread(t.held - {l}, t.rest[1..])
  }

  predicate Legal(w: World, schedule: seq<nat>)
    decreases |schedule|
  {
    schedule == []
    || (Permitted(w, schedule[0]) && Legal(w[schedule[0] := Advance(w[schedule[0]])], schedule[1..]))
  }

  function Exec(w: World, schedule: seq<nat>): World
    requires Legal(w, schedule)
    decreases |schedule|
  {
    if schedule == [] then w else Exec(w[schedule[0] := Advance(w[schedule[0]])], schedule[1..])
  }

  function Start(programs: seq<seq<Call>>): World {
    seq(|programs|, i requires 0 <= i < |programs| => Thread(map[], Program(programs[i])))
  }

  predicate AllDisciplined(w: World) {
    forall i :: 0 <= i < |w| ==> Disciplined(w[i].held, w[i].rest, map[])
  }

  lemma {:induction false} RunKeepsDiscipline(w: World, schedule: seq<nat>)
    requires AllDisciplined(w) && Legal(w, schedule)
    ensures AllDisciplined(Exec(w, schedule))
    decreases |schedule|
  {
    if schedule != [] {
      RunKeepsDiscipline(w[schedule[0] := Advance(w[schedule[0]])], schedule[1..]);
    }
  }

  /** Nobody holds what another holds exclusively. */
  predicate Exclusion(w: World) {
    forall i, j, l :: 0 <= i < |w| && 0 <= j < |w| && i != j && l in w[i].held && l in w[j].held ==>
      w[i].held[l] == Shared
  }

  lemma StepKeepsExclusion(w: World, i: nat)
    requires Exclusion(w) && Permitted(w, i)
    ensures Exclusion(w[i := Advance(w[i])])
  {
  }

  /** Locks exclude, under every schedule. */
  lemma {:induction false} MutualExclusion(w: World, schedule: seq<nat>)
    requires Exclusion(w) && Legal(w, schedule)
    ensures Exclusion(Exec(w, schedule))
    decreases |schedule|
  {
    hide Exclusion, Advance;
    if schedule != [] {
      StepKeepsExclusion(w, schedule[0]);
      MutualExclusion(w[schedule[0] := Advance(w[schedule[0]])], schedule[1..]);
    }
  }

  /** A thread that can go on however the lock treats waiting readers and writers: it releases, or the
      lock it wants is held by nobody else. */
  predicate Free(w: World, i: nat) {
    i < |w| && w[i].rest != [] && (w[i].rest[0].Acquire? ==> !HeldByOther(w, i, w[i].rest[0].lock))
  }

  /** Following a blocked thread to a holder of the lock it waits for strictly climbs the ranks. */
  lemma {:induction false} FindFree(w: World, i: nat) returns (k: nat)
    requires AllDisciplined(w) && i < |w| && w[i].rest != []
    ensures Free(w, k)
    decreases if w[i].rest[0].Acquire? then 5 - LockRank(w[i].rest[0].lock) else 0
  {
    if Free(w, i) {
      k := i;
    } else {
      var l := w[i].rest[0].lock;
      var j :| 0 <= j < |w| && j != i && l in w[j].held;
      assert w[j].rest != [];
      if w[j].rest[0].Acquire? {
        NestingClimbs(l, w[j].rest[0].lock);
      }
      k := FindFree(w, j);
    }
  }

  /** No deadlock: for any number of threads running any calls, under any schedule, as long as a thread
      is unfinished some thread can take its next step. */
  lemma DeadlockFree(programs: seq<seq<Call>>, schedule: seq<nat>, i: nat) returns (k: nat)
    requires Legal(Start(programs), schedule)
    requires i < |Exec(Start(programs), schedule)| && Exec(Start(programs), schedule)[i].rest != []
    ensures Free(Exec(Start(programs), schedule), k) && Permitted(Exec(Start(programs), schedule), k)
  {
    forall n | 0 <= n < |programs| ensures Clean(Program(programs[n])) {
      ProgramsAreClean(programs[n]);
    }
    assert AllDisciplined(Start(programs));
    RunKeepsDiscipline(Start(programs), schedule);
    k := FindFree(Exec(Start(programs), schedule), i);
  }

  function Remaining(w: World): nat {
    if w == [] then 0 else |w[0].rest| + Remaining(w[1..])
  }

  lemma {:induction false} AdvanceShortens(w: World, i: nat)
    requires i < |w| && w[i].rest != []
    ensures Remaining(w[i := Advance(w[i])]) == Remaining(w) - 1
  {
    if i > 0 {
      AdvanceShortens(w[1..], i - 1);
      assert w[i := Advance(w[i])][1..] == w[1..][i - 1 := Advance(w[i])];
    } else {
      assert w[i := Advance(w[i])][1..] == w[1..];
    }
  }

  /** Every schedule is finite: it cannot be longer than the programs together. */
  lemma {:induction false} SchedulesEnd(w: World, schedule: seq<nat>)
    requires Legal(w, schedule)
    ensures |schedule| + Remaining(Exec(w, schedule)) == Remaining(w)
    decreases |schedule|
  {
    if schedule != [] {
      AdvanceShortens(w, schedule[0]);
      SchedulesEnd(w[schedule[0] := Advance(w[schedule[0]])], schedule[1..]);
    }
  }

  /** And every thread that has finished has given all its locks back. */
  lemma FinishedHoldNothing(programs: seq<seq<Call>>, schedule: seq<nat>, i: nat)
    requires Legal(Start(programs), schedule)
    requires i < |Exec(Start(programs), schedule)| && Exec(Start(programs), schedule)[i].rest == []
    ensures Exec(Start(programs), schedule)[i].held == map[]
  {
    forall n | 0 <= n < |programs| ensures Clean(Program(programs[n])) {
      ProgramsAreClean(programs[n]);
    }
    assert AllDisciplined(Start(programs));
    RunKeepsDiscipline(Start(programs), schedule);
  }
}
