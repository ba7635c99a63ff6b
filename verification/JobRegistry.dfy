/** The job registry as a value: what each operation of the manager does to it when it runs alone
    (src/job_manager.rs). */
module JobRegistry {
  import opened MachineWords
  import opened Errors
  import opened JobStates

  datatype Job = Job(
    state: JobState, cancelled: bool, timeout: Option<nat>, startTime: nat,
    completedAt: Option<nat>, lastActivity: nat)

  datatype Registry = Registry(jobs: map<u32, Job>, nextId: u32, capacity: nat, lastCreated: nat)

  function NewRegistry(capacity: nat, now: nat): Registry {
    Registry(map[], 1, capacity, now)
  }

  function NewJob(timeout: Option<nat>, now: nat): Job {
    Job(Created, false, timeout, now, None, now)
  }

  // --- Operations ----------------------------------------------------------------------------

  /** The id one `create_job` call draws and the counter it leaves: a drawn zero is drawn again. */
  function DrawId(next: u32): (u32, u32) {
    if next == 0 then (1, 2) else (next, WrapU32(next + 1))
  }

  function Create(r: Registry, timeout: Option<nat>, now: nat): (Registry, Result<u32>) {
    if |r.jobs| >= r.capacity then (r, Err(Error.Service("Maximum concurrent jobs reached")))
    else
      var (id, next) := DrawId(r.nextId);
      if id in r.jobs then (r.(nextId := next), Err(JobExists(id)))
      else (r.(jobs := r.jobs[id := NewJob(timeout, now)], nextId := next, lastCreated := now), Ok(id))
  }

  function Advance(job: Job, target: JobState, now: nat): Job {
    job.(state := target,
         lastActivity := now,
         completedAt := if IsTerminal(target) then Some(now) else job.completedAt)
  }

  function Transition(r: Registry, id: u32, target: JobState, now: nat): (Registry, Result<JobState>) {
    if id !in r.jobs then (r, Err(JobNotFound(id)))
    else if !CanTransition(r.jobs[id].state, target) then (r, Err(InvalidStateTransition))
    else (r.(jobs := r.jobs[id := Advance(r.jobs[id], target, now)]), Ok(r.jobs[id].state))
  }

  function CancelJob(r: Registry, id: u32, now: nat): (Registry, Result<()>) {
    if id !in r.jobs then (r, Err(JobNotFound(id)))
    else if IsTerminal(r.jobs[id].state) then (r, Ok(()))
    else (Transition(r.(jobs := r.jobs[id := r.jobs[id].(cancelled := true)]), id, Canceled, now).0, Ok(()))
  }

  function Remove(r: Registry, ids: set<u32>): Registry {
    r.(jobs := r.jobs - ids)
  }

  function Cleanup(r: Registry, id: u32): (Registry, Result<()>) {
    if id !in r.jobs then (r, Err(JobNotFound(id))) else (Remove(r, {id}), Ok(()))
  }

  function Touch(r: Registry, id: u32, now: nat): Registry {
    if id !in r.jobs then r else r.(jobs := r.jobs[id := r.jobs[id].(lastActivity := now)])
  }

  /** `duration_since` succeeds and reaches `wait`. */
  predicate HasElapsed(now: nat, since: nat, wait: nat) {
    since <= now && now - since >= wait
  }

  predicate QuietSweep(r: Registry, now: nat, quiet: nat) {
    && r.jobs != map[]
    && (forall id :: id in r.jobs ==> IsTerminal(r.jobs[id].state))
    && HasElapsed(now, r.lastCreated, quiet)
  }

  predicate Expired(job: Job, now: nat, idle: nat) {
    if IsTerminal(job.state) then job.completedAt.Some? && HasElapsed(now, job.completedAt.value, idle)
    else HasElapsed(now, job.lastActivity, idle)
  }

  /** The jobs `cleanup_idle_jobs` removes: all of them when the service is quiet, else the expired ones. */
  function Stale(r: Registry, now: nat, idle: nat, quiet: nat): (ids: set<u32>)
    ensures ids <= r.jobs.Keys
  {
    if QuietSweep(r, now, quiet) then r.jobs.Keys
    else set id | id in r.jobs && Expired(r.jobs[id], now, idle)
  }

  function CleanIdle(r: Registry, now: nat, idle: nat, quiet: nat): Registry {
    Remove(r, Stale(r, now, idle, quiet))
  }

  // --- Sequential runs -----------------------------------------------------------------------

  datatype Op =
    | OpCreate(timeout: Option<nat>)
    | OpTransition(id: u32, target: JobState)
    | OpCancel(id: u32)
    | OpCleanup(id: u32)
    | OpTouch(id: u32)
    | OpCleanIdle(idle: nat, quiet: nat)
    | OpForceCleanup

  function Perform(r: Registry, op: Op, now: nat): Registry {
    match op
    case OpCreate(timeout) => Create(r, timeout, now).0
    case OpTransition(id, target) => Transition(r, id, target, now).0
    case OpCancel(id) => CancelJob(r, id, now).0
    case OpCleanup(id) => Cleanup(r, id).0
    case OpTouch(id) => Touch(r, id, now)
    case OpCleanIdle(idle, quiet) => CleanIdle(r, now, idle, quiet)
    case OpForceCleanup => Remove(r, r.jobs.Keys)
  }

  /** What each kind of operation is for. */
  lemma PerformEffect(r: Registry, op: Op, now: nat)
    ensures var jobs' := Perform(r, op, now).jobs;
            match op
            case OpCreate(_) =>
              |r.jobs| < r.capacity && (if r.nextId == 0 then 1 else r.nextId) !in r.jobs ==>
                |jobs'.Keys| == |r.jobs.Keys| + 1
            case OpTransition(id, target) =>
              id in r.jobs && CanTransition(r.jobs[id].state, target) ==> id in jobs' && jobs'[id].state == target
            case OpCancel(id) => id in r.jobs ==> id in jobs' && IsTerminal(jobs'[id].state)
            case OpCleanup(id) => jobs' == r.jobs - {id}
            case OpTouch(id) => id in r.jobs ==> id in jobs' && jobs'[id].lastActivity == now
            case OpCleanIdle(idle, _) =>
              forall id :: id in r.jobs && !IsTerminal(r.jobs[id].state) && r.jobs[id].lastActivity + idle <= now ==>
                id !in jobs'
            case OpForceCleanup => jobs' == map[]
  {
    match op
    case OpCreate(timeout) =>
      var id: u32 := if r.nextId == 0 then 1 else r.nextId;
      assert Create(r, timeout, now).1.Ok? ==> Create(r, timeout, now).0.jobs.Keys == r.jobs.Keys + {id};
      assert |r.jobs.Keys| == |r.jobs|;
    case OpCleanup(id) =>
      assert id !in r.jobs ==> r.jobs - {id} == r.jobs;
    case _ =>
  }

  /** A run: operations with the clock reading each one sees; the clock may even go backwards. */
  function PerformAll(r: Registry, ops: seq<(Op, nat)>): Registry
    decreases |ops|
  {
    if ops == [] then r else PerformAll(Perform(r, ops[0].0, ops[0].1), ops[1..])
  }

  lemma {:induction false} PerformLast(r: Registry, ops: seq<(Op, nat)>, op: Op, now: nat)
    ensures PerformAll(r, ops + [(op, now)]) == Perform(PerformAll(r, ops), op, now)
    decreases |ops|
  {
    hide Perform;
    var longer := ops + [(op, now)];
    if ops == [] {
      assert longer[0] == (op, now) && longer[1..] == [];
      assert PerformAll(Perform(r, op, now), []) == Perform(r, op, now);
    } else {
      PerformLast(Perform(r, ops[0].0, ops[0].1), ops[1..], op, now);
      assert longer[0] == ops[0] && longer[1..] == ops[1..] + [(op, now)];
    }
  }

  predicate Sound(r: Registry) {
    && 0 !in r.jobs
    && |r.jobs| <= r.capacity
    && forall id :: id in r.jobs ==> (IsTerminal(r.jobs[id].state) <==> r.jobs[id].completedAt.Some?)
  }

  lemma RemovalShrinks(m: map<u32, Job>, ids: set<u32>)
    requires ids <= m.Keys
    ensures |m - ids| == |m| - |ids|
  {
    assert (m - ids).Keys == m.Keys - ids;
    assert |m.Keys - ids| == |m.Keys| - |ids|;
  }

  /** Cleaning up one more job after some removals. */
  lemma CleanupAfter(r: Registry, done: set<u32>, id: u32)
    ensures Cleanup(Remove(r, done), id).0 == Remove(r, done + {id})
    ensures r.jobs - done - {id} == r.jobs - (done + {id})
  {
    if id !in r.jobs - done {
      assert r.jobs - done - {id} == r.jobs - done;
    }
  }

  lemma RemoveKeepsSound(r: Registry, ids: set<u32>)
    requires Sound(r) && ids <= r.jobs.Keys
    ensures Sound(Remove(r, ids))
  {
    RemovalShrinks(r.jobs, ids);
  }

  lemma UpdateKeepsSound(r: Registry, id: u32, job: Job)
    requires Sound(r) && id in r.jobs && (IsTerminal(job.state) <==> job.completedAt.Some?)
    ensures Sound(r.(jobs := r.jobs[id := job]))
  {
    assert r.jobs[id := job].Keys == r.jobs.Keys;
    assert |r.jobs[id := job]| == |r.jobs[id := job].Keys| == |r.jobs.Keys| == |r.jobs|;
  }

  lemma TransitionKeepsSound(r: Registry, id: u32, target: JobState, now: nat)
    requires Sound(r)
    ensures Sound(Transition(r, id, target, now).0) && Transition(r, id, target, now).0.capacity == r.capacity
  {
    hide Sound;
    if id in r.jobs && CanTransition(r.jobs[id].state, target) {
      AdvanceKeepsCompletion(r, id, target, now);
      UpdateKeepsSound(r, id, Advance(r.jobs[id], target, now));
    }
  }

  lemma AdvanceKeepsCompletion(r: Registry, id: u32, target: JobState, now: nat)
    requires Sound(r) && id in r.jobs && CanTransition(r.jobs[id].state, target)
    ensures var job := Advance(r.jobs[id], target, now); IsTerminal(job.state) <==> job.completedAt.Some?
  {
  }

  lemma CreateKeepsSound(r: Registry, timeout: Option<nat>, now: nat)
    requires Sound(r)
    ensures Sound(Create(r, timeout, now).0) && Create(r, timeout, now).0.capacity == r.capacity
  {
  }

  lemma PerformKeepsSound(r: Registry, op: Op, now: nat)
    requires Sound(r)
    ensures Sound(Perform(r, op, now)) && Perform(r, op, now).capacity == r.capacity
  {
    assert forall id :: id in r.jobs ==> (IsTerminal(r.jobs[id].state) <==> r.jobs[id].completedAt.Some?);
    hide Sound, Create, Transition;
    match op
    case OpCreate(timeout) => CreateKeepsSound(r, timeout, now);
    case OpTransition(id, target) => TransitionKeepsSound(r, id, target, now);
    case OpCancel(id) =>
      if id in r.jobs && !IsTerminal(r.jobs[id].state) {
        UpdateKeepsSound(r, id, r.jobs[id].(cancelled := true));
        TransitionKeepsSound(r.(jobs := r.jobs[id := r.jobs[id].(cancelled := true)]), id, Canceled, now);
      }
    case OpCleanup(id) =>
      if id in r.jobs { RemoveKeepsSound(r, {id}); }
    case OpTouch(id) =>
      if id in r.jobs { UpdateKeepsSound(r, id, r.jobs[id].(lastActivity := now)); }
    case OpCleanIdle(idle, quiet) => RemoveKeepsSound(r, Stale(r, now, idle, quiet));
    case OpForceCleanup => RemoveKeepsSound(r, r.jobs.Keys);
  }

  /** Every sequential run: no job has id zero, the capacity is never exceeded, and a job is terminal iff
      it has a completion time. */
  lemma {:induction false} RunsAreSound(r: Registry, ops: seq<(Op, nat)>)
    requires Sound(r)
    ensures Sound(PerformAll(r, ops)) && PerformAll(r, ops).capacity == r.capacity
    decreases |ops|
  {
    if ops != [] {
      PerformKeepsSound(r, ops[0].0, ops[0].1);
      RunsAreSound(Perform(r, ops[0].0, ops[0].1), ops[1..]);
    }
  }

  /** A successful creation draws a fresh non-zero id and leaves every other job as it was. */
  lemma CreateNeverOverwrites(r: Registry, timeout: Option<nat>, now: nat)
    ensures var (r', result) := Create(r, timeout, now);
            && (result.Ok? ==> result.value != 0 && result.value !in r.jobs
                               && r'.jobs.Keys == r.jobs.Keys + {result.value}
                               && r'.jobs - {result.value} == r.jobs)
            && (result.Err? ==> r'.jobs == r.jobs)
  {
  }

  /** All that a creation does: refused at the capacity without drawing an id; else an id is drawn, and either
      it is taken or a job as new as can be stands under it and the creation time is set. */
  lemma CreateEffect(r: Registry, timeout: Option<nat>, now: nat)
    ensures var (r', result) := Create(r, timeout, now);
            var id: u32 := if r.nextId == 0 then 1 else r.nextId;
            && r'.capacity == r.capacity
            && (result.Err? && result.error.Service? <==> |r.jobs| >= r.capacity)
            && (|r.jobs| >= r.capacity ==> r' == r)
            && (|r.jobs| < r.capacity ==> r'.nextId == (id + 1) % 0x1_0000_0000)
            && (|r.jobs| < r.capacity && id in r.jobs ==>
                  result == Err(JobExists(id)) && r'.jobs == r.jobs && r'.lastCreated == r.lastCreated)
            && (|r.jobs| < r.capacity && id !in r.jobs ==>
                  && result == Ok(id) && r'.lastCreated == now
                  && r'.jobs == r.jobs[id := Job(Created, false, timeout, now, None, now)])
  {
  }

  /** All that a transition does: unknown and disallowed ones change nothing; else the target and the activity
      stamp are set, a terminal target sets the completion time, and nothing else changes. */
  lemma TransitionEffect(r: Registry, id: u32, target: JobState, now: nat)
    ensures var (r', result) := Transition(r, id, target, now);
            && (id !in r.jobs ==> r' == r && result == Err(JobNotFound(id)))
            && (id in r.jobs && !CanTransition(r.jobs[id].state, target) ==>
                  r' == r && result == Err(InvalidStateTransition))
            && (id in r.jobs && CanTransition(r.jobs[id].state, target) ==>
                  && result == Ok(r.jobs[id].state)
                  && r' == r.(jobs := r'.jobs) && r'.jobs.Keys == r.jobs.Keys && r'.jobs - {id} == r.jobs - {id}
                  && var before, after := r.jobs[id], r'.jobs[id];
                     && after.state == target && after.lastActivity == now
                     && after.completedAt == (if IsTerminal(target) then Some(now) else before.completedAt)
                     && after.cancelled == before.cancelled && after.timeout == before.timeout
                     && after.startTime == before.startTime)
  {
  }

  /** Refreshing and cleaning up one job: the activity stamp and nothing else; the entry and nothing else. */
  lemma TouchAndCleanupEffect(r: Registry, id: u32, now: nat)
    ensures id !in r.jobs ==> Touch(r, id, now) == r && Cleanup(r, id) == (r, Err(JobNotFound(id)))
    ensures id in r.jobs ==>
              && Touch(r, id, now) == r.(jobs := r.jobs[id := r.jobs[id].(lastActivity := now)])
              && Cleanup(r, id).1.Ok? && Cleanup(r, id).0 == r.(jobs := Cleanup(r, id).0.jobs)
              && forall k :: k in Cleanup(r, id).0.jobs <==> k in r.jobs && k != id
  {
  }

  /** Which jobs a cleaning keeps, by their fields: none if all are terminal and no job has been created
      lately; else a terminal job until its completion is `idle` old, and a live one until its last activity
      is. What is kept is unchanged. */
  lemma CleaningKeeps(r: Registry, now: nat, idle: nat, quiet: nat, id: u32)
    requires id in r.jobs
    ensures var after := CleanIdle(r, now, idle, quiet);
            var job := r.jobs[id];
            && (id in after.jobs
                <==> && ((exists k :: k in r.jobs && !IsTerminal(r.jobs[k].state)) || now < r.lastCreated + quiet)
                     && if IsTerminal(job.state) then job.completedAt.Some? ==> now < job.completedAt.value + idle
                        else now < job.lastActivity + idle)
            && (id in after.jobs ==> after.jobs[id] == job)
            && after == r.(jobs := after.jobs) && after.jobs.Keys <= r.jobs.Keys
  {
  }

  /** Cancelling alone: a terminal job is left untouched, any other becomes `Canceled` with its token
      cancelled and its completion stamped; no other job changes. */
  lemma CancelAlone(r: Registry, id: u32, now: nat)
    requires id in r.jobs
    ensures var (r', result) := CancelJob(r, id, now);
            && result.Ok? && id in r'.jobs && r'.jobs - {id} == r.jobs - {id}
            && (IsTerminal(r.jobs[id].state) ==> r' == r)
            && (!IsTerminal(r.jobs[id].state) ==>
                  r'.jobs[id]
                  == r.jobs[id].(state := Canceled, cancelled := true, completedAt := Some(now), lastActivity := now))
  {
    CancelableIffLive(r.jobs[id].state);
  }

  // --- Id allocation across wrap-around ------------------------------------------------------

  const ID_CYCLE := U32_MODULUS - 1

  /** The counter after `k` draws. */
  function CounterAfter(next: u32, k: nat): u32 {
    if k == 0 then next else DrawId(CounterAfter(next, k - 1)).1
  }

  /** The `k`-th id drawn, from zero. */
  function IdAt(next: u32, k: nat): u32 {
    DrawId(CounterAfter(next, k)).0
  }

  /** How often the drawn ids have started over before the `k`-th. */
  function Laps(next: u32, k: nat): nat {
    if k == 0 then 0 else Laps(next, k - 1) + if IdAt(next, k - 1) == ID_CYCLE then 1 else 0
  }

  lemma NextId(next: u32, k: nat)
    ensures 1 <= IdAt(next, k) <= ID_CYCLE
    ensures IdAt(next, k + 1) == if IdAt(next, k) == ID_CYCLE then 1 else IdAt(next, k) + 1
  {
    var id := IdAt(next, k);
    assert CounterAfter(next, k + 1) == if id == ID_CYCLE then 0 else id + 1;
  }

  /** Ids count up through 1 .. 2^32 - 1, over and over. */
  lemma {:induction false} IdsCycle(next: u32, k: nat)
    ensures 1 <= IdAt(next, k) <= ID_CYCLE
    ensures IdAt(next, k) + ID_CYCLE * Laps(next, k) == IdAt(next, 0) + k
  {
    NextId(next, k);
    if k > 0 {
      NextId(next, k - 1);
      hide IdAt;
      IdsCycle(next, k - 1);
    }
  }

  /** Within one cycle no id is drawn twice. */
  lemma IdsDistinct(next: u32, i: nat, j: nat)
    requires i < j < i + ID_CYCLE
    ensures IdAt(next, i) != IdAt(next, j)
  {
    IdsCycle(next, i);
    IdsCycle(next, j);
    hide IdAt, Laps;
  }

  lemma SubsetNotLarger(a: set<u32>, b: set<u32>)
    requires a <= b
    ensures |a| <= |b|
  {
    assert b == a + (b - a);
  }

  /** Some id among the first `|live| + 1` draws is free: the draws before it are pairwise distinct live
      ids, and there are only so many of those. */
  lemma FreeIdDrawn(live: set<u32>, next: u32) returns (k: nat)
    requires |live| < ID_CYCLE
    ensures k <= |live| && IdAt(next, k) !in live
    ensures forall i :: 0 <= i < k ==> IdAt(next, i) in live
  {
    hide IdAt;
    k := 0;
    var seen: set<u32> := {};
    while IdAt(next, k) in live
      invariant k <= |live| && |seen| == k && seen <= live
      invariant forall id :: id in seen ==> exists i :: 0 <= i < k && IdAt(next, i) == id
      invariant forall i :: 0 <= i < k ==> IdAt(next, i) in live
      decreases |live| - k
    {
      var id := IdAt(next, k);
      if id in seen {
        var i :| 0 <= i < k && IdAt(next, i) == id;
        IdsDistinct(next, i, k);
      }
      SubsetNotLarger(seen + {id}, live);
      seen := seen + {id};
      k := k + 1;
    }
  }

  /** Below the capacity, and with fewer live jobs than ids, at most as many consecutive creations fail as
      there are live jobs; each failure is a collision that only moves the counter, and then one succeeds. */
  lemma CreateEventuallySucceeds(r: Registry, timeout: Option<nat>, now: nat) returns (k: nat)
    requires |r.jobs| < r.capacity && |r.jobs| < ID_CYCLE
    ensures k <= |r.jobs|
    ensures forall i :: 0 <= i < k ==>
              Create(r.(nextId := CounterAfter(r.nextId, i)), timeout, now)
              == (r.(nextId := CounterAfter(r.nextId, i + 1)), Err(JobExists(IdAt(r.nextId, i))))
    ensures Create(r.(nextId := CounterAfter(r.nextId, k)), timeout, now).1 == Ok(IdAt(r.nextId, k))
  {
    k := FreeIdDrawn(r.jobs.Keys, r.nextId);
    assert |r.jobs.Keys| == |r.jobs|;
  }

  // --- The idle cleaner ----------------------------------------------------------------------

  /** The quiet sweep only ever removes terminal jobs; the idle pass may also remove silent live ones. */
  lemma QuietSweepSparesLiveJobs(r: Registry, now: nat, idle: nat, quiet: nat, id: u32)
    requires id in r.jobs && id !in CleanIdle(r, now, idle, quiet).jobs
    ensures IsTerminal(r.jobs[id].state) || (Expired(r.jobs[id], now, idle) && !QuietSweep(r, now, quiet))
  {
  }

  /** Some job outlives the idle pass, all that do are terminal, and the service has been quiet. */
  predicate LeavesQuietRest(r: Registry, now: nat, idle: nat, quiet: nat) {
    && HasElapsed(now, r.lastCreated, quiet)
    && (exists id :: id in r.jobs && !IsTerminal(r.jobs[id].state))
    && (exists id :: id in r.jobs && !Expired(r.jobs[id], now, idle))
    && (forall id :: id in r.jobs && !Expired(r.jobs[id], now, idle) ==> IsTerminal(r.jobs[id].state))
  }

  lemma SecondSweepIsQuiet(r: Registry, now: nat, idle: nat, quiet: nat)
    requires !QuietSweep(r, now, quiet)
    ensures QuietSweep(CleanIdle(r, now, idle, quiet), now, quiet) <==> LeavesQuietRest(r, now, idle, quiet)
  {
    var once := CleanIdle(r, now, idle, quiet);
    assert forall id :: id in once.jobs <==> id in r.jobs && !Expired(r.jobs[id], now, idle);
    if QuietSweep(once, now, quiet) {
      var kept :| kept in once.jobs;
      assert kept in r.jobs && !Expired(r.jobs[kept], now, idle);
    }
    if LeavesQuietRest(r, now, idle, quiet) {
      var kept :| kept in r.jobs && !Expired(r.jobs[kept], now, idle);
      assert kept in once.jobs;
    }
  }

  /** One cleaning reaches a fixpoint exactly when it does not leave a quiet rest behind; after two
      cleanings a third never finds anything. */
  lemma CleaningFixpoint(r: Registry, now: nat, idle: nat, quiet: nat)
    ensures var once := CleanIdle(r, now, idle, quiet);
            var twice := CleanIdle(once, now, idle, quiet);
            && (twice == once <==> !LeavesQuietRest(r, now, idle, quiet))
            && CleanIdle(twice, now, idle, quiet) == twice
  {
    var once := CleanIdle(r, now, idle, quiet);
    var twice := CleanIdle(once, now, idle, quiet);
    if QuietSweep(r, now, quiet) {
      assert once.jobs == map[];
      assert twice.jobs == map[];
    } else {
      SecondSweepIsQuiet(r, now, idle, quiet);
      if QuietSweep(once, now, quiet) {
        assert twice.jobs == map[];
      } else {
        assert Stale(once, now, idle, quiet) == {};
        assert twice.jobs == once.jobs;
      }
    }
    assert Stale(twice, now, idle, quiet) == {};
    assert CleanIdle(twice, now, idle, quiet).jobs == twice.jobs;
  }

  /** A first cleaning that expires the last live job makes room for a quiet sweep by the second. */
  lemma OneCleaningIsNotEnough()
    ensures var live := Job(Running, false, None, 0, None, 0);
            var done := Job(Completed, false, None, 0, Some(90), 90);
            var r := Registry(map[1 := live, 2 := done], 3, 50, 0);
            var once := CleanIdle(r, 100, 50, 20);
            once.jobs == map[2 := done] && CleanIdle(once, 100, 50, 20).jobs == map[]
  {
    var live := Job(Running, false, None, 0, None, 0);
    var done := Job(Completed, false, None, 0, Some(90), 90);
    var r := Registry(map[1 := live, 2 := done], 3, 50, 0);
    assert r.jobs[1] == live && r.jobs[2] == done;
    assert Stale(r, 100, 50, 20) == {1};
  }
}
