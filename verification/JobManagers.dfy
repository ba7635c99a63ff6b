/** The manager object: a map of shared job handles updated in place (src/job_manager.rs), each method
    proved against the registry operation it performs. Clock readings are parameters. */
module JobManagers {
  import opened MachineWords
  import opened Errors
  import opened JobStates
  import opened JobRegistry

  class JobHandle {
    const jobId: u32
    const timeout: Option<nat>
    const startTime: nat
    var state: JobState
    var cancelled: bool
    var completedAt: Option<nat>
    var lastActivity: nat

    constructor (jobId: u32, timeout: Option<nat>, now: nat)
      ensures this.jobId == jobId && Snapshot() == NewJob(timeout, now)
    {
      this.jobId, this.timeout, this.startTime := jobId, timeout, now;
      state, cancelled, completedAt, lastActivity := Created, false, None, now;
    }

    ghost function Snapshot(): Job
      reads this
    {
      Job(state, cancelled, timeout, startTime, completedAt, lastActivity)
    }
  }

  function Elements(ids: seq<u32>): set<u32> {
    set id | id in ids
  }

  lemma ElementsOne(ids: seq<u32>, i: nat)
    requires i < |ids|
    ensures Elements(ids[..i + 1]) == Elements(ids[..i]) + {ids[i]}
  {
    assert ids[..i + 1] == ids[..i] + [ids[i]];
  }

  lemma OneFewer<T>(m: map<u32, T>, id: u32)
    ensures |m - {id}| == if id in m then |m| - 1 else |m|
  {
    assert (m - {id}).Keys == m.Keys - {id};
    assert |m - {id}| == |(m - {id}).Keys| && |m| == |m.Keys|;
  }

  lemma UpdatedValues<T>(m: map<u32, T>, id: u32, v: T)
    ensures m[id := v].Values <= m.Values + {v}
  {
  }

  lemma FewerValues<T>(m: map<u32, T>, id: u32)
    ensures (m - {id}).Values <= m.Values
  {
  }

  lemma MinusTwice<T>(m: map<u32, T>, a: set<u32>, id: u32)
    ensures m - a - {id} == m - (a + {id})
  {
  }

  class JobManager {
    var jobs: map<u32, JobHandle>
    var nextJobId: u32
    const maxConcurrentJobs: nat
    var lastJobCreated: nat

    /** Every handle is registered under its own id, so no handle is registered twice. */
    ghost predicate Valid()
      reads this, jobs.Values
    {
      forall id :: id in jobs ==> jobs[id].jobId == id
    }

    /** The registry this object stands for. */
    ghost function View(): Registry
      reads this, jobs.Values
    {
      Registry(map id | id in jobs :: jobs[id].Snapshot(), nextJobId, maxConcurrentJobs, lastJobCreated)
    }

    lemma ViewSize()
      ensures View().jobs.Keys == jobs.Keys && |View().jobs| == |jobs|
    {
      assert View().jobs.Keys == jobs.Keys;
      assert |View().jobs| == |View().jobs.Keys| && |jobs| == |jobs.Keys|;
    }

    constructor (maxConcurrentJobs: nat, now: nat)
      ensures Valid() && View() == NewRegistry(maxConcurrentJobs, now)
    {
      this.maxConcurrentJobs := maxConcurrentJobs;
      jobs, nextJobId, lastJobCreated := map[], 1, now;
    }

    /** The two `fetch_add` calls at most that draw an id. */
    method DrawJobId() returns (jobId: u32)
      requires Valid()
      modifies `nextJobId
      ensures Valid() && jobId == DrawId(old(nextJobId)).0
      ensures View() == old(View()).(nextId := DrawId(old(nextJobId)).1)
    {
      ghost var before := View();
      jobId := nextJobId;
      nextJobId := WrapU32(nextJobId + 1);
      if jobId == 0 {
        jobId := nextJobId;
        nextJobId := WrapU32(nextJobId + 1);
      }
      assert View().jobs == before.jobs;
    }

    method Register(handle: JobHandle, now: nat)
      requires Valid() && handle !in jobs.Values && handle.jobId !in jobs
      modifies `jobs, `lastJobCreated
      ensures Valid() && jobs == old(jobs)[handle.jobId := handle]
      ensures View() == old(View()).(jobs := old(View()).jobs[handle.jobId := handle.Snapshot()], lastCreated := now)
    {
      ghost var before := View();
      jobs := jobs[handle.jobId := handle];
      lastJobCreated := now;
      assert View().jobs == before.jobs[handle.jobId := handle.Snapshot()];
    }

    method CreateJob(timeout: Option<nat>, now: nat) returns (r: Result<JobHandle>)
      requires Valid()
      modifies this
      ensures Valid()
      ensures View() == Create(old(View()), timeout, now).0
      ensures r.Ok? <==> Create(old(View()), timeout, now).1.Ok?
      ensures r.Ok? ==> fresh(r.value) && r.value.jobId == Create(old(View()), timeout, now).1.value
      ensures r.Ok? ==> jobs == old(jobs)[r.value.jobId := r.value]
      ensures r.Err? ==> r.error == Create(old(View()), timeout, now).1.error && jobs == old(jobs)
    {
      ghost var before := View();
      ViewSize();
      assert before.nextId == nextJobId && before.capacity == maxConcurrentJobs;
      hide View, Valid, NewJob, DrawId, JobHandle.Snapshot;
      if |jobs| >= maxConcurrentJobs {
        return Err(Error.Service("Maximum concurrent jobs reached"));
      }
      var jobId := DrawJobId();
      if jobId in jobs {
        return Err(JobExists(jobId));
      }
      var handle := new JobHandle(jobId, timeout, now);
      Register(handle, now);
      return Ok(handle);
    }

    method TransitionState(id: u32, target: JobState, now: nat) returns (r: Result<JobState>)
      requires Valid()
      modifies if id in jobs then {jobs[id]} else {}
      ensures Valid()
      ensures (View(), r) == Transition(old(View()), id, target, now)
    {
      if id !in jobs {
        return Err(JobNotFound(id));
      }
      ghost var before := View();
      var job := jobs[id];
      var oldState := job.state;
      if !CanTransition(oldState, target) {
        return Err(InvalidStateTransition);
      }
      job.lastActivity := now;
      if IsTerminal(target) {
        job.completedAt := Some(now);
      }
      job.state := target;
      assert View().jobs == before.jobs[id := Advance(before.jobs[id], target, now)];
      return Ok(oldState);
    }

    method Cancel(id: u32, now: nat) returns (r: Result<()>)
      requires Valid()
      modifies if id in jobs then {jobs[id]} else {}
      ensures Valid()
      ensures (View(), r) == CancelJob(old(View()), id, now)
    {
      if id !in jobs {
        return Err(JobNotFound(id));
      }
      var job := jobs[id];
      if IsTerminal(job.state) {
        return Ok(());
      }
      job.cancelled := true;
      assert View().jobs == old(View()).jobs[id := old(View()).jobs[id].(cancelled := true)];
      var _ := TransitionState(id, Canceled, now);
      return Ok(());
    }

    method UpdateActivity(id: u32, now: nat)
      requires Valid()
      modifies if id in jobs then {jobs[id]} else {}
      ensures Valid()
      ensures View() == Touch(old(View()), id, now)
    {
      if id in jobs {
        jobs[id].lastActivity := now;
        assert View().jobs == old(View()).jobs[id := old(View()).jobs[id].(lastActivity := now)];
      }
    }

    method CleanupJob(id: u32) returns (r: Result<()>)
      requires Valid()
      modifies `jobs, if id in jobs then {jobs[id]} else {}
      ensures Valid()
      ensures (View(), r) == Cleanup(old(View()), id)
      ensures |jobs| == |old(jobs)| - if r.Ok? then 1 else 0
      ensures jobs == old(jobs) - {id}
      ensures id in old(jobs) ==> old(jobs)[id].cancelled
    {
      OneFewer(jobs, id);
      if id !in jobs {
        assert jobs - {id} == jobs;
        return Err(JobNotFound(id));
      }
      jobs[id].cancelled := true;
      jobs := jobs - {id};
      assert View().jobs == old(View()).jobs - {id};
      return Ok(());
    }

    /** The registered ids in the order the map iterates over them, which is up to the map. */
    method ListActiveJobs() returns (ids: seq<u32>)
      ensures forall i, j :: 0 <= i < j < |ids| ==> ids[i] != ids[j]
      ensures forall id :: id in ids <==> id in jobs
      ensures |ids| == |jobs|
    {
      ids := [];
      var left := jobs.Keys;
      while left != {}
        invariant left <= jobs.Keys && |ids| + |left| == |jobs|
        invariant forall i, j :: 0 <= i < j < |ids| ==> ids[i] != ids[j]
        invariant forall id :: id in ids <==> id in jobs.Keys - left
        decreases left
      {
        var id :| id in left;
        assert id !in ids;
        left := left - {id};
        ids := ids + [id];
      }
    }

    /** How far a removal loop has got that began with these handles standing for `whole`. */
    ghost predicate Removed(whole: Registry, handles: map<u32, JobHandle>, done: set<u32>)
      reads this, jobs.Values, handles.Values
    {
      && Valid() && View() == Remove(whole, done)
      && jobs == handles - done
      && forall id :: id in done && id in handles ==> handles[id].cancelled
    }

    /** One turn of that loop. */
    method CleanupOne(id: u32, ghost whole: Registry, ghost handles: map<u32, JobHandle>, ghost done: set<u32>)
      returns (r: Result<()>)
      requires Removed(whole, handles, done)
      modifies `jobs, handles.Values
      ensures Removed(whole, handles, done + {id})
      ensures |jobs| == |old(jobs)| - if r.Ok? then 1 else 0
    {
      hide View, Valid, Remove, Cleanup;
      CleanupAfter(whole, done, id);
      MinusTwice(handles, done, id);
      r := CleanupJob(id);
    }

    /** The removal loop that the sweeps share: it counts the jobs that were still there. */
    method CleanupAll(ids: seq<u32>) returns (cleaned: nat)
      requires Valid()
      modifies `jobs, jobs.Values
      ensures Removed(old(View()), old(jobs), Elements(ids))
      ensures cleaned == |old(jobs)| - |jobs|
    {
      cleaned := 0;
      ghost var whole, handles := View(), jobs;
      assert Removed(whole, handles, Elements(ids[..0])) by {
        assert whole.jobs - {} == whole.jobs && jobs - {} == jobs;
        assert Elements(ids[..0]) == {};
      }
      hide Removed;
      for i := 0 to |ids|
        invariant Removed(whole, handles, Elements(ids[..i]))
        invariant cleaned == |handles| - |jobs|
      {
        hide *;
        var r := CleanupOne(ids[i], whole, handles, Elements(ids[..i]));
        cleaned := cleaned + if r.Ok? then 1 else 0;
        ElementsOne(ids, i);
      }
      assert ids[..|ids|] == ids;
    }

    method ForceCleanupAll()
      requires Valid()
      modifies `jobs, jobs.Values
      ensures Valid() && jobs == map[]
      ensures View() == Remove(old(View()), old(View()).jobs.Keys)
      ensures forall id :: id in old(jobs) ==> old(jobs)[id].cancelled
    {
      var ids := ListActiveJobs();
      assert Elements(ids) == View().jobs.Keys == jobs.Keys;
      var _ := CleanupAll(ids);
    }

    /** The first scan: whether there are jobs and all of them are terminal. */
    method AllTerminal() returns (hasJobs: bool, allTerminal: bool)
      ensures hasJobs <==> jobs != map[]
      ensures allTerminal <==> forall id :: id in jobs ==> IsTerminal(jobs[id].state)
    {
      hasJobs, allTerminal := false, true;
      var left := jobs.Keys;
      while left != {}
        invariant left <= jobs.Keys
        invariant hasJobs <==> left != jobs.Keys
        invariant forall id :: id in jobs.Keys - left ==> IsTerminal(jobs[id].state)
        decreases left
      {
        var id :| id in left;
        left := left - {id};
        hasJobs := true;
        if !IsTerminal(jobs[id].state) {
          allTerminal := false;
          return;
        }
      }
    }

    /** Whether the quiet sweep applies: the creation time is read before the scan. */
    method IsQuiet(now: nat, quiet: nat) returns (applies: bool)
      requires Valid()
      ensures applies <==> QuietSweep(View(), now, quiet)
    {
      var lastJobTime := lastJobCreated;
      var hasJobs, allTerminal := AllTerminal();
      applies := hasJobs && allTerminal && lastJobTime <= now && now - lastJobTime >= quiet;
      ViewSize();
      assert forall id :: id in jobs ==> View().jobs[id].state == jobs[id].state;
      assert jobs == map[] <==> View().jobs == map[] by {
        assert jobs.Keys == {} <==> View().jobs.Keys == {};
      }
    }

    /** The second scan: a finished job expires by its completion time, any other by its last activity. */
    method ListExpired(now: nat, idle: nat) returns (ids: seq<u32>)
      ensures forall id :: id in ids <==> id in jobs && Expired(jobs[id].Snapshot(), now, idle)
    {
      ids := [];
      var left := jobs.Keys;
      while left != {}
        invariant left <= jobs.Keys
        invariant forall id :: id in ids <==> id in jobs.Keys - left && Expired(jobs[id].Snapshot(), now, idle)
        decreases left
      {
        var id :| id in left;
        left := left - {id};
        var job := jobs[id];
        var shouldCleanup;
        if IsTerminal(job.state) {
          if job.completedAt.Some? {
            shouldCleanup := job.completedAt.value <= now && now - job.completedAt.value >= idle;
          } else {
            shouldCleanup := false;
          }
        } else {
          shouldCleanup := job.lastActivity <= now && now - job.lastActivity >= idle;
        }
        if shouldCleanup {
          ids := ids + [id];
        }
      }
    }

    /** What the quiet sweep lists, and what the idle pass lists, is stale. */
    lemma ListedAreStale(ids: seq<u32>, now: nat, idle: nat, quiet: nat)
      requires if QuietSweep(View(), now, quiet) then forall id :: id in ids <==> id in jobs
               else forall id :: id in ids <==> id in jobs && Expired(jobs[id].Snapshot(), now, idle)
      ensures Elements(ids) == Stale(View(), now, idle, quiet)
    {
      hide QuietSweep, Expired;
      ViewSize();
      assert forall id :: id in jobs ==> View().jobs[id] == jobs[id].Snapshot();
    }

    lemma RemovalsMean(
        whole: Registry, handles: map<u32, JobHandle>, ids: seq<u32>, now: nat, idle: nat, quiet: nat)
      requires Removed(whole, handles, Elements(ids)) && Elements(ids) == Stale(whole, now, idle, quiet)
      ensures Valid() && View() == CleanIdle(whole, now, idle, quiet)
      ensures forall id :: id in handles && id !in jobs ==> handles[id].cancelled
      ensures jobs.Values <= handles.Values
    {
      hide View, Valid, Stale, Remove;
    }

    method CleanupIdleJobs(now: nat, idle: nat, quiet: nat) returns (cleaned: nat)
      requires Valid()
      modifies `jobs, jobs.Values
      ensures Valid()
      ensures View() == CleanIdle(old(View()), now, idle, quiet)
      ensures cleaned == |old(jobs)| - |jobs| && jobs.Values <= old(jobs).Values
      ensures forall id :: id in old(jobs) && id !in jobs ==> old(jobs)[id].cancelled
    {
      ghost var registry, handles := View(), jobs;
      hide *;
      var isQuiet := IsQuiet(now, quiet);
      var ids;
      if isQuiet {
        ids := ListActiveJobs();
      } else {
        ids := ListExpired(now, idle);
      }
      ListedAreStale(ids, now, idle, quiet);
      cleaned := CleanupAll(ids);
      RemovalsMean(registry, handles, ids, now, idle, quiet);
    }

    // --- Other tasks -------------------------------------------------------------------------

    /** One operation, as any task may perform it. */
    method PerformOne(op: Op, now: nat)
      requires Valid()
      modifies this, jobs.Values
      ensures Valid() && View() == Perform(old(View()), op, now)
      ensures fresh(jobs.Values - old(jobs.Values))
    {
      hide View, Valid, Create, Transition, CancelJob, Cleanup, Touch, CleanIdle, Remove, CanTransition, IsTerminal;
      match op {
        case OpCreate(timeout) =>
          var r := CreateJob(timeout, now);
          if r.Ok? {
            UpdatedValues(old(jobs), r.value.jobId, r.value);
          }
        case OpTransition(id, target) =>
          var _ := TransitionState(id, target, now);
        case OpCancel(id) =>
          var _ := Cancel(id, now);
        case OpCleanup(id) =>
          FewerValues(jobs, id);
          var _ := CleanupJob(id);
        case OpTouch(id) =>
          UpdateActivity(id, now);
        case OpCleanIdle(idle, quiet) =>
          var _ := CleanupIdleJobs(now, idle, quiet);
        case OpForceCleanup =>
          ForceCleanupAll();
      }
    }

    /** What other tasks do to the manager while the caller waits: any operations at any clock readings,
        which are reported. */
    method Meanwhile() returns (ops: seq<(Op, nat)>)
      requires Valid()
      modifies this, jobs.Values
      ensures Valid() && View() == PerformAll(old(View()), ops)
      ensures fresh(jobs.Values - old(jobs.Values))
    {
      ops := [];
      ghost var registry := View();
      assert PerformAll(registry, []) == registry;
      var n :| n >= 0;
      for k := 0 to n
        invariant Valid() && View() == PerformAll(registry, ops)
        invariant fresh(jobs.Values - old(jobs.Values))
      {
        hide View, Valid, Perform, PerformAll;
        var op: Op, now: nat := *, *;
        PerformLast(registry, ops, op, now);
        PerformOne(op, now);
        ops := ops + [(op, now)];
      }
    }
  }
}
