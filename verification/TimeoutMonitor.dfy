/** `monitor_timeout` at work on the manager while other tasks use it, and its timing
    (src/cancellation.rs). */
module TimeoutMonitor {
  import opened MachineWords
  import opened Errors
  import opened JobStates
  import opened JobRegistry
  import opened JobManagers

  /** The pause between two looks, in milliseconds. */
  const CHECK_INTERVAL: nat := 1000

  datatype MonitorEnd = NoTimeout | JobEnded | TokenCancelled | Attempted

  /** The id still stands for this very job. */
  predicate IsRegistered(job: JobHandle, jobs: map<u32, JobHandle>) {
    job.jobId in jobs && jobs[job.jobId] == job
  }

  /** `transition_state` to `TimedOut`, its result ignored, and `terminate_job` up to the token. */
  method TimeOut(job: JobHandle, manager: JobManager, now: nat)
    requires manager.Valid()
    modifies manager.jobs.Values, job
    ensures manager.Valid() && manager.jobs == old(manager.jobs) && job.cancelled
    ensures job.state
            == if IsRegistered(job, manager.jobs) && old(job.state) == Running then TimedOut else old(job.state)
    ensures job.state != old(job.state) ==> job.completedAt == Some(now)
    ensures old(job.state) != Running && IsRegistered(job, manager.jobs) ==>
              job.completedAt == old(job.completedAt) && job.lastActivity == old(job.lastActivity)
  {
    var _ := manager.TransitionState(job.jobId, TimedOut, now);
    job.cancelled := true;
  }

  /** What other tasks do before a look; the look then finds the job as it is `seen`. */
  method BeforeLook(job: JobHandle, manager: JobManager) returns (seen: Job)
    requires manager.Valid()
    modifies manager, manager.jobs.Values
    ensures manager.Valid() && fresh(manager.jobs.Values - old(manager.jobs.Values))
    ensures seen == job.Snapshot()
  {
    var _ := manager.Meanwhile();
    seen := Job(job.state, job.cancelled, job.timeout, job.startTime, job.completedAt, job.lastActivity);
  }

  /** The polling loop against a clock in milliseconds, with any operations of other tasks between its
      steps; every pause lasts at least the interval and at most `slack`. `states` and `tokens` are what the
      job was at each look at its state and at its token. The monitor ends at the first look that finds the
      state terminal or the token cancelled, or when a pause is cut short by the token. Otherwise it attempts
      the transition at a moment not before the timeout and less than one pause after it; the job is then
      timed out if it was registered and running and is left in its state if not, and its token is cancelled.
      `from` is the state in which the attempt finds the job. */
  method MonitorTimeout(job: JobHandle, manager: JobManager, slack: nat)
    returns (end: MonitorEnd, elapsed: nat, from: JobState, states: seq<JobState>, tokens: seq<bool>)
    requires 1000 <= slack && manager.Valid()
    modifies manager, manager.jobs.Values, job
    ensures manager.Valid()
    ensures end.NoTimeout? <==> job.timeout.None?
    ensures job.timeout.None? ==> states == [] && tokens == []
    ensures job.timeout.Some? ==> states != [] && |states| - 1 <= |tokens| <= |states|
    ensures forall k :: 0 <= k < |states| - 1 ==> !IsTerminal(states[k])
    ensures forall k :: 0 <= k < |tokens| && k < |states| - 1 ==> !tokens[k]
    ensures end.JobEnded? <==> states != [] && IsTerminal(states[|states| - 1])
    ensures |tokens| == |states| && tokens != [] && tokens[|tokens| - 1] ==> end.TokenCancelled?
    ensures end.JobEnded? ==> IsTerminal(job.state)
    ensures end.TokenCancelled? ==> job.cancelled
    ensures end.Attempted? ==> |tokens| == |states|
    ensures end.Attempted? ==> job.timeout.value <= elapsed < job.timeout.value + slack
    ensures end.Attempted? ==>
              && job.cancelled
              && job.state == if IsRegistered(job, manager.jobs) && from == Running then TimedOut else from
    ensures job.timeout.Some? ==> elapsed < job.timeout.value + slack && (|states| - 1) * 1000 <= elapsed
    ensures job.timeout.Some? && |states| > 1 ==> (|states| - 2) * 1000 < job.timeout.value
  {
    elapsed, from, states, tokens := 0, job.state, [], [];
    if job.timeout.None? {
      return NoTimeout, elapsed, from, states, tokens;
    }
    var timeout := job.timeout.value;
    while true
      invariant |tokens| == |states| && |states| * CHECK_INTERVAL <= elapsed
      invariant forall k :: 0 <= k < |states| ==> !IsTerminal(states[k]) && !tokens[k]
      invariant elapsed < timeout + slack
      invariant |states| > 0 ==> (|states| - 1) * CHECK_INTERVAL < timeout
      invariant manager.Valid() && fresh(manager.jobs.Values - old(manager.jobs.Values))
      decreases timeout + slack - elapsed
    {
      hide JobManager.View, JobManager.Valid;
      var seen := BeforeLook(job, manager);
      states := states + [seen.state];
      if IsTerminal(job.state) {
        return JobEnded, elapsed, from, states, tokens;
      }
      seen := BeforeLook(job, manager);
      tokens := tokens + [seen.cancelled];
      if job.cancelled {
        return TokenCancelled, elapsed, from, states, tokens;
      }
      var _ := manager.Meanwhile();
      if elapsed >= timeout {
        from := job.state;
        var now: nat := *;
        TimeOut(job, manager, now);
        return Attempted, elapsed, from, states, tokens;
      }
      var _ := manager.Meanwhile();
      var woken: bool := *;
      if woken && job.cancelled {
        return TokenCancelled, elapsed, from, states, tokens;
      }
      var pause: nat :| CHECK_INTERVAL <= pause <= slack;
      elapsed := elapsed + pause;
    }
  }
}
