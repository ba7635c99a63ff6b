/** The request loop of a client session: frames read from the pipe, dispatched to the job manager
    (src/pipe_server.rs). Tasks that a launched job starts are the concern of JobLifecycle. */
module RequestLoop {
  import opened MachineWords
  import opened Errors
  import opened Protocol
  import opened PipeFraming
  import opened JobStates
  import opened JobRegistry
  import opened JobManagers

  /** Operations of other tasks, with their clock readings. */
  type Others = seq<(Op, nat)>

  /** What the world answers to a RUN request: whether its payload parses, whether the acknowledgement
      can be sent, whether the process starts; and what other tasks do after the creation, after the first
      transition and after the second. */
  datatype RunOutcome =
    | BadPayload
    | Command(timeout: Option<nat>, ackSent: bool, launched: bool, first: Others, second: Others, third: Others)

  /** A request with what other tasks did since the one before and the clock reading at which it is handled. */
  datatype Request = Request(frame: Frame, others: Others, now: nat, run: RunOutcome)

  /** The part of `handle_run` after the acknowledgement, and whether the session goes on. */
  function Start(r: Registry, id: u32, now: nat, launched: bool, second: Others, third: Others): (Registry, bool) {
    var (starting, result) := Transition(r, id, Starting, now);
    if result.Err? then (starting, false)
    else Launch(PerformAll(starting, second), id, now, launched, third)
  }

  function Launch(r: Registry, id: u32, now: nat, launched: bool, third: Others): (Registry, bool) {
    var (next, result) := Transition(r, id, if launched then Running else Failed, now);
    if launched && result.Err? then (next, false)
    else if launched then (Touch(PerformAll(next, third), id, now), true)
    else (Cleanup(PerformAll(next, third), id).0, true)
  }

  /** `handle_run` on the registry, and whether the session goes on. */
  function HandleRun(r: Registry, now: nat, run: RunOutcome): (Registry, bool) {
    match run
    case BadPayload => (r, false)
    case Command(timeout, ackSent, launched, first, second, third) =>
      var (created, result) := Create(r, timeout, now);
      if result.Err? then (created, false)
      else if !ackSent then (PerformAll(created, first), false)
      else Start(PerformAll(created, first), result.value, now, launched, second, third)
  }

  /** One turn of `process_requests`, after what other tasks did while it waited. */
  function Dispatch(r: Registry, q: Request): (Registry, bool) {
    Handle(PerformAll(r, q.others), q)
  }

  function Handle(r: Registry, q: Request): (Registry, bool) {
    match q.frame.frameType
    case Run => HandleRun(r, q.now, q.run)
    case Cancel => (CancelJob(Touch(r, q.frame.jobId, q.now), q.frame.jobId, q.now).0, true)
    case WindowUpdate => (Touch(r, q.frame.jobId, q.now), true)
    case Goodbye => (r, false)
    case _ => (if q.frame.jobId != 0 then Touch(r, q.frame.jobId, q.now) else r, true)
  }

  /** A whole session: requests in order, none after the one that ends it. */
  function DispatchAll(r: Registry, qs: seq<Request>): (Registry, bool) {
    if qs == [] then (r, true)
    else
      var n := |qs| - 1;
      var (before, goesOn) := DispatchAll(r, qs[..n]);
      if goesOn then Dispatch(before, qs[n]) else (before, false)
  }

  function FramesOf(qs: seq<Request>): (frames: seq<Frame>)
    ensures |frames| == |qs|
  {
    seq(|qs|, i requires 0 <= i < |qs| => qs[i].frame)
  }

  // --- What a RUN request does ---------------------------------------------------------------

  /** After a process that did not start, whatever other tasks did meanwhile, no job is left under the id. */
  lemma FailedLaunchRemovesJob(r: Registry, now: nat, run: RunOutcome)
    requires run.Command? && run.ackSent && !run.launched && Create(r, run.timeout, now).1.Ok?
    ensures var (r', goesOn) := HandleRun(r, now, run);
            goesOn ==> Create(r, run.timeout, now).1.value !in r'.jobs
  {
    hide PerformAll;
  }

  /** If they did nothing, the registered jobs are exactly as they were. */
  lemma FailedLaunchLeavesNoJob(r: Registry, now: nat, timeout: Option<nat>)
    requires Create(r, timeout, now).1.Ok?
    ensures var (r', goesOn) := HandleRun(r, now, Command(timeout, true, false, [], [], []));
            goesOn && r'.jobs == r.jobs
  {
    var (created, result) := Create(r, timeout, now);
    var id := result.value;
    var starting := Transition(created, id, Starting, now).0;
    var failed := Transition(starting, id, Failed, now).0;
    assert failed.jobs.Keys == r.jobs.Keys + {id};
    assert failed.jobs - {id} == r.jobs;
  }

  /** A process that starts, without interference, leaves one more job, under a fresh id and `Running`. */
  lemma LaunchAddsOneRunningJob(r: Registry, now: nat, timeout: Option<nat>)
    requires Create(r, timeout, now).1.Ok?
    ensures var (r', goesOn) := HandleRun(r, now, Command(timeout, true, true, [], [], []));
            var id := Create(r, timeout, now).1.value;
            && goesOn && id !in r.jobs
            && r'.jobs == r.jobs[id := Job(Running, false, timeout, now, None, now)]
  {
    var (created, result) := Create(r, timeout, now);
    var id := result.value;
    var starting := Transition(created, id, Starting, now).0;
    assert starting.jobs[id].state == Starting;
    var running := Transition(starting, id, Running, now).0;
    assert running.jobs[id].state == Running;
  }

  /** A RUN request is refused, and ends the session, if its payload is bad, no job can be created, or the
      acknowledgement cannot be sent; in the last case the new job stays behind. */
  lemma RefusedRunEnds(r: Registry, now: nat, timeout: Option<nat>, launched: bool)
    ensures HandleRun(r, now, BadPayload) == (r, false)
    ensures Create(r, timeout, now).1.Err? ==>
              HandleRun(r, now, Command(timeout, true, launched, [], [], [])) == (Create(r, timeout, now).0, false)
    ensures Create(r, timeout, now).1.Ok? ==>
              var (r', goesOn) := HandleRun(r, now, Command(timeout, false, launched, [], [], []));
              var id := Create(r, timeout, now).1.value;
              !goesOn && r'.jobs == r.jobs[id := Job(Created, false, timeout, now, None, now)]
  {
  }

  // --- What the other requests do ------------------------------------------------------------

  /** CANCEL: a registered job is terminal afterwards, and `Canceled` with its token cancelled if it was live;
      its activity is refreshed; no other job changes and the session goes on. */
  lemma CancelRequestCancels(r: Registry, q: Request)
    requires q.others == [] && q.frame.frameType == Cancel
    ensures var (r', goesOn) := Dispatch(r, q);
            var id := q.frame.jobId;
            && goesOn && r' == r.(jobs := r'.jobs) && r'.jobs.Keys == r.jobs.Keys && r'.jobs - {id} == r.jobs - {id}
            && (id in r.jobs ==>
                  && IsTerminal(r'.jobs[id].state)
                  && r'.jobs[id]
                     == if IsTerminal(r.jobs[id].state) then r.jobs[id].(lastActivity := q.now)
                        else r.jobs[id].(state := Canceled, cancelled := true, completedAt := Some(q.now),
                                         lastActivity := q.now))
  {
    var id := q.frame.jobId;
    if id in r.jobs {
      CancelableIffLive(r.jobs[id].state);
    }
  }

  /** GOODBYE ends the session and changes nothing. WINDOW_UPDATE refreshes its job's activity, any other
      unexpected frame does so unless its job id is zero, and the session goes on. */
  lemma OtherRequestsRefresh(r: Registry, q: Request)
    requires q.others == [] && q.frame.frameType != Cancel && q.frame.frameType != Run
    ensures var (r', goesOn) := Dispatch(r, q);
            var id := q.frame.jobId;
            && (goesOn <==> q.frame.frameType != Goodbye)
            && r'
               == if goesOn && id in r.jobs && (id != 0 || q.frame.frameType == WindowUpdate)
                  then r.(jobs := r.jobs[id := r.jobs[id].(lastActivity := q.now)]) else r
  {
  }

  /** What other tasks do before a request is as if they had done it before the request came. */
  lemma OthersComeFirst(r: Registry, q: Request)
    ensures Dispatch(r, q) == Dispatch(PerformAll(r, q.others), q.(others := []))
  {
  }

  /** Nothing is handled after the request that ends the session. */
  lemma {:induction false} NothingAfterTheEnd(r: Registry, qs: seq<Request>, more: seq<Request>)
    requires !DispatchAll(r, qs).1
    ensures DispatchAll(r, qs + more) == DispatchAll(r, qs)
    decreases |more|
  {
    if more == [] {
      assert qs + more == qs;
    } else {
      var n := |more| - 1;
      NothingAfterTheEnd(r, qs, more[..n]);
      assert (qs + more)[..|qs + more| - 1] == qs + more[..n];
    }
  }

  // --- The loop ------------------------------------------------------------------------------

  datatype SessionEnd = SaidGoodbye | Disconnected | RunRefused | ReadFailed(error: Error)

  method StartJob(manager: JobManager, id: u32, now: nat, launched: bool)
    returns (goesOn: bool, second: Others, third: Others)
    requires manager.Valid()
    modifies manager, manager.jobs.Values
    ensures manager.Valid() && fresh(manager.jobs.Values - old(manager.jobs.Values))
    ensures (manager.View(), goesOn) == Start(old(manager.View()), id, now, launched, second, third)
  {
    hide JobManager.View, JobManager.Valid, Transition, Launch;
    second, third := [], [];
    var starting := manager.TransitionState(id, Starting, now);
    if starting.Err? {
      return false, second, third;
    }
    second := manager.Meanwhile();
    goesOn, third := LaunchJob(manager, id, now, launched);
  }

  method LaunchJob(manager: JobManager, id: u32, now: nat, launched: bool) returns (goesOn: bool, third: Others)
    requires manager.Valid()
    modifies manager, manager.jobs.Values
    ensures manager.Valid() && fresh(manager.jobs.Values - old(manager.jobs.Values))
    ensures (manager.View(), goesOn) == Launch(old(manager.View()), id, now, launched, third)
  {
    hide JobManager.View, JobManager.Valid, Transition, Cleanup, Touch;
    third := [];
    var result := manager.TransitionState(id, if launched then Running else Failed, now);
    if launched && result.Err? {
      return false, third;
    }
    third := manager.Meanwhile();
    if launched {
      manager.UpdateActivity(id, now);
    } else {
      FewerValues(manager.jobs, id);
      var _ := manager.CleanupJob(id);
    }
    goesOn := true;
  }

  /** `handle_run`; the answers of the world are chosen as it goes and reported. */
  method HandleRunRequest(manager: JobManager, now: nat, timeout: Option<nat>) returns (run: RunOutcome, goesOn: bool)
    requires manager.Valid()
    modifies manager, manager.jobs.Values
    ensures manager.Valid()
    ensures fresh(manager.jobs.Values - old(manager.jobs.Values))
    ensures (manager.View(), goesOn) == HandleRun(old(manager.View()), now, run)
  {
    hide JobManager.View, JobManager.Valid, Create, Start;
    var parses: bool, ackSent: bool, launched: bool := *, *, *;
    if !parses {
      return BadPayload, false;
    }
    var job := manager.CreateJob(timeout, now);
    if job.Err? {
      return Command(timeout, ackSent, launched, [], [], []), false;
    }
    UpdatedValues(old(manager.jobs), job.value.jobId, job.value);
    var first := manager.Meanwhile();
    if !ackSent {
      return Command(timeout, ackSent, launched, first, [], []), false;
    }
    var second, third;
    goesOn, second, third := StartJob(manager, job.value.jobId, now, launched);
    run := Command(timeout, ackSent, launched, first, second, third);
  }

  /** One turn of the loop on the manager object. */
  method HandleRequest(manager: JobManager, frame: Frame) returns (q: Request, goesOn: bool)
    requires manager.Valid()
    modifies manager, manager.jobs.Values
    ensures manager.Valid()
    ensures fresh(manager.jobs.Values - old(manager.jobs.Values))
    ensures !goesOn ==> frame.frameType == Goodbye || frame.frameType == Run
    ensures q.frame == frame && (manager.View(), goesOn) == Dispatch(old(manager.View()), q)
  {
    hide JobManager.View, JobManager.Valid, HandleRun, CancelJob, Touch, PerformAll;
    var now: nat, timeout: Option<nat> := *, *;
    var others := manager.Meanwhile();
    q := Request(frame, others, now, BadPayload);
    goesOn := true;
    match frame.frameType {
      case Run =>
        var run;
        run, goesOn := HandleRunRequest(manager, now, timeout);
        q := Request(frame, others, now, run);
      case Cancel =>
        manager.UpdateActivity(frame.jobId, now);
        var _ := manager.Cancel(frame.jobId, now);
      case WindowUpdate =>
        manager.UpdateActivity(frame.jobId, now);
      case Goodbye =>
        goesOn := false;
      case _ =>
        if frame.jobId != 0 {
          manager.UpdateActivity(frame.jobId, now);
        }
    }
  }

  lemma DispatchOne(r: Registry, qs: seq<Request>, q: Request)
    requires DispatchAll(r, qs).1
    ensures DispatchAll(r, qs + [q]) == Dispatch(DispatchAll(r, qs).0, q)
    ensures FramesOf(qs + [q]) == FramesOf(qs) + [q.frame]
  {
    assert (qs + [q])[..|qs|] == qs;
  }

  /** The session so far: what has been handled, and that the rest of the client's frames is still in
      the pipe. */
  ghost predicate SessionAt(
      pipe: Pipe, manager: JobManager, registry: Registry, frames: seq<Frame>, handled: seq<Request>)
    reads pipe, manager, manager.jobs.Values
  {
    && manager.Valid()
    && DispatchAll(registry, handled) == (manager.View(), true)
    && frames == FramesOf(handled) + ParseAll(pipe.incoming).frames
  }

  /** What is promised when the session ends after these requests. */
  ghost predicate SessionOver(
      healthy: bool, view: Registry, registry: Registry, frames: seq<Frame>, handled: seq<Request>, end: SessionEnd) {
    && view == DispatchAll(registry, handled).0
    && FramesOf(handled) <= frames
    && (end.SaidGoodbye? ==> handled != [] && handled[|handled| - 1].frame.frameType == Goodbye)
    && (end.RunRefused? ==> handled != [] && handled[|handled| - 1].frame.frameType == Run)
    && (healthy && end.ReadFailed? ==> FramesOf(handled) == frames)
    && !end.Disconnected?
  }

  /** One turn of the loop: a read, then either a request handled or the end. */
  method HandleNext(
      pipe: Pipe, manager: JobManager, handled: seq<Request>, ghost registry: Registry, ghost frames: seq<Frame>)
    returns (more: seq<Request>, stop: Option<SessionEnd>)
    requires SessionAt(pipe, manager, registry, frames, handled)
    modifies pipe`incoming, manager, manager.jobs.Values
    ensures fresh(manager.jobs.Values - old(manager.jobs.Values)) && manager.Valid()
    ensures stop.None? ==> SessionAt(pipe, manager, registry, frames, more) && |pipe.incoming| < |old(pipe.incoming)|
    ensures stop.Some? ==> SessionOver(pipe.healthy, manager.View(), registry, frames, more, stop.value)
  {
    hide JobManager.View, JobManager.Valid, Dispatch, DispatchAll, FramesOf, ParseAll, ParseOne;
    ghost var before := pipe.incoming;
    var next := pipe.ReadFrame();
    if next.Err? {
      ParseStep(before, before, Frame(Goodbye, Control, 0, 0, 0, []));
      return handled, Some(if next.error == Io(Os(ERROR_BROKEN_PIPE)) then Disconnected else ReadFailed(next.error));
    }
    ParseStep(before, pipe.incoming, next.value);
    var q, goesOn := HandleRequest(manager, next.value);
    DispatchOne(registry, handled, q);
    more := handled + [q];
    assert frames == FramesOf(more) + ParseAll(pipe.incoming).frames;
    stop := if goesOn then None else Some(if next.value.frameType == Goodbye then SaidGoodbye else RunRefused);
  }

  /** `process_requests`: however the reads are cut, the session handles an initial part of the frames
      that the client's bytes parse to, in order, and leaves the registry as their dispatch one by one
      does. It stops at a GOODBYE, at a refused RUN, or at a read error; on a healthy pipe the last means
      that everything parsable has been handled. A vanished client is such an error too: the loop looks
      for the system's number of a broken pipe, but the error carries its HRESULT. */
  method ProcessRequests(pipe: Pipe, manager: JobManager) returns (handled: seq<Request>, end: SessionEnd)
    requires manager.Valid()
    modifies pipe`incoming, manager, manager.jobs.Values
    ensures manager.Valid()
    ensures SessionOver(pipe.healthy, manager.View(), old(manager.View()), ParseAll(old(pipe.incoming)).frames,
                        handled, end)
  {
    handled := [];
    ghost var registry, frames := manager.View(), ParseAll(pipe.incoming).frames;
    while true
      invariant fresh(manager.jobs.Values - old(manager.jobs.Values))
      invariant SessionAt(pipe, manager, registry, frames, handled)
      decreases |pipe.incoming|
    {
      hide *;
      var stop;
      handled, stop := HandleNext(pipe, manager, handled, registry, frames);
      if stop.Some? {
        return handled, stop.value;
      }
    }
  }
}
