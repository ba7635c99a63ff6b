/** What each task of a job does when the others stand still, from any moment at which it can go on; and what
    a failed launch, a cancellation and a removal leave behind in every run (src/pipe_server.rs,
    src/cancellation.rs, src/job_manager.rs). */
module JobSolo {
  import opened Errors
  import opened JobStates
  import opened Protocol
  import opened JobLifecycle
  import opened JobOutcomes

  // --- One task alone ------------------------------------------------------------------------

  lemma NoSteps(timeout: Option<nat>, w: World)
    ensures Legal(timeout, w, []) && Exec(timeout, w, []) == w
  {
  }

  /** `transition_state` alone: refused for an unknown job or a disallowed target, which changes nothing;
      else the target is entered, stamped, and the completion time set iff it is terminal. */
  lemma MoveAlone(timeout: Option<nat>, w0: World, acts: seq<Action>, i: nat, target: JobState)
    returns (longer: seq<Action>)
    requires Legal(timeout, w0, acts)
    requires var w := Exec(timeout, w0, acts);
             |w.tasks| >= 5 && i < |w.tasks| && w.tasks[i].pc == Moving(target, Lookup) && w.sh.holder.None?
    ensures Legal(timeout, w0, longer)
    ensures var w := Exec(timeout, w0, acts);
            var allowed := w.sh.registered && CanTransition(w.sh.state, target);
            && Exec(timeout, w0, longer).tasks
               == w.tasks[i := w.tasks[i].(pc := AfterMove(w.tasks[i].role, target, allowed))]
            && Exec(timeout, w0, longer).sh
               == if !allowed then w.sh
                  else w.sh.(state := target, lastActivity := w.sh.clock, history := w.sh.history + [target],
                             completedAt := if IsTerminal(target) then Some(w.sh.clock) else w.sh.completedAt)
  {
    var w := Exec(timeout, w0, acts);
    if w.sh.registered && CanTransition(w.sh.state, target) {
      if IsTerminal(target) {
        longer := MoveToTerminal(timeout, w0, acts, i, target);
      } else {
        longer := MoveRun(timeout, w0, acts, i, target);
      }
    } else {
      longer := MoveRefused(timeout, w0, acts, i, target);
    }
  }

  lemma MoveToTerminal(timeout: Option<nat>, w0: World, acts: seq<Action>, i: nat, target: JobState)
    returns (longer: seq<Action>)
    requires Legal(timeout, w0, acts) && IsTerminal(target)
    requires var w := Exec(timeout, w0, acts);
             && |w.tasks| >= 5 && i < |w.tasks| && w.tasks[i].pc == Moving(target, Lookup)
             && w.sh.registered && w.sh.holder.None? && CanTransition(w.sh.state, target)
    ensures Legal(timeout, w0, longer)
    ensures var w := Exec(timeout, w0, acts);
            Exec(timeout, w0, longer)
            == World(w.sh.(state := target, lastActivity := w.sh.clock, completedAt := Some(w.sh.clock),
                           history := w.sh.history + [target]),
                     w.tasks[i := w.tasks[i].(pc := AfterMove(w.tasks[i].role, target, true))])
  {
    hide Legal, Exec, AfterMove, CanTransition;
    longer := Then(timeout, w0, acts, Act(i, Go));
    longer := Then(timeout, w0, longer, Act(i, Go));
    longer := Then(timeout, w0, longer, Act(i, Go));
    longer := Then(timeout, w0, longer, Act(i, Go));
    longer := Then(timeout, w0, longer, Act(i, Go));
    longer := Then(timeout, w0, longer, Act(i, Go));
  }

  lemma MoveRefused(timeout: Option<nat>, w0: World, acts: seq<Action>, i: nat, target: JobState)
    returns (longer: seq<Action>)
    requires Legal(timeout, w0, acts)
    requires var w := Exec(timeout, w0, acts);
             && |w.tasks| >= 5 && i < |w.tasks| && w.tasks[i].pc == Moving(target, Lookup)
             && w.sh.holder.None? && !(w.sh.registered && CanTransition(w.sh.state, target))
    ensures Legal(timeout, w0, longer)
    ensures var w := Exec(timeout, w0, acts);
            Exec(timeout, w0, longer)
            == w.(tasks := w.tasks[i := w.tasks[i].(pc := AfterMove(w.tasks[i].role, target, false))])
  {
    hide Legal, Exec, AfterMove, CanTransition;
    longer := Then(timeout, w0, acts, Act(i, Go));
    if Exec(timeout, w0, acts).sh.registered {
      longer := Then(timeout, w0, longer, Act(i, Go));
      longer := Then(timeout, w0, longer, Act(i, Go));
    }
  }

  /** `cancel_job` alone: an unknown job is an error; a terminal one is left alone; any other has its token
      cancelled and becomes `Canceled`. */
  lemma CancelAlone(timeout: Option<nat>, w: World, i: nat) returns (acts: seq<Action>)
    requires |w.tasks| >= 5 && i < |w.tasks| && w.tasks[i] == Task(Canceler, Find) && w.sh.holder.None?
    ensures Legal(timeout, w, acts)
    ensures var end := Exec(timeout, w, acts);
            && i < |end.tasks| && end.tasks[i].pc == Done(w.sh.registered)
            && end.sh
               == if !w.sh.registered || IsTerminal(w.sh.state) then w.sh
                  else w.sh.(cancelled := true, state := Canceled, completedAt := Some(w.sh.clock),
                             lastActivity := w.sh.clock, history := w.sh.history + [Canceled])
  {
    NoSteps(timeout, w);
    hide Legal, Exec, TxStep, CanTransition, IsTerminal;
    acts := Then(timeout, w, [], Act(i, Go));
    if w.sh.registered {
      acts := Then(timeout, w, acts, Act(i, Go));
      acts := Then(timeout, w, acts, Act(i, Go));
      if !IsTerminal(w.sh.state) {
        acts := SignalAndCancel(timeout, w, acts, i);
      }
    }
  }

  /** The second half, on a live job. */
  lemma SignalAndCancel(timeout: Option<nat>, w0: World, acts: seq<Action>, i: nat) returns (longer: seq<Action>)
    requires Legal(timeout, w0, acts)
    requires var w := Exec(timeout, w0, acts);
             && |w.tasks| >= 5 && i < |w.tasks| && w.tasks[i] == Task(Canceler, Signal)
             && w.sh.holder.None? && w.sh.registered && !IsTerminal(w.sh.state)
    ensures Legal(timeout, w0, longer)
    ensures var w, end := Exec(timeout, w0, acts), Exec(timeout, w0, longer);
            && i < |end.tasks| && end.tasks[i].pc == Done(true)
            && end.sh == w.sh.(cancelled := true, state := Canceled, completedAt := Some(w.sh.clock),
                               lastActivity := w.sh.clock, history := w.sh.history + [Canceled])
  {
    CancelableIffLive(Exec(timeout, w0, acts).sh.state);
    TerminalStates();
    hide Legal, Exec, TxStep, CanTransition, IsTerminal;
    longer := Then(timeout, w0, acts, Act(i, Go));
    longer := MoveAlone(timeout, w0, longer, i, Canceled);
  }

  lemma TerminalStates()
    ensures IsTerminal(Canceled) && IsTerminal(Completed) && IsTerminal(Failed) && IsTerminal(TimedOut)
    ensures !IsTerminal(Created) && !IsTerminal(Starting) && !IsTerminal(Running) && !IsTerminal(Exiting)
  {
  }

  /** `cleanup_job` alone: an unknown job is an error; any other has its token cancelled and is removed. */
  lemma RemoveAlone(timeout: Option<nat>, w: World, i: nat) returns (acts: seq<Action>)
    requires |w.tasks| >= 5 && i < |w.tasks| && w.tasks[i] == Task(Remover, Find)
    ensures Legal(timeout, w, acts)
    ensures var end := Exec(timeout, w, acts);
            && i < |end.tasks| && end.tasks[i].pc == Done(w.sh.registered)
            && end.sh == if w.sh.registered then w.sh.(cancelled := true, registered := false) else w.sh
  {
    NoSteps(timeout, w);
    hide Legal, Exec, TxStep, CanTransition, IsTerminal;
    acts := Then(timeout, w, [], Act(i, Go));
    if w.sh.registered {
      acts := Then(timeout, w, acts, Act(i, Go));
      acts := Then(timeout, w, acts, Act(i, Go));
    }
  }

  /** The exit waiter alone, on a running job: `Exiting`, then EXIT, then `Completed`. */
  lemma WaiterAlone(timeout: Option<nat>, w: World, i: nat) returns (acts: seq<Action>)
    requires |w.tasks| >= 5 && i < |w.tasks| && w.tasks[i] == Task(Waiter, Waiting)
    requires w.sh.registered && w.sh.holder.None? && w.sh.state == Running
    ensures Legal(timeout, w, acts)
    ensures var end := Exec(timeout, w, acts);
            && i < |end.tasks| && end.tasks[i].pc == Done(true)
            && end.sh
               == w.sh.(state := Completed, completedAt := Some(w.sh.clock), lastActivity := w.sh.clock,
                        history := w.sh.history + [Exiting] + [Completed],
                        frames := w.sh.frames + [ExitMark], exitOffers := w.sh.exitOffers + 1)
  {
    NoSteps(timeout, w);
    TerminalStates();
    WaiterMoves();
    hide Legal, Exec, TxStep, CanTransition, IsTerminal, AfterMove;
    acts := Then(timeout, w, [], Act(i, Go));
    acts := MoveAlone(timeout, w, acts, i, Exiting);
    acts := Then(timeout, w, acts, Act(i, Go));
    acts := Then(timeout, w, acts, Act(i, Go));
    acts := MoveAlone(timeout, w, acts, i, Completed);
  }

  lemma WaiterMoves()
    ensures CanTransition(Running, Exiting) && CanTransition(Exiting, Completed)
    ensures AfterMove(Waiter, Exiting, true) == Touch && AfterMove(Waiter, Completed, true) == Done(true)
  {
  }

  /** The launching request alone, when the process does not start: acknowledged, reported, and gone. */
  lemma FailedLaunchAlone(timeout: Option<nat>, now: nat) returns (acts: seq<Action>)
    ensures Legal(timeout, Init(now), acts)
    ensures var end := Exec(timeout, Init(now), acts);
            && |end.tasks| >= 5 && end.tasks[0].pc == Done(false)
            && end.sh.frames == [AckMark, ErrorMark]
            && end.sh.state == Failed && end.sh.completedAt == Some(now) && end.sh.cancelled && !end.sh.registered
  {
    acts := StartingRun(timeout, now);
    TerminalStates();
    LauncherFails();
    hide Legal, Exec, TxStep, AfterMove, CanTransition, IsTerminal;
    acts := Then(timeout, Init(now), acts, Act(0, Fail));
    acts := MoveAlone(timeout, Init(now), acts, 0, Failed);
    acts := ReportAndRemove(timeout, Init(now), acts);
  }

  lemma LauncherFails()
    ensures CanTransition(Starting, Failed) && AfterMove(Launcher, Failed, true) == SendError
  {
  }

  lemma ReportAndRemove(timeout: Option<nat>, w0: World, acts: seq<Action>) returns (longer: seq<Action>)
    requires Legal(timeout, w0, acts)
    requires var w := Exec(timeout, w0, acts);
             |w.tasks| >= 5 && w.tasks[0] == Task(Launcher, SendError) && w.sh.registered
    ensures Legal(timeout, w0, longer)
    ensures var w, end := Exec(timeout, w0, acts), Exec(timeout, w0, longer);
            && |end.tasks| >= 5 && end.tasks[0].pc == Done(false)
            && end.sh == w.sh.(frames := w.sh.frames + [ErrorMark], cancelled := true, registered := false)
  {
    hide Legal, Exec, TxStep, AfterMove, CanTransition, IsTerminal;
    longer := Then(timeout, w0, acts, Act(0, Go));
    longer := Then(timeout, w0, longer, Act(0, Go));
    longer := Then(timeout, w0, longer, Act(0, Go));
    longer := Then(timeout, w0, longer, Act(0, Go));
  }

  /** One look of the timeout monitor, alone: it stops at a terminal state or a cancelled token, times a
      running job out once the timeout has passed, and else sleeps and looks again. */
  lemma LookAlone(timeout: Option<nat>, w: World, i: nat) returns (acts: seq<Action>)
    requires |w.tasks| >= 5 && i < |w.tasks| && w.tasks[i] == Task(Monitor, PollLock)
    requires w.sh.holder.None? && timeout.Some?
    ensures Legal(timeout, w, acts)
    ensures var end := Exec(timeout, w, acts);
            var late := w.sh.clock >= w.sh.monitorStart + timeout.value;
            && i < |end.tasks|
            && (IsTerminal(w.sh.state) || w.sh.cancelled ==> end.tasks[i].pc == Done(true) && end.sh == w.sh)
            && (!IsTerminal(w.sh.state) && !w.sh.cancelled && !late ==> end == w)
            && (!IsTerminal(w.sh.state) && !w.sh.cancelled && late ==>
                  && end.tasks[i].pc == Done(true) && end.sh.cancelled
                  && end.sh.state == if w.sh.registered && w.sh.state == Running then TimedOut else w.sh.state)
  {
    NoSteps(timeout, w);
    TerminalStates();
    Predecessors(w.sh.state);
    hide Legal, Exec, TxStep, CanTransition, IsTerminal;
    acts := Then(timeout, w, [], Act(i, Go));
    acts := Then(timeout, w, acts, Act(i, Go));
    if !IsTerminal(w.sh.state) {
      acts := Then(timeout, w, acts, Act(i, Go));
      if !w.sh.cancelled {
        acts := Then(timeout, w, acts, Act(i, Go));
        acts := AfterClock(timeout, w, acts, i);
      }
    }
  }

  lemma AfterClock(timeout: Option<nat>, w: World, acts: seq<Action>, i: nat) returns (longer: seq<Action>)
    requires |w.tasks| >= 5 && i < |w.tasks| && w.tasks[i] == Task(Monitor, PollLock) && w.sh.holder.None?
    requires timeout.Some? && !IsTerminal(w.sh.state) && !w.sh.cancelled
    requires Legal(timeout, w, acts)
    requires var late := w.sh.clock >= w.sh.monitorStart + timeout.value;
             Exec(timeout, w, acts)
             == w.(tasks := w.tasks[i := Task(Monitor, if late then Moving(TimedOut, Lookup) else Sleeping)])
    ensures Legal(timeout, w, longer)
    ensures var end := Exec(timeout, w, longer);
            var late := w.sh.clock >= w.sh.monitorStart + timeout.value;
            && i < |end.tasks|
            && (!late ==> end == w)
            && (late ==>
                  && end.tasks[i].pc == Done(true) && end.sh.cancelled
                  && end.sh.state == if w.sh.registered && w.sh.state == Running then TimedOut else w.sh.state)
  {
    Predecessors(w.sh.state);
    TerminalStates();
    hide Legal, Exec, TxStep, CanTransition, IsTerminal;
    longer := acts;
    if w.sh.clock >= w.sh.monitorStart + timeout.value {
      longer := MoveAlone(timeout, w, longer, i, TimedOut);
    }
    longer := Then(timeout, w, longer, Act(i, Go));
  }

  /** A monitor without a timeout ends at once, one with a timeout starts counting from now; a refreshing task
      stamps the activity of a registered job; a pump sends what it has, or its end marker, or breaks off. */
  lemma SingleSteps(timeout: Option<nat>, w: World, i: nat)
    requires |w.tasks| >= 5 && i < |w.tasks|
    ensures w.tasks[i].pc.MonitorStart? ==>
              Apply(timeout, w, Act(i, Go))
              == World(if timeout.None? then w.sh else w.sh.(monitorStart := w.sh.clock),
                       w.tasks[i := w.tasks[i].(pc := if timeout.None? then Done(true) else PollLock)])
    ensures w.tasks[i].pc.Touch? ==>
              var t := Apply(timeout, w, Act(i, Go));
              t.sh == if w.sh.registered then w.sh.(lastActivity := w.sh.clock) else w.sh
    ensures w.tasks[i].pc.Streaming? && w.tasks[i].role.Pump? ==>
              var stream := w.tasks[i].role.stream;
              && Apply(timeout, w, Act(i, More)) == w.(sh := w.sh.(frames := w.sh.frames + [OutputMark(stream)]))
              && Apply(timeout, w, Act(i, Go))
                 == World(w.sh.(frames := w.sh.frames + [EosMark(stream)]), w.tasks[i := w.tasks[i].(pc := Done(true))])
              && Apply(timeout, w, Act(i, Fail)) == w.(tasks := w.tasks[i := w.tasks[i].(pc := Done(false))])
    ensures w.tasks[i].pc.Sleeping? ==>
              Apply(timeout, w, Act(i, Fail))
              == w.(tasks := w.tasks[i := w.tasks[i].(pc := if w.sh.cancelled then Done(true) else PollLock)])
  {
    hide TxStep, AfterMove, CanTransition, IsTerminal;
  }

  // --- Every run ------------------------------------------------------------------------------

  /** The launch has failed and its report is still to come, or has been sent. */
  predicate Reporting(w: World)
    requires |w.tasks| >= 5
  {
    var pc := w.tasks[0].pc;
    || (pc.Moving? && pc.target == Failed)
    || pc.SendError?
    || ((pc.Find? || pc.CancelToken? || pc.Deregister? || pc == Done(false)) && ErrorMark in w.sh.frames)
  }

  /** Somewhere in the run the report cannot be sent. */
  predicate ReportLost(timeout: Option<nat>, w: World, acts: seq<Action>)
    requires Legal(timeout, w, acts)
    decreases |acts|
  {
    acts != []
    && (|| (acts[0] == Act(0, Fail) && w.tasks[0].pc.SendError?)
        || ReportLost(timeout, Apply(timeout, w, acts[0]), acts[1..]))
  }

  lemma StepKeepsReporting(timeout: Option<nat>, w: World, a: Action)
    requires Inv(timeout, w) && Enabled(w, a) && Reporting(w) && !(a == Act(0, Fail) && w.tasks[0].pc.SendError?)
    ensures |Apply(timeout, w, a).tasks| >= 5 && Reporting(Apply(timeout, w, a))
  {
    if a.Act? {
      FramesGrow(timeout, w, a.i, a.choice);
      hide TxStep, CanTransition, IsTerminal, Inv;
      assert w.tasks[0].role == Launcher by { LauncherIsFirst(timeout, w); }
    } else {
      hide Inv;
      assert |w.tasks| >= 5 by { LauncherIsFirst(timeout, w); }
    }
  }

  lemma LauncherIsFirst(timeout: Option<nat>, w: World)
    requires Inv(timeout, w)
    ensures |w.tasks| >= 5 && w.tasks[0].role == Launcher && w.tasks[1].role == Waiter && w.tasks[2].role == Monitor
  {
    hide TaskInv;
  }

  lemma FramesGrow(timeout: Option<nat>, w: World, i: nat, c: Choice)
    requires Inv(timeout, w) && Enabled(w, Act(i, c))
    ensures w.sh.frames <= TaskStep(timeout, w.sh, i, w.tasks[i], c).0.frames
  {
    RoleOf(timeout, w.sh, i, w.tasks[i]);
    StepEmits(timeout, w.sh, i, w.tasks[i], c);
    hide TaskStep;
  }

  lemma {:induction false} RunKeepsReporting(timeout: Option<nat>, w: World, acts: seq<Action>)
    requires Inv(timeout, w) && |w.tasks| >= 5 && Reporting(w) && Legal(timeout, w, acts)
    requires !ReportLost(timeout, w, acts)
    ensures |Exec(timeout, w, acts).tasks| >= 5 && Reporting(Exec(timeout, w, acts))
    decreases |acts|
  {
    hide Inv, Apply, Enabled, Reporting;
    if acts != [] {
      StepKeepsReporting(timeout, w, acts[0]);
      StepKeepsInv(timeout, w, acts[0]);
      RunKeepsReporting(timeout, Apply(timeout, w, acts[0]), acts[1..]);
    }
  }

  /** A launch that has failed, in every interleaving: once the launcher has ended, and unless its report could
      not be sent, exactly one ERROR frame is on the channel and no EXIT. */
  lemma FailedLaunchIsReported(timeout: Option<nat>, now: nat, before: seq<Action>, after: seq<Action>)
    requires Legal(timeout, Init(now), before)
    requires var w := Exec(timeout, Init(now), before);
             && |w.tasks| >= 5 && w.tasks[0].pc.Launch? && Enabled(w, Act(0, Fail))
             && Legal(timeout, Apply(timeout, w, Act(0, Fail)), after)
             && !ReportLost(timeout, Apply(timeout, w, Act(0, Fail)), after)
    ensures var w := Exec(timeout, Init(now), before);
            var end := Exec(timeout, Apply(timeout, w, Act(0, Fail)), after);
            && |end.tasks| >= 5
            && (end.tasks[0].pc.Done? ==>
                  exists k :: 0 <= k < |end.sh.frames| && end.sh.frames[k] == ErrorMark
                              && forall j :: 0 <= j < |end.sh.frames| && j != k ==> !IsEnd(end.sh.frames[j]))
  {
    InitInv(timeout, now);
    RunKeepsFrames(timeout, Init(now), before);
    RunKeepsInv(timeout, Init(now), before);
    var w := Exec(timeout, Init(now), before);
    var w' := Apply(timeout, w, Act(0, Fail));
    StepKeepsInv(timeout, w, Act(0, Fail));
    StepKeepsFrames(timeout, w, Act(0, Fail));
    FailedLaunchReports(timeout, w);
    RunKeepsReporting(timeout, w', after);
    RunKeepsFrames(timeout, w', after);
    var end := Exec(timeout, w', after);
    hide Legal, Exec, Inv, Apply, ReportLost, Enabled;
    if end.tasks[0].pc.Done? {
      var k :| 0 <= k < |end.sh.frames| && end.sh.frames[k] == ErrorMark;
    }
  }

  lemma FailedLaunchReports(timeout: Option<nat>, w: World)
    requires Inv(timeout, w) && w.tasks[0].pc.Launch?
    ensures |Apply(timeout, w, Act(0, Fail)).tasks| >= 5 && Reporting(Apply(timeout, w, Act(0, Fail)))
  {
    hide TaskInv, SharedInv, SpawnInv;
  }

  /** A report on its way is never refused by anything but the channel. */
  lemma ReportIsSent(timeout: Option<nat>, w: World)
    requires |w.tasks| >= 5 && w.tasks[0].pc.SendError?
    ensures Enabled(w, Act(0, Go)) && Apply(timeout, w, Act(0, Go)).sh.frames == w.sh.frames + [ErrorMark]
  {
  }

  // --- The token -----------------------------------------------------------------------------

  /** Whoever cancels or removes a job has signalled its token first, and a monitor that has timed it out does
      so before it ends. */
  predicate TaskSignals(sh: Shared, t: Task) {
    && (t.pc.Deregister? || (t.pc.Moving? && t.pc.target == Canceled) ==> sh.cancelled)
    && (t.role.Monitor? && sh.state == TimedOut ==> t.pc.Terminate? || (t.pc.Done? && sh.cancelled))
  }

  predicate Signalled(w: World) {
    && (w.sh.state == Canceled || !w.sh.registered ==> w.sh.cancelled)
    && forall i :: 0 <= i < |w.tasks| ==> TaskSignals(w.sh, w.tasks[i])
  }

  /** One step, seen from the task that takes it and from any other. */
  lemma StepSignals(timeout: Option<nat>, sh: Shared, i: nat, t: Task, c: Choice, other: Task)
    requires RoleAllows(t) && TaskEnabled(sh, t.pc) && TaskSignals(sh, t) && TaskSignals(sh, other)
    requires sh.state == Canceled || !sh.registered ==> sh.cancelled
    requires !(t.role.Monitor? && other.role.Monitor?)
    ensures var (sh', pc) := TaskStep(timeout, sh, i, t, c);
            && (sh'.state == Canceled || !sh'.registered ==> sh'.cancelled)
            && TaskSignals(sh', t.(pc := pc)) && TaskSignals(sh', other)
  {
    hide CanTransition, IsTerminal;
    if t.pc.Moving? {
      RolePcs(t);
      hide RoleAllows;
    } else {
      hide TxStep, AfterMove;
    }
  }

  lemma ActKeepsSignalled(timeout: Option<nat>, w: World, i: nat, c: Choice)
    requires Inv(timeout, w) && Signalled(w) && Enabled(w, Act(i, c))
    ensures Signalled(Apply(timeout, w, Act(i, c)))
  {
    var w' := Apply(timeout, w, Act(i, c));
    LauncherIsFirst(timeout, w);
    RoleOf(timeout, w.sh, i, w.tasks[i]);
    OneMonitor(timeout, w);
    hide Inv, TaskStep, RoleAllows, TaskEnabled;
    StepSignals(timeout, w.sh, i, w.tasks[i], c, Task(Remover, Find));
    forall k | 0 <= k < |w'.tasks| ensures TaskSignals(w'.sh, w'.tasks[k]) {
      if k != i {
        StepSignals(timeout, w.sh, i, w.tasks[i], c, w.tasks[k]);
        SpawnSignals(w, w', k);
      }
    }
  }

  lemma OneMonitor(timeout: Option<nat>, w: World)
    requires Inv(timeout, w)
    ensures forall k :: 0 <= k < |w.tasks| && w.tasks[k].role.Monitor? ==> k == 2
    ensures w.tasks[2].pc.NotSpawned? ==> w.sh.state != TimedOut
  {
    assert TaskInv(timeout, w.sh, 2, w.tasks[2]);
    hide TaskInv, SharedInv, SpawnInv;
  }

  lemma SpawnSignals(w: World, w': World, k: nat)
    requires k < |w.tasks| && k < |w'.tasks| && TaskSignals(w'.sh, w.tasks[k])
    requires w'.tasks[k] == w.tasks[k] || w'.tasks[k] == w.tasks[k].(pc := SpawnPc(w.tasks[k].role))
    requires w'.tasks[k] != w.tasks[k] && w.tasks[k].role.Monitor? ==> w'.sh.state != TimedOut
    ensures TaskSignals(w'.sh, w'.tasks[k])
  {
  }

  lemma {:induction false} RunKeepsSignalled(timeout: Option<nat>, w: World, acts: seq<Action>)
    requires Inv(timeout, w) && Signalled(w) && Legal(timeout, w, acts)
    ensures Signalled(Exec(timeout, w, acts))
    decreases |acts|
  {
    if acts != [] {
      if acts[0].Act? {
        ActKeepsSignalled(timeout, w, acts[0].i, acts[0].choice);
      }
      StepKeepsInv(timeout, w, acts[0]);
      hide Inv, TaskStep, TaskEnabled;
      assert Signalled(Apply(timeout, w, acts[0]));
      hide Signalled, Apply, Enabled;
      RunKeepsSignalled(timeout, Apply(timeout, w, acts[0]), acts[1..]);
    }
  }

  /** In every run: a job that is `Canceled`, or no longer registered, or `TimedOut` with its monitor at its end,
      has its token cancelled. */
  lemma EndedJobsAreSignalled(timeout: Option<nat>, now: nat, acts: seq<Action>)
    requires Legal(timeout, Init(now), acts)
    ensures var w := Exec(timeout, Init(now), acts);
            && |w.tasks| >= 5
            && (w.sh.state == Canceled || !w.sh.registered || (w.sh.state == TimedOut && w.tasks[2].pc.Done?) ==>
                  w.sh.cancelled)
  {
    InitInv(timeout, now);
    RunKeepsInv(timeout, Init(now), acts);
    RunKeepsSignalled(timeout, Init(now), acts);
    LauncherIsFirst(timeout, Exec(timeout, Init(now), acts));
    hide Legal, Exec, Init, Inv;
    assert TaskSignals(Exec(timeout, Init(now), acts).sh, Exec(timeout, Init(now), acts).tasks[2]);
  }
}
