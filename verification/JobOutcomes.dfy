/** Whole-run guarantees of the job step system: how jobs end, that they end once, and in which order
    their frames are sent. */
module JobOutcomes {
  import opened Errors
  import opened JobStates
  import opened Protocol
  import opened JobLifecycle

  predicate Legal(timeout: Option<nat>, w: World, acts: seq<Action>)
    decreases |acts|
  {
    acts == []
    || (|w.tasks| >= 5 && Enabled(w, acts[0]) && Legal(timeout, Apply(timeout, w, acts[0]), acts[1..]))
  }

  /** The world after a run. */
  function Exec(timeout: Option<nat>, w: World, acts: seq<Action>): World
    requires Legal(timeout, w, acts)
    decreases |acts|
  {
    if acts == [] then w else Exec(timeout, Apply(timeout, w, acts[0]), acts[1..])
  }

  lemma {:induction false} RunKeepsInv(timeout: Option<nat>, w: World, acts: seq<Action>)
    requires Inv(timeout, w) && Legal(timeout, w, acts)
    ensures Inv(timeout, Exec(timeout, w, acts))
    decreases |acts|
  {
    hide Inv, Apply, Enabled;
    if acts != [] {
      StepKeepsInv(timeout, w, acts[0]);
      RunKeepsInv(timeout, Apply(timeout, w, acts[0]), acts[1..]);
    }
  }

  // --- Once terminal, always the same --------------------------------------------------------

  /** What a later moment of a run keeps of an earlier one. */
  predicate Later(sh: Shared, sh': Shared) {
    && (IsTerminal(sh.state) ==> sh'.state == sh.state)
    && (sh.completedAt.Some? ==> sh'.completedAt == sh.completedAt)
    && (sh'.registered ==> sh.registered)
  }

  lemma StepIsLater(timeout: Option<nat>, w: World, a: Action)
    requires Inv(timeout, w) && Enabled(w, a)
    ensures Later(w.sh, Apply(timeout, w, a).sh)
  {
    if a.Act? {
      var outsider := |w.tasks|;
      StepGuarantees(timeout, w.sh, a.i, w.tasks[a.i], a.choice, outsider);
      TransitionsClimb(w.sh.state, Apply(timeout, w, a).sh.state);
      hide TaskStep, TaskInv, SharedInv;
    } else {
      hide TaskInv, SharedInv;
    }
  }

  lemma {:induction false} RunIsLater(timeout: Option<nat>, w: World, acts: seq<Action>)
    requires Inv(timeout, w) && Legal(timeout, w, acts)
    ensures Later(w.sh, Exec(timeout, w, acts).sh)
    decreases |acts|
  {
    if acts != [] {
      StepKeepsInv(timeout, w, acts[0]);
      StepIsLater(timeout, w, acts[0]);
      hide Inv, Apply, Enabled;
      RunIsLater(timeout, Apply(timeout, w, acts[0]), acts[1..]);
    }
  }

  /** From any reachable moment on, a terminal state and a completion time never change again; a job makes
      at most four transitions; and whenever nobody holds the state lock it is terminal iff it has a
      completion time. */
  lemma FirstTerminalIsFinal(timeout: Option<nat>, now: nat, acts: seq<Action>, more: seq<Action>)
    requires Legal(timeout, Init(now), acts) && Legal(timeout, Exec(timeout, Init(now), acts), more)
    ensures var sh := Exec(timeout, Init(now), acts).sh;
            var sh' := Exec(timeout, Exec(timeout, Init(now), acts), more).sh;
            && (IsTerminal(sh.state) ==> sh'.state == sh.state)
            && (sh.completedAt.Some? ==> sh'.completedAt == sh.completedAt)
            && |sh.history| - 1 <= 4
            && (sh.holder.None? ==> (IsTerminal(sh.state) <==> sh.completedAt.Some?))
  {
    InitInv(timeout, now);
    RunKeepsInv(timeout, Init(now), acts);
    RunIsLater(timeout, Exec(timeout, Init(now), acts), more);
    PathsAreShort(Exec(timeout, Init(now), acts).sh.history);
    hide Legal, Exec, TaskInv, Init;
  }

  // --- Who settles the job -------------------------------------------------------------------

  /** A waiter that has run to its end leaves a job that is still registered terminal, although both of
      its transitions may have been refused. */
  lemma WaiterSettles(timeout: Option<nat>, now: nat, acts: seq<Action>)
    requires Legal(timeout, Init(now), acts)
    ensures var w := Exec(timeout, Init(now), acts);
            && |w.tasks| >= 5 && w.tasks[1].role == Waiter
            && (w.tasks[1].pc.Done? && w.sh.registered ==> IsTerminal(w.sh.state))
  {
    InitInv(timeout, now);
    RunKeepsInv(timeout, Init(now), acts);
    hide Legal, Exec, Init, MoveInv, RoleAllows, SharedInv, SpawnInv;
    assert TaskInv(timeout, Exec(timeout, Init(now), acts).sh, 1, Exec(timeout, Init(now), acts).tasks[1]);
  }

  /** When `cancel_job` has returned success, a job that is still registered is terminal, whoever won. */
  lemma CancelSettles(timeout: Option<nat>, now: nat, acts: seq<Action>, i: nat)
    requires Legal(timeout, Init(now), acts)
    requires var w := Exec(timeout, Init(now), acts);
             i < |w.tasks| && w.tasks[i].role == Canceler && w.tasks[i].pc == Done(true) && w.sh.registered
    ensures IsTerminal(Exec(timeout, Init(now), acts).sh.state)
  {
    InitInv(timeout, now);
    RunKeepsInv(timeout, Init(now), acts);
    hide Legal, Exec, Init, MoveInv, RoleAllows, SharedInv, SpawnInv;
    assert TaskInv(timeout, Exec(timeout, Init(now), acts).sh, i, Exec(timeout, Init(now), acts).tasks[i]);
  }

  /** The request that launches a job, once it has ended, leaves it with its exit waiter started, removed,
      terminal, or never acknowledged and still `Created`; and it leaves a registered, live job without a
      waiter exactly in the last of these cases. */
  lemma LauncherOutcomes(timeout: Option<nat>, now: nat, acts: seq<Action>)
    requires Legal(timeout, Init(now), acts)
    ensures var w := Exec(timeout, Init(now), acts);
            && |w.tasks| >= 5
            && (w.tasks[0].pc.Done? || w.tasks[0].pc.Aborted? ==>
                  || !w.tasks[1].pc.NotSpawned?
                  || !w.sh.registered
                  || IsTerminal(w.sh.state)
                  || (w.tasks[0].pc.Aborted? && w.sh.state == Created))
            && (w.tasks[0].pc.Done? || w.tasks[0].pc.Aborted? ==>
                  (w.tasks[1].pc.NotSpawned? && w.sh.registered && !IsTerminal(w.sh.state)
                   <==> w.tasks[0].pc.Aborted? && w.sh.registered && w.sh.state == Created))
  {
    InitInv(timeout, now);
    RunKeepsInv(timeout, Init(now), acts);
    hide Legal, Exec, Init, MoveInv, RoleAllows, SharedInv;
    var w := Exec(timeout, Init(now), acts);
    assert TaskInv(timeout, w.sh, 0, w.tasks[0]);
    assert SpawnIndex(3) == 1;
  }

  /** The third way happens: a job whose acknowledgement cannot be sent stays behind, not terminal. */
  lemma UnacknowledgedJobRemains(timeout: Option<nat>, now: nat)
    ensures Legal(timeout, Init(now), [Act(0, Fail)])
    ensures var w := Exec(timeout, Init(now), [Act(0, Fail)]);
            w.tasks[0].pc.Aborted? && w.sh.registered && w.sh.state == Created
  {
    var acts := [Act(0, Fail)];
    assert acts[1..] == [];
    assert Legal(timeout, Apply(timeout, Init(now), acts[0]), acts[1..]);
  }

  /** A job is timed out only from `Running`, and not before its timeout has passed since the monitor
      started. */
  lemma TimedOutIsLate(timeout: Option<nat>, now: nat, acts: seq<Action>)
    requires Legal(timeout, Init(now), acts) && Exec(timeout, Init(now), acts).sh.state == TimedOut
    ensures var sh := Exec(timeout, Init(now), acts).sh;
            && timeout.Some? && sh.completedAt.Some?
            && sh.completedAt.value >= sh.monitorStart + timeout.value
            && |sh.history| >= 2 && sh.history[|sh.history| - 2] == Running
  {
    InitInv(timeout, now);
    RunKeepsInv(timeout, Init(now), acts);
    hide Legal, Exec, Init, TaskInv, SpawnInv, RolesFixed;
  }

  // --- Frame order ---------------------------------------------------------------------------

  predicate IsEnd(m: Mark) {
    m.ExitMark? || m.ErrorMark?
  }

  /** The acknowledgement first and once, at most one EXIT or ERROR, nothing of a stream after its end. */
  predicate WellOrdered(frames: seq<Mark>) {
    && (forall i :: 0 <= i < |frames| ==> (frames[i] == AckMark <==> i == 0))
    && (forall i, j :: 0 <= i < j < |frames| ==> !(IsEnd(frames[i]) && IsEnd(frames[j])))
    && (forall i, j :: 0 <= i < j < |frames| && frames[i].EosMark? ==>
          frames[j] != frames[i] && frames[j] != OutputMark(frames[i].stream))
  }

  /** The waiter has offered its EXIT frame. */
  predicate PastExit(pc: Pc) {
    pc.Done? || (pc.Moving? && pc.target == Completed)
  }

  predicate LauncherFrames(launcher: Pc, frames: seq<Mark>) {
    && (frames == [] <==> launcher.SendAck? || launcher.Aborted?)
    && (ErrorMark in frames ==>
          launcher.Find? || launcher.CancelToken? || launcher.Deregister? || launcher == Done(false))
  }

  predicate WaiterFrames(waiter: Pc, sh: Shared) {
    && (ExitMark in sh.frames ==> PastExit(waiter))
    && sh.exitOffers == if PastExit(waiter) then 1 else 0
  }

  predicate PumpFrames(stdout: Pc, stderr: Pc, frames: seq<Mark>) {
    forall s :: EosMark(s) in frames <==> (s == Stdout && stdout == Done(true)) || (s == Stderr && stderr == Done(true))
  }

  predicate FrameInv(w: World)
    requires RolesFixed(w)
  {
    && WellOrdered(w.sh.frames)
    && LauncherFrames(w.tasks[0].pc, w.sh.frames)
    && WaiterFrames(w.tasks[1].pc, w.sh)
    && PumpFrames(w.tasks[3].pc, w.tasks[4].pc, w.sh.frames)
  }

  lemma EmitKeepsOrder(frames: seq<Mark>, m: Mark)
    requires WellOrdered(frames)
    requires m == AckMark <==> frames == []
    requires IsEnd(m) ==> ExitMark !in frames && ErrorMark !in frames
    requires m.OutputMark? || m.EosMark? ==> EosMark(m.stream) !in frames
    ensures WellOrdered(frames + [m])
  {
  }

  /** The frames one step adds, by the task that takes it. */
  lemma StepEmits(timeout: Option<nat>, sh: Shared, i: nat, t: Task, c: Choice)
    requires RoleAllows(t) && TaskEnabled(sh, t.pc)
    ensures var (sh', pc) := TaskStep(timeout, sh, i, t, c);
            || sh'.frames == sh.frames
            || (t.role.Launcher? && t.pc.SendAck? && !pc.Aborted? && sh'.frames == sh.frames + [AckMark])
            || (t.role.Launcher? && t.pc.SendError? && sh'.frames == sh.frames + [ErrorMark])
            || (t.role.Waiter? && t.pc.SendExit? && sh'.frames == sh.frames + [ExitMark])
            || (&& t.role.Pump? && t.pc.Streaming? && pc.Streaming?
                && sh'.frames == sh.frames + [OutputMark(t.role.stream)])
            || (&& t.role.Pump? && t.pc.Streaming? && pc == Done(true)
                && sh'.frames == sh.frames + [EosMark(t.role.stream)])
    ensures var (sh', pc) := TaskStep(timeout, sh, i, t, c);
            t.role.Pump? && pc == Done(true) && !t.pc.Done? ==> sh'.frames == sh.frames + [EosMark(t.role.stream)]
  {
    hide CanTransition, IsTerminal;
  }

  /** How the pcs that the frame invariant mentions can change. */
  lemma StepMoves(timeout: Option<nat>, sh: Shared, i: nat, t: Task, c: Choice)
    requires RoleAllows(t) && TaskEnabled(sh, t.pc)
    ensures var (sh', pc) := TaskStep(timeout, sh, i, t, c);
            && (t.role.Launcher? ==>
                  && !pc.SendAck?
                  && (pc.Aborted? <==> t.pc.SendAck? && c.Fail?)
                  && (t.pc.SendAck? && !c.Fail? ==> sh'.frames == sh.frames + [AckMark])
                  && (t.pc.SendError? || t.pc.Find? || t.pc.CancelToken? || t.pc.Deregister? ==>
                        pc.Find? || pc.CancelToken? || pc.Deregister? || pc == Done(false)))
            && (t.role.Waiter? ==>
                  && (PastExit(pc) <==> PastExit(t.pc) || t.pc.SendExit?)
                  && (t.pc.SendExit? ==> !PastExit(t.pc)))
            && sh'.exitOffers == sh.exitOffers + (if t.role.Waiter? && t.pc.SendExit? then 1 else 0)
            && (t.role.Pump? ==> !t.pc.Done?)
  {
    hide CanTransition, IsTerminal;
  }

  /** Only a launcher on its way through, or at the end of, the success path has started tasks. */
  lemma StartedTasks(timeout: Option<nat>, w: World, k: nat)
    requires Inv(timeout, w) && 1 <= k < 5
    ensures !w.tasks[k].pc.NotSpawned? ==> w.tasks[0].pc.Spawning? || w.tasks[0].pc == Done(true)
    ensures w.tasks[0].pc.Spawning? && k == SpawnIndex(w.tasks[0].pc.n) ==> w.tasks[k].pc.NotSpawned?
  {
    hide TaskInv, SharedInv;
    assert w.tasks[0].pc.Spawning? ==> w.tasks[0].pc.n <= 3 by {
      assert TaskInv(timeout, w.sh, 0, w.tasks[0]);
      RoleOf(timeout, w.sh, 0, w.tasks[0]);
    }
    assert k == SpawnIndex(0) || k == SpawnIndex(1) || k == SpawnIndex(2) || k == SpawnIndex(3);
  }

  lemma RoleOf(timeout: Option<nat>, sh: Shared, i: nat, t: Task)
    requires TaskInv(timeout, sh, i, t)
    ensures RoleAllows(t)
    ensures t.role.Launcher? && t.pc.Spawning? ==> t.pc.n <= 3
  {
  }

  /** What the frames and the pcs they depend on do in one step. */
  lemma ActChanges(timeout: Option<nat>, w: World, i: nat, c: Choice)
    requires Inv(timeout, w) && Enabled(w, Act(i, c))
    ensures var w' := Apply(timeout, w, Act(i, c));
            var (sh', pc) := TaskStep(timeout, w.sh, i, w.tasks[i], c);
            && RolesFixed(w') && w'.sh == sh'
            && w'.tasks[0].pc == (if i == 0 then pc else w.tasks[0].pc)
            && (PastExit(w'.tasks[1].pc) <==> PastExit(if i == 1 then pc else w.tasks[1].pc))
            && (forall k :: k == 3 || k == 4 ==>
                  && (w'.tasks[k].pc.Done? <==> if i == k then pc.Done? else w.tasks[k].pc.Done?)
                  && (w'.tasks[k].pc == Done(true)
                      <==> if i == k then pc == Done(true) else w.tasks[k].pc == Done(true)))
  {
    StartedTasks(timeout, w, 1);
    StartedTasks(timeout, w, 3);
    StartedTasks(timeout, w, 4);
    hide TaskInv, SharedInv, TaskStep, SpawnInv, TaskEnabled;
  }

  /** Whatever a step sends keeps the order. */
  lemma EmissionInOrder(timeout: Option<nat>, w: World, i: nat, c: Choice)
    requires Inv(timeout, w) && FrameInv(w) && Enabled(w, Act(i, c))
    ensures WellOrdered(TaskStep(timeout, w.sh, i, w.tasks[i], c).0.frames)
  {
    var t := w.tasks[i];
    var frames, frames' := w.sh.frames, TaskStep(timeout, w.sh, i, t, c).0.frames;
    RoleOf(timeout, w.sh, i, t);
    StepEmits(timeout, w.sh, i, t, c);
    if 1 <= i < 5 {
      StartedTasks(timeout, w, i);
    }
    StartedTasks(timeout, w, 1);
    if frames' != frames {
      var m := frames'[|frames|];
      hide WellOrdered, TaskInv, SharedInv, TaskStep, SpawnInv, TaskEnabled, RoleAllows;
      EmitKeepsOrder(frames, m);
    }
  }

  /** Which tasks the marks that a step adds come from. */
  lemma NewMarks(timeout: Option<nat>, sh: Shared, i: nat, t: Task, c: Choice)
    requires RoleAllows(t) && TaskEnabled(sh, t.pc)
    ensures var (sh', pc) := TaskStep(timeout, sh, i, t, c);
            && (sh'.frames == [] ==> sh.frames == [])
            && (sh.frames == [] && sh'.frames != [] ==>
                  (t.role.Launcher? && !pc.Aborted?) || t.role.Waiter? || t.role.Pump?)
            && (ErrorMark in sh'.frames ==> ErrorMark in sh.frames || (t.role.Launcher? && t.pc.SendError?))
            && (ExitMark in sh'.frames ==> ExitMark in sh.frames || (t.role.Waiter? && t.pc.SendExit?))
            && (forall s :: EosMark(s) in sh'.frames <==>
                  EosMark(s) in sh.frames || (t.role == Pump(s) && !t.pc.Done? && pc == Done(true)))
  {
    StepEmits(timeout, sh, i, t, c);
    hide TaskStep, RoleAllows, TaskEnabled;
  }

  lemma ActKeepsLauncherFrames(timeout: Option<nat>, w: World, i: nat, c: Choice)
    requires Inv(timeout, w) && FrameInv(w) && Enabled(w, Act(i, c))
    ensures var (sh', pc) := TaskStep(timeout, w.sh, i, w.tasks[i], c);
            LauncherFrames(if i == 0 then pc else w.tasks[0].pc, sh'.frames)
  {
    var t := w.tasks[i];
    RoleOf(timeout, w.sh, i, t);
    NewMarks(timeout, w.sh, i, t, c);
    StepMoves(timeout, w.sh, i, t, c);
    if 1 <= i < 5 {
      StartedTasks(timeout, w, i);
    }
    hide WellOrdered, TaskInv, SharedInv, TaskStep, SpawnInv, TaskEnabled, RoleAllows, WaiterFrames,
        PumpFrames, PastExit;
  }

  lemma ActKeepsWaiterFrames(timeout: Option<nat>, w: World, i: nat, c: Choice)
    requires Inv(timeout, w) && FrameInv(w) && Enabled(w, Act(i, c))
    ensures var (sh', pc) := TaskStep(timeout, w.sh, i, w.tasks[i], c);
            WaiterFrames(if i == 1 then pc else w.tasks[1].pc, sh')
  {
    var t := w.tasks[i];
    RoleOf(timeout, w.sh, i, t);
    NewMarks(timeout, w.sh, i, t, c);
    StepMoves(timeout, w.sh, i, t, c);
    hide WellOrdered, TaskInv, SharedInv, TaskStep, SpawnInv, TaskEnabled, RoleAllows, LauncherFrames,
        PumpFrames, PastExit;
  }

  /** The bookkeeping of end markers when task `i` moves from `before` to `pc`. */
  lemma EosMarksKept(
      stdout: Pc, stderr: Pc, frames: seq<Mark>, stdout': Pc, stderr': Pc, frames': seq<Mark>,
      i: nat, role: Role, before: Pc, pc: Pc)
    requires PumpFrames(stdout, stderr, frames)
    requires forall s :: EosMark(s) in frames' <==>
               EosMark(s) in frames || (role == Pump(s) && !before.Done? && pc == Done(true))
    requires i == 3 <==> role == Pump(Stdout)
    requires i == 4 <==> role == Pump(Stderr)
    requires role.Pump? ==> !before.Done? && (i == 3 || i == 4)
    requires if i == 3 then before == stdout else i == 4 ==> before == stderr
    requires stdout' == Done(true) <==> if i == 3 then pc == Done(true) else stdout == Done(true)
    requires stderr' == Done(true) <==> if i == 4 then pc == Done(true) else stderr == Done(true)
    ensures PumpFrames(stdout', stderr', frames')
  {
  }

  lemma ActKeepsPumpFrames(timeout: Option<nat>, w: World, i: nat, c: Choice)
    requires Inv(timeout, w) && FrameInv(w) && Enabled(w, Act(i, c))
    ensures var w' := Apply(timeout, w, Act(i, c));
            RolesFixed(w') && PumpFrames(w'.tasks[3].pc, w'.tasks[4].pc, w'.sh.frames)
  {
    var t := w.tasks[i];
    var w', pc := Apply(timeout, w, Act(i, c)), TaskStep(timeout, w.sh, i, t, c).1;
    RoleOf(timeout, w.sh, i, t);
    ActChanges(timeout, w, i, c);
    NewMarks(timeout, w.sh, i, t, c);
    StepMoves(timeout, w.sh, i, t, c);
    assert RolesFixed(w) && PumpFrames(w.tasks[3].pc, w.tasks[4].pc, w.sh.frames);
    hide WellOrdered, TaskStep, TaskEnabled, RoleAllows, Apply, PastExit, Inv, FrameInv, PumpFrames;
    EosMarksKept(w.tasks[3].pc, w.tasks[4].pc, w.sh.frames, w'.tasks[3].pc, w'.tasks[4].pc, w'.sh.frames,
                 i, t.role, t.pc, pc);
  }

  lemma ActKeepsFrames(timeout: Option<nat>, w: World, i: nat, c: Choice)
    requires Inv(timeout, w) && FrameInv(w) && Enabled(w, Act(i, c))
    ensures RolesFixed(Apply(timeout, w, Act(i, c))) && FrameInv(Apply(timeout, w, Act(i, c)))
  {
    ActChanges(timeout, w, i, c);
    EmissionInOrder(timeout, w, i, c);
    ActKeepsLauncherFrames(timeout, w, i, c);
    ActKeepsWaiterFrames(timeout, w, i, c);
    ActKeepsPumpFrames(timeout, w, i, c);
    hide WellOrdered, TaskInv, SharedInv, TaskStep, SpawnInv, TaskEnabled, Apply, LauncherFrames, PumpFrames, PastExit;
  }

  lemma StepKeepsFrames(timeout: Option<nat>, w: World, a: Action)
    requires Inv(timeout, w) && FrameInv(w) && Enabled(w, a)
    ensures RolesFixed(Apply(timeout, w, a)) && FrameInv(Apply(timeout, w, a))
  {
    if a.Act? {
      ActKeepsFrames(timeout, w, a.i, a.choice);
    } else {
      hide WellOrdered, TaskInv, SharedInv;
    }
  }

  lemma {:induction false} RunKeepsFrames(timeout: Option<nat>, w: World, acts: seq<Action>)
    requires Inv(timeout, w) && FrameInv(w) && Legal(timeout, w, acts)
    ensures RolesFixed(Exec(timeout, w, acts)) && FrameInv(Exec(timeout, w, acts))
    decreases |acts|
  {
    if acts != [] {
      StepKeepsInv(timeout, w, acts[0]);
      StepKeepsFrames(timeout, w, acts[0]);
      hide Inv, Apply, Enabled, FrameInv;
      RunKeepsFrames(timeout, Apply(timeout, w, acts[0]), acts[1..]);
    }
  }

  /** In every run: the acknowledgement precedes all other frames of the job and is sent once; at most one
      EXIT or ERROR frame is ever sent, never both; nothing of an output stream follows its end marker;
      a waiter offers its EXIT frame exactly once; and a stream's end marker is there iff its pump has ended
      well. */
  lemma FrameOrder(timeout: Option<nat>, now: nat, acts: seq<Action>)
    requires Legal(timeout, Init(now), acts)
    ensures var w := Exec(timeout, Init(now), acts);
            && WellOrdered(w.sh.frames)
            && |w.tasks| >= 5
            && w.sh.exitOffers <= 1
            && (w.tasks[1].pc.Done? ==> w.sh.exitOffers == 1)
            && (forall s :: EosMark(s) in w.sh.frames <==>
                  (s == Stdout && w.tasks[3].pc == Done(true)) || (s == Stderr && w.tasks[4].pc == Done(true)))
  {
    InitInv(timeout, now);
    RunKeepsFrames(timeout, Init(now), acts);
  }

  // --- EXIT against the end of the outputs ---------------------------------------------------

  function PumpTask(stream: StreamId): nat {
    if stream == Stdout then 3 else 4
  }

  predicate FromStream(m: Mark, stream: StreamId) {
    m == OutputMark(stream) || m == EosMark(stream)
  }

  predicate PumpsStarted(w: World) {
    && |w.tasks| >= 5
    && forall k :: 3 <= k < 5 ==> w.tasks[k].pc.Streaming? || w.tasks[k].pc.Done?
  }

  /** A frame of an output whose pump had not finished at the start. */
  predicate Straggler(w: World, m: Mark)
    requires |w.tasks| >= 5
  {
    || (FromStream(m, Stdout) && !w.tasks[3].pc.Done?)
    || (FromStream(m, Stderr) && !w.tasks[4].pc.Done?)
  }

  /** How things stand after EXIT: only pumps that were still streaming at the start can add frames. */
  predicate AfterExit(timeout: Option<nat>, start: World, base: seq<Mark>, w: World) {
    && Inv(timeout, w) && |start.tasks| >= 5
    && w.tasks[0].pc == Done(true) && PastExit(w.tasks[1].pc)
    && (forall k :: 3 <= k < 5 && start.tasks[k].pc.Done? ==> w.tasks[k].pc.Done?)
    && base <= w.sh.frames
    && forall k :: |base| <= k < |w.sh.frames| ==> Straggler(start, w.sh.frames[k])
  }

  lemma ActAfterExit(timeout: Option<nat>, start: World, base: seq<Mark>, w: World, i: nat, c: Choice)
    requires AfterExit(timeout, start, base, w) && Enabled(w, Act(i, c))
    ensures AfterExit(timeout, start, base, Apply(timeout, w, Act(i, c)))
  {
    var t := w.tasks[i];
    ActKeepsInv(timeout, w, i, c);
    RoleOf(timeout, w.sh, i, t);
    StepEmits(timeout, w.sh, i, t, c);
    StepMoves(timeout, w.sh, i, t, c);
    ActChanges(timeout, w, i, c);
    assert !t.role.Launcher?;
    assert t.role.Pump? ==> (i == 3 && t.role.stream == Stdout) || (i == 4 && t.role.stream == Stderr);
    hide TaskStep, RoleAllows, Inv, Apply;
  }

  lemma StepAfterExit(timeout: Option<nat>, start: World, base: seq<Mark>, w: World, a: Action)
    requires AfterExit(timeout, start, base, w) && Enabled(w, a)
    ensures AfterExit(timeout, start, base, Apply(timeout, w, a))
  {
    if a.Act? {
      ActAfterExit(timeout, start, base, w, a.i, a.choice);
    } else {
      StepKeepsInv(timeout, w, a);
      hide Inv;
    }
  }

  lemma {:induction false} RunAfterExit(
      timeout: Option<nat>, start: World, base: seq<Mark>, w: World, acts: seq<Action>)
    requires AfterExit(timeout, start, base, w) && Legal(timeout, w, acts)
    ensures AfterExit(timeout, start, base, Exec(timeout, w, acts))
    decreases |acts|
  {
    hide AfterExit, Apply, Enabled;
    if acts != [] {
      StepAfterExit(timeout, start, base, w, acts[0]);
      RunAfterExit(timeout, start, base, Apply(timeout, w, acts[0]), acts[1..]);
    }
  }

  /** A run that ends with the waiter sending its EXIT frame. */
  predicate ExitSent(timeout: Option<nat>, now: nat, before: seq<Action>) {
    && Legal(timeout, Init(now), before)
    && var w := Exec(timeout, Init(now), before);
       |w.tasks| >= 5 && w.tasks[1].pc.SendExit?
  }

  lemma ExitStarts(timeout: Option<nat>, now: nat, before: seq<Action>)
    requires ExitSent(timeout, now, before)
    ensures var w := Exec(timeout, Init(now), before);
            && Inv(timeout, w) && Enabled(w, Act(1, Go))
            && PumpsStarted(w)
            && var sent := Apply(timeout, w, Act(1, Go));
               sent.sh.frames == w.sh.frames + [ExitMark] && AfterExit(timeout, w, sent.sh.frames, sent)
  {
    InitInv(timeout, now);
    RunKeepsInv(timeout, Init(now), before);
    hide Legal, Exec, Init, Inv, AfterExit;
    WaiterStarted(timeout, Exec(timeout, Init(now), before));
    ExitSends(timeout, Exec(timeout, Init(now), before));
  }

  /** When the waiter is about to send EXIT the launcher is done and both pumps have been started. */
  lemma WaiterStarted(timeout: Option<nat>, w: World)
    requires Inv(timeout, w) && w.tasks[1].pc.SendExit?
    ensures w.tasks[0].pc == Done(true)
    ensures PumpsStarted(w)
  {
    assert TaskInv(timeout, w.sh, 0, w.tasks[0]);
    assert TaskInv(timeout, w.sh, 3, w.tasks[3]) && TaskInv(timeout, w.sh, 4, w.tasks[4]);
    assert SpawnIndex(0) == 3 && SpawnIndex(1) == 4 && SpawnIndex(3) == 1;
    hide Knows, MoveInv, SharedInv;
  }

  lemma ExitSends(timeout: Option<nat>, w: World)
    requires Inv(timeout, w) && w.tasks[1].pc.SendExit? && w.tasks[0].pc == Done(true)
    ensures Enabled(w, Act(1, Go))
    ensures var sent := Apply(timeout, w, Act(1, Go));
            sent.sh.frames == w.sh.frames + [ExitMark] && AfterExit(timeout, w, sent.sh.frames, sent)
  {
    ActKeepsInv(timeout, w, 1, Go);
    hide TaskInv, SpawnInv, SharedInv;
  }

  /** What follows EXIT on the channel, in every continuation, are frames of outputs whose pump had not
      finished when it was sent. */
  lemma OnlyStragglersFollowExit(timeout: Option<nat>, now: nat, before: seq<Action>, after: seq<Action>)
    requires ExitSent(timeout, now, before)
    requires var w := Exec(timeout, Init(now), before);
             Enabled(w, Act(1, Go)) && Legal(timeout, Apply(timeout, w, Act(1, Go)), after)
    ensures var w := Exec(timeout, Init(now), before);
            var frames := Exec(timeout, Apply(timeout, w, Act(1, Go)), after).sh.frames;
            && w.sh.frames + [ExitMark] <= frames
            && forall k :: |w.sh.frames| < k < |frames| ==> Straggler(w, frames[k])
  {
    ExitStarts(timeout, now, before);
    var w := Exec(timeout, Init(now), before);
    var sent := Apply(timeout, w, Act(1, Go));
    RunAfterExit(timeout, w, sent.sh.frames, sent, after);
  }

  /** EXIT is the job's last frame in every continuation iff both pumps had finished when it was sent;
      the waiter does not wait for that. */
  lemma ExitIsLast(timeout: Option<nat>, now: nat, before: seq<Action>)
    requires ExitSent(timeout, now, before)
    ensures var w := Exec(timeout, Init(now), before);
            && Enabled(w, Act(1, Go))
            && var sent := Apply(timeout, w, Act(1, Go));
               (w.tasks[3].pc.Done? && w.tasks[4].pc.Done?
                <==> forall after :: Legal(timeout, sent, after) ==>
                       Exec(timeout, sent, after).sh.frames == w.sh.frames + [ExitMark])
  {
    ExitStarts(timeout, now, before);
    var w := Exec(timeout, Init(now), before);
    var sent := Apply(timeout, w, Act(1, Go));
    hide Inv, AfterExit, Init, Apply, Enabled;
    if w.tasks[3].pc.Done? && w.tasks[4].pc.Done? {
      forall after | Legal(timeout, sent, after)
        ensures Exec(timeout, sent, after).sh.frames == w.sh.frames + [ExitMark]
      {
        NothingAfterExit(timeout, now, before, after);
      }
    } else {
      StragglerSends(timeout, now, before, if w.tasks[3].pc.Done? then Stderr else Stdout);
      hide Exec, Legal, Apply, Inv, Enabled;
    }
  }

  lemma NothingAfterExit(timeout: Option<nat>, now: nat, before: seq<Action>, after: seq<Action>)
    requires ExitSent(timeout, now, before)
    requires var w := Exec(timeout, Init(now), before);
             && w.tasks[3].pc.Done? && w.tasks[4].pc.Done?
             && Enabled(w, Act(1, Go)) && Legal(timeout, Apply(timeout, w, Act(1, Go)), after)
    ensures var w := Exec(timeout, Init(now), before);
            Exec(timeout, Apply(timeout, w, Act(1, Go)), after).sh.frames == w.sh.frames + [ExitMark]
  {
    OnlyStragglersFollowExit(timeout, now, before, after);
    hide Exec, Legal, Apply, Enabled;
    var w := Exec(timeout, Init(now), before);
    var frames := Exec(timeout, Apply(timeout, w, Act(1, Go)), after).sh.frames;
    assert |frames| > |w.sh.frames| + 1 ==> Straggler(w, frames[|w.sh.frames| + 1]);
  }

  /** A pump still streaming can send its next frame right after EXIT. */
  lemma StragglerSends(timeout: Option<nat>, now: nat, before: seq<Action>, stream: StreamId)
    requires ExitSent(timeout, now, before) && (stream == Stdout || stream == Stderr)
    requires !Exec(timeout, Init(now), before).tasks[PumpTask(stream)].pc.Done?
    ensures var w := Exec(timeout, Init(now), before);
            && Enabled(w, Act(1, Go))
            && var sent := Apply(timeout, w, Act(1, Go));
               && Legal(timeout, sent, [Act(PumpTask(stream), More)])
               && Exec(timeout, sent, [Act(PumpTask(stream), More)]).sh.frames
                  == w.sh.frames + [ExitMark] + [OutputMark(stream)]
  {
    ExitStarts(timeout, now, before);
    var w := Exec(timeout, Init(now), before);
    var sent := Apply(timeout, w, Act(1, Go));
    assert Legal(timeout, sent, []) && Exec(timeout, sent, []) == sent;
    hide Legal, Exec, Init, Inv, AfterExit, TxStep, AfterMove;
    assert sent.tasks[PumpTask(stream)] == w.tasks[PumpTask(stream)];
    var one := Then(timeout, sent, [], Act(PumpTask(stream), More));
    assert one == [Act(PumpTask(stream), More)];
  }

  /** One more step at the end of a run. */
  lemma Then(timeout: Option<nat>, w: World, acts: seq<Action>, a: Action) returns (longer: seq<Action>)
    requires Legal(timeout, w, acts)
    requires var end := Exec(timeout, w, acts); |end.tasks| >= 5 && Enabled(end, a)
    ensures longer == acts + [a]
    ensures Legal(timeout, w, longer) && Exec(timeout, w, longer) == Apply(timeout, Exec(timeout, w, acts), a)
  {
    longer := acts + [a];
    ExtendRun(timeout, w, acts, a);
  }

  lemma {:induction false} ExtendRun(timeout: Option<nat>, w: World, acts: seq<Action>, a: Action)
    requires Legal(timeout, w, acts)
    requires var end := Exec(timeout, w, acts); |end.tasks| >= 5 && Enabled(end, a)
    ensures Legal(timeout, w, acts + [a])
    ensures Exec(timeout, w, acts + [a]) == Apply(timeout, Exec(timeout, w, acts), a)
    decreases |acts|
  {
    hide Apply, Enabled;
    if acts == [] {
      assert ([] + [a])[0] == a && ([] + [a])[1..] == [];
      assert Legal(timeout, Apply(timeout, w, a), []);
    } else {
      assert (acts + [a])[0] == acts[0] && (acts + [a])[1..] == acts[1..] + [a];
      ExtendRun(timeout, Apply(timeout, w, acts[0]), acts[1..], a);
    }
  }

  /** A whole `transition_state` to a live state, without interference. */
  lemma MoveRun(timeout: Option<nat>, w0: World, acts: seq<Action>, i: nat, target: JobState)
    returns (longer: seq<Action>)
    requires Legal(timeout, w0, acts) && !IsTerminal(target)
    requires var w := Exec(timeout, w0, acts);
             && |w.tasks| >= 5 && i < |w.tasks| && w.tasks[i].pc == Moving(target, Lookup)
             && w.sh.registered && w.sh.holder.None? && CanTransition(w.sh.state, target)
    ensures Legal(timeout, w0, longer)
    ensures var w := Exec(timeout, w0, acts);
            Exec(timeout, w0, longer)
            == World(w.sh.(state := target, lastActivity := w.sh.clock, history := w.sh.history + [target]),
                     w.tasks[i := w.tasks[i].(pc := AfterMove(w.tasks[i].role, target, true))])
  {
    hide Legal, Exec, AfterMove, CanTransition;
    longer := Then(timeout, w0, acts, Act(i, Go));
    longer := Then(timeout, w0, longer, Act(i, Go));
    longer := Then(timeout, w0, longer, Act(i, Go));
    longer := Then(timeout, w0, longer, Act(i, Go));
    longer := Then(timeout, w0, longer, Act(i, Go));
  }

  /** A job whose launcher is done up to starting its tasks. */
  function Launched(now: nat): Shared {
    Shared(Running, None, now, None, true, false, now, now, [AckMark], 0, [Created, Starting, Running])
  }

  lemma LaunchRun(timeout: Option<nat>, now: nat) returns (acts: seq<Action>)
    ensures Legal(timeout, Init(now), acts)
    ensures var w := Exec(timeout, Init(now), acts);
            w.sh == Launched(now) && w.tasks == Init(now).tasks[0 := Task(Launcher, Touch)]
  {
    acts := StartingRun(timeout, now);
    hide Legal, Exec, TxStep;
    acts := Then(timeout, Init(now), acts, Act(0, Go));
    acts := MoveRun(timeout, Init(now), acts, 0, Running);
  }

  lemma StartingRun(timeout: Option<nat>, now: nat) returns (acts: seq<Action>)
    ensures Legal(timeout, Init(now), acts)
    ensures var w := Exec(timeout, Init(now), acts);
            && w.sh == Launched(now).(state := Starting, history := [Created, Starting])
            && w.tasks == Init(now).tasks[0 := Task(Launcher, Pc.Launch)]
  {
    var w0 := Init(now);
    acts := [];
    assert Legal(timeout, w0, acts) && Exec(timeout, w0, acts) == w0;
    hide Legal, Exec, TxStep;
    acts := Then(timeout, w0, acts, Act(0, Go));
    acts := MoveRun(timeout, w0, acts, 0, Starting);
  }

  lemma SpawnRun(timeout: Option<nat>, now: nat) returns (acts: seq<Action>)
    ensures Legal(timeout, Init(now), acts)
    ensures Exec(timeout, Init(now), acts)
            == World(Launched(now),
                     [Task(Launcher, Done(true)), Task(Waiter, Waiting), Task(Monitor, MonitorStart),
                      Task(Pump(Stdout), Streaming), Task(Pump(Stderr), Streaming)])
  {
    var w0 := Init(now);
    acts := LaunchRun(timeout, now);
    hide Legal, Exec, AfterMove, TxStep;
    acts := Then(timeout, w0, acts, Act(0, Go));
    acts := Then(timeout, w0, acts, Act(0, Go));
    acts := Then(timeout, w0, acts, Act(0, Go));
    acts := Then(timeout, w0, acts, Act(0, Go));
    acts := Then(timeout, w0, acts, Act(0, Go));
  }

  lemma ExitRun(timeout: Option<nat>, now: nat) returns (acts: seq<Action>)
    ensures Legal(timeout, Init(now), acts)
    ensures var w := Exec(timeout, Init(now), acts);
            && |w.tasks| == 5 && w.tasks[1] == Task(Waiter, SendExit) && w.tasks[3] == Task(Pump(Stdout), Streaming)
            && w.sh.frames == [AckMark]
  {
    var w0 := Init(now);
    acts := SpawnRun(timeout, now);
    hide Legal, Exec, Init, TxStep;
    acts := Then(timeout, w0, acts, Act(1, Go));
    acts := MoveRun(timeout, w0, acts, 1, Exiting);
    acts := Then(timeout, w0, acts, Act(1, Go));
  }

  /** Such runs exist: a process that exits with output still in its pipe. */
  lemma OutputAfterExit(timeout: Option<nat>, now: nat)
    ensures exists acts :: Legal(timeout, Init(now), acts)
              && Exec(timeout, Init(now), acts).sh.frames == [AckMark, ExitMark, OutputMark(Stdout)]
  {
    var w0 := Init(now);
    var acts := ExitRun(timeout, now);
    hide Legal, Exec, Init, TxStep, AfterMove;
    acts := Then(timeout, w0, acts, Act(1, Go));
    acts := Then(timeout, w0, acts, Act(3, More));
  }
}
