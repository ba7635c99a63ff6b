/** One job from its creation on, driven at once by the request that launches it, the exit waiter, the
    timeout monitor, its two output pumps and any number of cancellations and removals
    (src/pipe_server.rs, src/cancellation.rs, src/job_manager.rs). A step is one atomic access, one lock
    acquisition with the reads it protects, or one send. */
module JobLifecycle {
  import opened Errors
  import opened JobStates
  import opened Protocol

  datatype Mark = AckMark | OutputMark(stream: StreamId) | EosMark(stream: StreamId) | ExitMark | ErrorMark

  /** What the tasks share: the handle's fields and the holder of its state mutex, whether the registry
      still maps the id to the handle, the clock, and the job's frames on the channel so far. `history`
      lists the states entered, `exitOffers` counts the EXIT frames offered. */
  datatype Shared = Shared(
    state: JobState, completedAt: Option<nat>, lastActivity: nat, holder: Option<nat>,
    registered: bool, cancelled: bool, clock: nat, monitorStart: nat,
    frames: seq<Mark>, exitOffers: nat, history: seq<JobState>)

  datatype Role = Launcher | Waiter | Monitor | Pump(stream: StreamId) | Canceler | Remover

  /** Inside `transition_state`; the clock reading is taken once, after the check. */
  datatype Tx = Lookup | Lock | Check | Stamp(now: nat) | Complete(now: nat) | Store

  datatype Pc =
    | NotSpawned
    | Moving(target: JobState, tx: Tx)
    | SendAck | Launch | Touch | Spawning(n: nat) | SendError | Find | CancelToken | Deregister
    | Waiting | SendExit
    | MonitorStart | PollLock | PollRead | PollToken | PollClock | Sleeping | Terminate
    | Streaming
    | LockState | ReadState | Signal
    | Aborted
    | Done(ok: bool)

  datatype Task = Task(role: Role, pc: Pc)

  datatype World = World(sh: Shared, tasks: seq<Task>)

  /** How an outside event turns out: a send or launch that fails, a pump that has more to send. */
  datatype Choice = Go | Fail | More

  datatype Action = Act(i: nat, choice: Choice) | Tick(d: nat) | Join(role: Role)

  function Init(now: nat): World {
    World(Shared(Created, None, now, None, true, false, now, now, [], 0, [Created]),
          [Task(Launcher, SendAck), Task(Waiter, NotSpawned), Task(Monitor, NotSpawned),
           Task(Pump(Stdout), NotSpawned), Task(Pump(Stderr), NotSpawned)])
  }

  // --- Steps ---------------------------------------------------------------------------------

  function Emit(sh: Shared, m: Mark): Shared {
    sh.(frames := sh.frames + [m])
  }

  datatype TxNext = Proceed(tx: Tx) | Over(ok: bool)

  function TxStep(sh: Shared, i: nat, target: JobState, tx: Tx): (Shared, TxNext) {
    match tx
    case Lookup => (sh, if sh.registered then Proceed(Lock) else Over(false))
    case Lock => (sh.(holder := Some(i)), Proceed(Check))
    case Check =>
      if CanTransition(sh.state, target) then (sh, Proceed(Stamp(sh.clock)))
      else (sh.(holder := None), Over(false))
    case Stamp(now) => (sh.(lastActivity := now), Proceed(if IsTerminal(target) then Complete(now) else Store))
    case Complete(now) => (sh.(completedAt := Some(now)), Proceed(Store))
    case Store => (sh.(state := target, holder := None, history := sh.history + [target]), Over(true))
  }

  /** Where a task goes on after a `transition_state` call, whose result only the launcher looks at. */
  function AfterMove(role: Role, target: JobState, ok: bool): Pc {
    match role
    case Launcher =>
      if target == Failed then SendError
      else if !ok then Done(false)
      else if target == Starting then Launch
      else Touch
    case Waiter => if target == Exiting then Touch else Done(true)
    case Monitor => Terminate
    case _ => Done(true)
  }

  predicate TaskEnabled(sh: Shared, pc: Pc) {
    match pc
    case NotSpawned => false
    case Done(_) => false
    case Aborted => false
    case Moving(_, tx) => tx.Lock? ==> sh.holder.None?
    case PollLock => sh.holder.None?
    case LockState => sh.holder.None?
    case _ => true
  }

  function TaskStep(timeout: Option<nat>, sh: Shared, i: nat, t: Task, c: Choice): (Shared, Pc) {
    match t.pc
    case Moving(target, tx) =>
      var (sh', next) := TxStep(sh, i, target, tx);
      (sh', if next.Proceed? then Moving(target, next.tx) else AfterMove(t.role, target, next.ok))
    // the launching request
    case SendAck => if c.Fail? then (sh, Aborted) else (Emit(sh, AckMark), Moving(Starting, Lookup))
    case Launch => (sh, Moving(if c.Fail? then Failed else Running, Lookup))
    case Touch =>
      (if sh.registered then sh.(lastActivity := sh.clock) else sh, if t.role.Waiter? then SendExit else Spawning(0))
    case Spawning(n) => (sh, if n >= 3 then Done(true) else Spawning(n + 1))
    case SendError => (if c.Fail? then sh else Emit(sh, ErrorMark), Find)
    // cleanup_job and the lookup of cancel_job
    case Find =>
      (sh, if !sh.registered then Done(false) else if t.role.Canceler? then LockState else CancelToken)
    case CancelToken => (sh.(cancelled := true), Deregister)
    case Deregister => (sh.(registered := false), Done(t.role.Remover?))
    // the exit waiter
    case Waiting => (sh, Moving(Exiting, Lookup))
    case SendExit =>
      var offered := sh.(exitOffers := sh.exitOffers + 1);
      (if c.Fail? then offered else Emit(offered, ExitMark), Moving(Completed, Lookup))
    // the timeout monitor
    case MonitorStart =>
      if timeout.None? then (sh, Done(true)) else (sh.(monitorStart := sh.clock), PollLock)
    case PollLock => (sh.(holder := Some(i)), PollRead)
    case PollRead => (sh.(holder := None), if IsTerminal(sh.state) then Done(true) else PollToken)
    case PollToken => (sh, if sh.cancelled then Done(true) else PollClock)
    case PollClock =>
      (sh, if timeout.Some? && sh.clock >= sh.monitorStart + timeout.value then Moving(TimedOut, Lookup) else Sleeping)
    case Sleeping => (sh, if c.Fail? && sh.cancelled then Done(true) else PollLock)
    case Terminate => (sh.(cancelled := true), Done(true))
    // an output pump
    case Streaming =>
      if !t.role.Pump? || c.Fail? then (sh, Done(false))
      else if c.More? then (Emit(sh, OutputMark(t.role.stream)), Streaming)
      else (Emit(sh, EosMark(t.role.stream)), Done(true))
    // cancel_job
    case LockState => (sh.(holder := Some(i)), ReadState)
    case ReadState => (sh.(holder := None), if IsTerminal(sh.state) then Done(true) else Signal)
    case Signal => (sh.(cancelled := true), Moving(Canceled, Lookup))
    case NotSpawned => (sh, NotSpawned)
    case Aborted => (sh, Aborted)
    case Done(ok) => (sh, Done(ok))
  }

  /** The launcher starts the pumps, the monitor and the waiter, in this order. */
  function SpawnIndex(n: nat): nat {
    if n == 0 then 3 else if n == 1 then 4 else if n == 2 then 2 else 1
  }

  function SpawnPc(role: Role): Pc {
    if role.Waiter? then Waiting else if role.Monitor? then MonitorStart else Streaming
  }

  predicate Enabled(w: World, a: Action) {
    match a
    case Act(i, _) => i < |w.tasks| && TaskEnabled(w.sh, w.tasks[i].pc)
    case Tick(_) => true
    case Join(role) => role.Canceler? || role.Remover?
  }

  function Apply(timeout: Option<nat>, w: World, a: Action): World
    requires Enabled(w, a) && |w.tasks| >= 5
  {
    match a
    case Tick(d) => w.(sh := w.sh.(clock := w.sh.clock + d))
    case Join(role) => w.(tasks := w.tasks + [Task(role, Find)])
    case Act(i, c) =>
      var t := w.tasks[i];
      var (sh, pc) := TaskStep(timeout, w.sh, i, t, c);
      var moved := World(sh, w.tasks[i := t.(pc := pc)]);
      if t.pc.Spawning? && i == 0 then
        var k := SpawnIndex(t.pc.n);
        moved.(tasks := moved.tasks[k := moved.tasks[k].(pc := SpawnPc(moved.tasks[k].role))])
      else moved
  }

  // --- What each task knows, and what it may rely on -----------------------------------------

  /** The pcs at which a task holds the state mutex. */
  predicate Holds(pc: Pc) {
    || (pc.Moving? && !pc.tx.Lookup? && !pc.tx.Lock?)
    || pc.PollRead?
    || pc.ReadState?
  }

  predicate RoleAllows(t: Task) {
    match t.role
    case Launcher =>
      || (t.pc.Moving? && (t.pc.target == Starting || t.pc.target == Running || t.pc.target == Failed))
      || t.pc.SendAck? || t.pc.Launch? || t.pc.Touch? || (t.pc.Spawning? && t.pc.n <= 3)
      || t.pc.SendError? || t.pc.Find? || t.pc.CancelToken? || t.pc.Deregister? || t.pc.Aborted? || t.pc.Done?
    case Waiter =>
      || (t.pc.Moving? && (t.pc.target == Exiting || t.pc.target == Completed))
      || t.pc.NotSpawned? || t.pc.Waiting? || t.pc.Touch? || t.pc.SendExit? || t.pc.Done?
    case Monitor =>
      || (t.pc.Moving? && t.pc.target == TimedOut)
      || t.pc.NotSpawned? || t.pc.MonitorStart? || t.pc.PollLock? || t.pc.PollRead? || t.pc.PollToken?
      || t.pc.PollClock? || t.pc.Sleeping? || t.pc.Terminate? || t.pc.Done?
    case Pump(_) => t.pc.NotSpawned? || t.pc.Streaming? || t.pc.Done?
    case Canceler =>
      || (t.pc.Moving? && t.pc.target == Canceled)
      || t.pc.Find? || t.pc.LockState? || t.pc.ReadState? || t.pc.Signal? || t.pc.Done?
    case Remover => t.pc.Find? || t.pc.CancelToken? || t.pc.Deregister? || t.pc.Done?
  }

  predicate Settled(sh: Shared) {
    sh.registered ==> IsTerminal(sh.state)
  }

  predicate PastRunning(sh: Shared) {
    sh.registered ==> Rank(sh.state) >= 3
  }

  /** Until the waiter exists, only a cancellation can take the job from where the launcher left it. */
  predicate AtOrOver(sh: Shared, s: JobState) {
    sh.state == s || IsTerminal(sh.state)
  }

  predicate Consistent(sh: Shared) {
    IsTerminal(sh.state) <==> sh.completedAt.Some?
  }

  predicate Late(timeout: Option<nat>, sh: Shared, time: nat) {
    timeout.Some? && time >= sh.monitorStart + timeout.value
  }

  /** What holds while a task is inside a critical section. */
  predicate MoveInv(timeout: Option<nat>, sh: Shared, target: JobState, tx: Tx) {
    match tx
    case Check => Consistent(sh)
    case Stamp(now) =>
      CanTransition(sh.state, target) && Consistent(sh) && (target == TimedOut ==> Late(timeout, sh, now))
    case Complete(now) =>
      && CanTransition(sh.state, target) && Consistent(sh) && IsTerminal(target)
      && (target == TimedOut ==> Late(timeout, sh, now))
    case Store =>
      && CanTransition(sh.state, target)
      && (sh.completedAt.Some? <==> IsTerminal(target))
      && (target == TimedOut ==> Late(timeout, sh, sh.completedAt.value))
    case _ => true
  }

  predicate LauncherKnows(sh: Shared, pc: Pc) {
    && (pc.SendAck? || pc.Aborted? || (pc.Moving? && pc.target == Starting) ==> AtOrOver(sh, Created))
    && (pc.Launch? || (pc.Moving? && pc.target != Starting) ==> AtOrOver(sh, Starting))
    && (pc.Touch? || pc.Spawning? ==> Rank(sh.state) >= 2)
    && (pc.SendError? || pc.Find? || pc.CancelToken? || pc.Deregister? || pc == Done(false) ==> Settled(sh))
  }

  /** What a task knows about the job at its own pc. */
  predicate Knows(timeout: Option<nat>, sh: Shared, t: Task) {
    && (t.pc.PollRead? || t.pc.ReadState? ==> Consistent(sh))
    && match t.role
       case Launcher => LauncherKnows(sh, t.pc)
       case Waiter =>
         && (t.pc.Waiting? || (t.pc.Moving? && t.pc.target == Exiting) ==> Rank(sh.state) >= 2)
         && (t.pc.Touch? || t.pc.SendExit? || (t.pc.Moving? && t.pc.target == Completed) ==> PastRunning(sh))
         && (t.pc.Done? ==> Settled(sh))
       case Monitor =>
         && (t.pc.Moving? ==> Late(timeout, sh, sh.clock))
         && (t.pc.NotSpawned? || t.pc.MonitorStart? ==> sh.state != TimedOut)
       case Canceler => t.pc.Done? && t.pc.ok ==> Settled(sh)
       case _ => true
  }

  predicate TaskInv(timeout: Option<nat>, sh: Shared, i: nat, t: Task) {
    && RoleAllows(t)
    && (Holds(t.pc) <==> sh.holder == Some(i))
    && (t.pc.Moving? ==> MoveInv(timeout, sh, t.pc.target, t.pc.tx))
    && Knows(timeout, sh, t)
  }

  /** What a task may assume of the others' steps. */
  predicate Rely(j: nat, sh: Shared, sh': Shared) {
    && (sh.holder == Some(j) <==> sh'.holder == Some(j))
    && (sh.holder == Some(j) ==> sh'.state == sh.state && sh'.completedAt == sh.completedAt)
    && (sh'.state == sh.state || CanTransition(sh.state, sh'.state))
    && (j == 0 ==> sh'.state == sh.state || IsTerminal(sh'.state) || Rank(sh.state) >= 2)
    && (sh.completedAt.Some? ==> sh'.completedAt == sh.completedAt)
    && (sh'.registered ==> sh.registered)
    && sh.clock <= sh'.clock
    && (j == 2 ==> sh'.monitorStart == sh.monitorStart && (sh'.state == TimedOut ==> sh.state == TimedOut))
  }

  lemma Stable(timeout: Option<nat>, sh: Shared, sh': Shared, j: nat, t: Task)
    requires TaskInv(timeout, sh, j, t) && Rely(j, sh, sh')
    requires (t.role.Monitor? ==> j == 2) && (t.role.Launcher? ==> j == 0)
    ensures TaskInv(timeout, sh', j, t)
  {
    TransitionsClimb(sh.state, sh'.state);
  }

  /** A job's overall bookkeeping. */
  predicate SharedInv(timeout: Option<nat>, sh: Shared) {
    && (sh.holder.None? ==> Consistent(sh))
    && sh.history != [] && sh.history[0] == Created && sh.history[|sh.history| - 1] == sh.state
    && Path(sh.history)
    && (sh.state == TimedOut ==> sh.completedAt.Some? && Late(timeout, sh, sh.completedAt.value))
  }

  predicate RolesFixed(w: World) {
    && |w.tasks| >= 5
    && w.tasks[0].role == Launcher && w.tasks[1].role == Waiter && w.tasks[2].role == Monitor
    && w.tasks[3].role == Pump(Stdout) && w.tasks[4].role == Pump(Stderr)
    && forall i :: 5 <= i < |w.tasks| ==> w.tasks[i].role.Canceler? || w.tasks[i].role.Remover?
  }

  /** How many of its four tasks the launcher has started. */
  function Spawned(launcher: Pc): (n: nat)
    ensures n <= 4
  {
    if launcher.Spawning? && launcher.n <= 3 then launcher.n else if launcher == Done(true) then 4 else 0
  }

  predicate SpawnInv(w: World)
    requires |w.tasks| >= 5
  {
    forall n :: 0 <= n < 4 ==> (w.tasks[SpawnIndex(n)].pc.NotSpawned? <==> n >= Spawned(w.tasks[0].pc))
  }

  predicate Inv(timeout: Option<nat>, w: World) {
    && RolesFixed(w)
    && SpawnInv(w)
    && SharedInv(timeout, w.sh)
    && (w.sh.holder.Some? ==> w.sh.holder.value < |w.tasks|)
    && forall i :: 0 <= i < |w.tasks| ==> TaskInv(timeout, w.sh, i, w.tasks[i])
  }

  // --- Every step keeps the invariant --------------------------------------------------------

  lemma MoveGuarantees(timeout: Option<nat>, sh: Shared, i: nat, target: JobState, tx: Tx, j: nat)
    requires MoveInv(timeout, sh, target, tx) && (sh.holder == Some(i) || tx.Lookup? || (tx.Lock? && sh.holder.None?))
    requires i != j && (target == TimedOut ==> j != 2) && (target == Starting || target == Running ==> j != 0)
    ensures Rely(j, sh, TxStep(sh, i, target, tx).0)
  {
    hide Late;
    TransitionsClimb(sh.state, target);
    FromRunningOn(sh.state, target);
    hide CanTransition, Rank;
  }

  lemma FromRunningOn(from: JobState, to: JobState)
    ensures CanTransition(from, to) && to != Starting && to != Running && !IsTerminal(to) ==> Rank(from) == 2
  {
  }

  lemma StepGuarantees(timeout: Option<nat>, sh: Shared, i: nat, t: Task, c: Choice, j: nat)
    requires TaskInv(timeout, sh, i, t) && TaskEnabled(sh, t.pc)
    requires i != j && (t.role.Monitor? ==> j != 2) && (t.role.Launcher? ==> j != 0)
    ensures Rely(j, sh, TaskStep(timeout, sh, i, t, c).0)
  {
    if t.pc.Moving? {
      hide MoveInv, Knows, CanTransition, TxStep, AfterMove;
      MoveGuarantees(timeout, sh, i, t.pc.target, t.pc.tx, j);
    } else {
      hide MoveInv, Knows, CanTransition, TxStep, AfterMove, RoleAllows;
      assert t.pc.MonitorStart? ==> t.role.Monitor? by {
        RolePcs(t);
      }
    }
  }

  lemma RolePcs(t: Task)
    requires RoleAllows(t)
    ensures t.pc.MonitorStart? ==> t.role.Monitor?
    ensures t.pc.Moving? && t.pc.target == TimedOut ==> t.role.Monitor?
    ensures t.pc.Moving? && (t.pc.target == Starting || t.pc.target == Running) ==> t.role.Launcher?
  {
  }

  lemma MoveKeepsShared(timeout: Option<nat>, sh: Shared, i: nat, target: JobState, tx: Tx)
    requires MoveInv(timeout, sh, target, tx) && SharedInv(timeout, sh)
    requires sh.holder == Some(i) || tx.Lookup? || (tx.Lock? && sh.holder.None?)
    ensures SharedInv(timeout, TxStep(sh, i, target, tx).0)
  {
    TransitionsClimb(sh.state, target);
    hide CanTransition;
    if tx.Complete? {
      hide Path;
    }
  }

  lemma StepKeepsShared(timeout: Option<nat>, sh: Shared, i: nat, t: Task, c: Choice)
    requires TaskInv(timeout, sh, i, t) && SharedInv(timeout, sh) && TaskEnabled(sh, t.pc)
    ensures SharedInv(timeout, TaskStep(timeout, sh, i, t, c).0)
  {
    hide MoveInv, CanTransition, TxStep, AfterMove, RoleAllows, Path;
    if t.pc.Moving? {
      MoveKeepsShared(timeout, sh, i, t.pc.target, t.pc.tx);
    } else {
      RolePcs(t);
    }
  }

  lemma StepKeepsRole(timeout: Option<nat>, sh: Shared, i: nat, t: Task, c: Choice)
    requires RoleAllows(t) && TaskEnabled(sh, t.pc)
    ensures RoleAllows(t.(pc := TaskStep(timeout, sh, i, t, c).1))
  {
    hide CanTransition, IsTerminal;
  }

  lemma StepKeepsLock(timeout: Option<nat>, sh: Shared, i: nat, t: Task, c: Choice)
    requires TaskEnabled(sh, t.pc) && (Holds(t.pc) <==> sh.holder == Some(i))
    ensures var (sh', pc) := TaskStep(timeout, sh, i, t, c); Holds(pc) <==> sh'.holder == Some(i)
  {
    hide CanTransition, IsTerminal;
    if t.pc.Moving? {
      AfterMoveStarts(t.role, t.pc.target);
      hide AfterMove;
    } else {
      hide TxStep, AfterMove;
    }
  }

  lemma StepKeepsMove(timeout: Option<nat>, sh: Shared, i: nat, t: Task, c: Choice)
    requires TaskInv(timeout, sh, i, t) && SharedInv(timeout, sh) && TaskEnabled(sh, t.pc)
    ensures var (sh', pc) := TaskStep(timeout, sh, i, t, c); pc.Moving? ==> MoveInv(timeout, sh', pc.target, pc.tx)
  {
    hide Path;
    if t.pc.Moving? {
      assert t.pc.target == TimedOut ==> Late(timeout, sh, sh.clock) by {
        RolePcs(t);
      }
      hide RoleAllows, AfterMove, Knows;
      TransitionsClimb(sh.state, t.pc.target);
      TxKeepsMove(timeout, sh, i, t.pc.target, t.pc.tx);
      AfterMoveStarts(t.role, t.pc.target);
    } else {
      hide RoleAllows, Knows, CanTransition, IsTerminal, Consistent;
    }
  }

  lemma AfterMoveStarts(role: Role, target: JobState)
    ensures forall ok :: !Holds(AfterMove(role, target, ok)) && !AfterMove(role, target, ok).Moving?
  {
  }

  lemma TxKeepsMove(timeout: Option<nat>, sh: Shared, i: nat, target: JobState, tx: Tx)
    requires MoveInv(timeout, sh, target, tx) && SharedInv(timeout, sh)
    requires target == TimedOut ==> Late(timeout, sh, sh.clock)
    requires if tx.Lock? then sh.holder.None? else tx.Lookup? || sh.holder == Some(i)
    ensures var (sh', next) := TxStep(sh, i, target, tx); next.Proceed? ==> MoveInv(timeout, sh', target, next.tx)
  {
    TransitionsClimb(sh.state, target);
    hide CanTransition, Path;
  }

  lemma StepKeepsKnows(timeout: Option<nat>, sh: Shared, i: nat, t: Task, c: Choice)
    requires TaskInv(timeout, sh, i, t) && SharedInv(timeout, sh) && TaskEnabled(sh, t.pc)
    ensures var (sh', pc) := TaskStep(timeout, sh, i, t, c); Knows(timeout, sh', t.(pc := pc))
  {
    hide Path;
    if t.pc.Moving? {
      MoveKeepsKnows(timeout, sh, i, t, c);
    } else {
      PlainStepKeepsKnows(timeout, sh, i, t, c);
    }
  }

  lemma PlainPcs(t: Task)
    requires RoleAllows(t) && !t.pc.Moving?
    ensures t.role.Waiter? ==> t.pc.NotSpawned? || t.pc.Waiting? || t.pc.Touch? || t.pc.SendExit? || t.pc.Done?
    ensures t.role.Monitor? ==> !t.pc.Waiting? && !t.pc.SendAck? && !t.pc.Launch? && !t.pc.SendExit? && !t.pc.Signal?
    ensures t.role.Launcher? ==>
              || t.pc.SendAck? || t.pc.Launch? || t.pc.Touch? || t.pc.Spawning? || t.pc.SendError?
              || t.pc.Find? || t.pc.CancelToken? || t.pc.Deregister? || t.pc.Aborted? || t.pc.Done?
    ensures t.role.Canceler? ==> t.pc.Find? || t.pc.LockState? || t.pc.ReadState? || t.pc.Signal? || t.pc.Done?
  {
  }

  /** Outside `transition_state` no task touches the state or its completion time. */
  lemma PlainStepFrame(timeout: Option<nat>, sh: Shared, i: nat, t: Task, c: Choice)
    requires !t.pc.Moving?
    ensures var sh' := TaskStep(timeout, sh, i, t, c).0;
            && sh'.state == sh.state && sh'.clock == sh.clock
            && (Consistent(sh') <==> Consistent(sh))
            && (PastRunning(sh) ==> PastRunning(sh'))
            && (!t.pc.MonitorStart? ==> sh'.monitorStart == sh.monitorStart)
  {
    hide CanTransition, TxStep, AfterMove, IsTerminal, Rank;
  }

  lemma PlainStepKeepsKnows(timeout: Option<nat>, sh: Shared, i: nat, t: Task, c: Choice)
    requires TaskInv(timeout, sh, i, t) && SharedInv(timeout, sh) && TaskEnabled(sh, t.pc) && !t.pc.Moving?
    ensures var (sh', pc) := TaskStep(timeout, sh, i, t, c); Knows(timeout, sh', t.(pc := pc))
  {
    hide CanTransition, MoveInv, TxStep, AfterMove, IsTerminal, Rank, Path, PastRunning, Consistent, RoleAllows, Holds,
         LauncherKnows;
    RankOfTerminal(sh.state);
    PlainStepFrame(timeout, sh, i, t, c);
    PlainPcs(t);
    var pc := TaskStep(timeout, sh, i, t, c).1;
    assert pc.PollRead? <==> t.pc.PollLock?;
    assert pc.ReadState? <==> t.pc.LockState?;
    match t.role
    case Launcher => PlainLauncherStep(timeout, sh, i, t, c);
    case _ =>
  }

  lemma PlainLauncherStep(timeout: Option<nat>, sh: Shared, i: nat, t: Task, c: Choice)
    requires RoleAllows(t) && t.role.Launcher? && LauncherKnows(sh, t.pc) && TaskEnabled(sh, t.pc) && !t.pc.Moving?
    ensures var (sh', pc) := TaskStep(timeout, sh, i, t, c); LauncherKnows(sh', pc) && !pc.PollRead? && !pc.ReadState?
  {
    hide CanTransition, TxStep, AfterMove, IsTerminal, Rank, RoleAllows;
    PlainPcs(t);
  }

  lemma RankOfTerminal(s: JobState)
    ensures IsTerminal(s) <==> Rank(s) == 4
    ensures s == TimedOut ==> IsTerminal(s)
  {
  }

  lemma MoveKeepsKnows(timeout: Option<nat>, sh: Shared, i: nat, t: Task, c: Choice)
    requires TaskInv(timeout, sh, i, t) && SharedInv(timeout, sh) && TaskEnabled(sh, t.pc) && t.pc.Moving?
    ensures var (sh', pc) := TaskStep(timeout, sh, i, t, c); Knows(timeout, sh', t.(pc := pc))
  {
    if t.role.Launcher? {
      LauncherMoves(timeout, sh, i, t, c);
      hide LauncherKnows, CanTransition, Path;
    } else {
      TransitionsClimb(sh.state, t.pc.target);
      CancelableIffLive(sh.state);
      hide LauncherKnows, Path;
    }
  }

  lemma LauncherMoves(timeout: Option<nat>, sh: Shared, i: nat, t: Task, c: Choice)
    requires TaskInv(timeout, sh, i, t) && TaskEnabled(sh, t.pc) && t.pc.Moving? && t.role.Launcher?
    ensures LauncherKnows(TaskStep(timeout, sh, i, t, c).0, TaskStep(timeout, sh, i, t, c).1)
  {
    TransitionsClimb(sh.state, t.pc.target);
  }

  lemma StepKeepsTask(timeout: Option<nat>, sh: Shared, i: nat, t: Task, c: Choice)
    requires TaskInv(timeout, sh, i, t) && SharedInv(timeout, sh) && TaskEnabled(sh, t.pc)
    ensures var (sh', pc) := TaskStep(timeout, sh, i, t, c); TaskInv(timeout, sh', i, t.(pc := pc))
  {
    StepKeepsRole(timeout, sh, i, t, c);
    StepKeepsLock(timeout, sh, i, t, c);
    StepKeepsMove(timeout, sh, i, t, c);
    StepKeepsKnows(timeout, sh, i, t, c);
    hide TaskStep, RoleAllows, Knows, MoveInv, SharedInv;
  }

  /** Only a launcher that has started all its tasks ends well. */
  lemma SpawnCount(timeout: Option<nat>, sh: Shared, i: nat, t: Task, c: Choice)
    requires RoleAllows(t) && TaskEnabled(sh, t.pc)
    ensures var pc := TaskStep(timeout, sh, i, t, c).1;
            && !pc.NotSpawned?
            && (t.role.Launcher? ==> Spawned(pc) == if t.pc.Spawning? then t.pc.n + 1 else Spawned(t.pc))
  {
    hide CanTransition, IsTerminal;
  }

  lemma StepKeepsSpawn(timeout: Option<nat>, w: World, i: nat, c: Choice)
    requires RolesFixed(w) && SpawnInv(w) && Enabled(w, Act(i, c)) && RoleAllows(w.tasks[i])
    ensures SpawnInv(Apply(timeout, w, Act(i, c)))
  {
    SpawnCount(timeout, w.sh, i, w.tasks[i], c);
    hide TaskStep, RoleAllows, Spawned;
    var w' := Apply(timeout, w, Act(i, c));
    assert w.tasks[i].pc.Spawning? && i == 0 ==> w.tasks[0].pc.n == Spawned(w.tasks[0].pc) by {
      LaunchCount(w.tasks[0]);
    }
  }

  lemma LaunchCount(t: Task)
    ensures RoleAllows(t) && t.role.Launcher? && t.pc.Spawning? ==> Spawned(t.pc) == t.pc.n <= 3
  {
  }

  /** Before any spawning of its own, a task step leaves all other tasks' knowledge intact. */
  lemma MoveOneTask(timeout: Option<nat>, w: World, i: nat, c: Choice, j: nat)
    requires Inv(timeout, w) && Enabled(w, Act(i, c)) && j < |w.tasks|
    ensures var (sh', pc) := TaskStep(timeout, w.sh, i, w.tasks[i], c);
            TaskInv(timeout, sh', j, if j == i then w.tasks[i].(pc := pc) else w.tasks[j])
  {
    hide TaskStep, TaskInv, SharedInv, SpawnInv, TaskEnabled;
    if i == j {
      StepKeepsTask(timeout, w.sh, i, w.tasks[i], c);
    } else {
      StepGuarantees(timeout, w.sh, i, w.tasks[i], c, j);
      Stable(timeout, w.sh, TaskStep(timeout, w.sh, i, w.tasks[i], c).0, j, w.tasks[j]);
    }
  }

  /** A task that is started knows what it needs from its launcher. */
  lemma SpawnedTaskInv(timeout: Option<nat>, sh: Shared, k: nat, t: Task, launcher: Task)
    requires TaskInv(timeout, sh, k, t) && t.pc.NotSpawned? && (t.role.Waiter? || t.role.Monitor? || t.role.Pump?)
    requires TaskInv(timeout, sh, 0, launcher) && launcher.role.Launcher? && launcher.pc.Spawning?
    ensures TaskInv(timeout, sh, k, t.(pc := SpawnPc(t.role)))
  {
  }

  lemma ActKeepsInv(timeout: Option<nat>, w: World, i: nat, c: Choice)
    requires Inv(timeout, w) && Enabled(w, Act(i, c))
    ensures Inv(timeout, Apply(timeout, w, Act(i, c)))
  {
    var t := w.tasks[i];
    var w' := Apply(timeout, w, Act(i, c));
    StepKeepsShared(timeout, w.sh, i, t, c);
    StepKeepsSpawn(timeout, w, i, c);
    HolderInRange(timeout, w.sh, i, t, c);
    forall j | 0 <= j < |w'.tasks| ensures TaskInv(timeout, w'.sh, j, w'.tasks[j]) {
      MoveOneTask(timeout, w, i, c, j);
      if t.pc.Spawning? && i == 0 {
        LaunchCount(t);
        assert w'.sh == w.sh;
        hide TaskInv, SharedInv;
        if j == SpawnIndex(t.pc.n) {
          SpawnedTaskInv(timeout, w.sh, j, w.tasks[j], t);
        }
      } else {
        hide TaskInv, SharedInv, TaskStep;
      }
    }
    hide TaskInv, SharedInv, TaskStep, SpawnInv;
  }

  lemma HolderInRange(timeout: Option<nat>, sh: Shared, i: nat, t: Task, c: Choice)
    ensures var sh' := TaskStep(timeout, sh, i, t, c).0;
            sh'.holder == sh.holder || sh'.holder == Some(i) || sh'.holder == None
  {
    hide CanTransition, IsTerminal, AfterMove;
  }

  lemma TickKeepsInv(timeout: Option<nat>, w: World, d: nat)
    requires Inv(timeout, w)
    ensures Inv(timeout, Apply(timeout, w, Tick(d)))
  {
    hide TaskInv;
    var w' := Apply(timeout, w, Tick(d));
    forall j | 0 <= j < |w'.tasks| ensures TaskInv(timeout, w'.sh, j, w'.tasks[j]) {
      Stable(timeout, w.sh, w'.sh, j, w.tasks[j]);
    }
  }

  lemma JoinKeepsInv(timeout: Option<nat>, w: World, role: Role)
    requires Inv(timeout, w) && Enabled(w, Join(role))
    ensures Inv(timeout, Apply(timeout, w, Join(role)))
  {
    assert TaskInv(timeout, w.sh, |w.tasks|, Task(role, Find));
    hide TaskInv, SharedInv;
  }

  lemma StepKeepsInv(timeout: Option<nat>, w: World, a: Action)
    requires Inv(timeout, w) && Enabled(w, a)
    ensures Inv(timeout, Apply(timeout, w, a))
  {
    match a
    case Act(i, c) => ActKeepsInv(timeout, w, i, c);
    case Tick(d) => TickKeepsInv(timeout, w, d);
    case Join(role) => JoinKeepsInv(timeout, w, role);
  }

  lemma InitInv(timeout: Option<nat>, now: nat)
    ensures Inv(timeout, Init(now))
  {
    var w := Init(now);
    forall j | 0 <= j < |w.tasks| ensures TaskInv(timeout, w.sh, j, w.tasks[j]) {
      assert j == 0 || j == 1 || j == 2 || j == 3 || j == 4;
    }
  }
}
