/** When a sender that waits for the window is woken, and when its wake-up is lost (src/io_pump.rs). */
module Wakeups {
  import opened Protocol
  import opened Streaming
  import opened WindowBound
  import opened WindowWitnesses

  /** The stages of a retry during which a notification goes unheard: the counters have been loaded, in
      part or both, or compared, and the pump does not wait yet. */
  datatype Stage = Elsewhere | AfterFlight | AfterWindow | BeforeWait

  function StageOf(pc: Pc): Stage {
    if pc.FlightLoaded? then AfterFlight
    else if pc.WindowLoaded? then AfterWindow
    else if pc.Refused? then BeforeWait
    else Elsewhere
  }

  /** No update notifies while pump `i` is in one of these stages. */
  predicate Undisturbed(cfg: Config, s: Conn, acts: seq<Action>, i: nat, stages: set<Stage>)
    requires Legal(cfg, s, acts)
    decreases |acts|
  {
    acts == []
    || (&& (acts[0].UpdateAct? && acts[0].update.Notify? && i < |s.pumps| ==> StageOf(s.pumps[i].pc) !in stages)
        && Undisturbed(cfg, Apply(cfg, s, acts[0]), acts[1..], i, stages))
  }

  const Deaf: set<Stage> := {AfterFlight, AfterWindow, BeforeWait}

  predicate AllIdle(updaters: seq<Updater>) {
    forall j :: 0 <= j < |updaters| ==> updaters[j].Idle?
  }

  /** Between updates, what a pump has loaded is no more generous than the counters are. */
  predicate Attentive(s: Conn, pc: Pc) {
    AllIdle(s.updaters) ==>
      match pc
      case FlightLoaded(_, flight) => flight <= s.inFlight
      case WindowLoaded(_, flight, window) => flight <= s.inFlight && window == s.window
      case Refused(frame) => s.inFlight + |frame.payload| > s.window
      case Parked(frame) => s.inFlight + |frame.payload| > s.window
      case _ => true
  }

  lemma PumpKeepsAttentive(cfg: Config, s: Conn, k: nat, e: PumpEvent, i: nat)
    requires WindowInv(cfg, s) && NoWrap(cfg, s) && i < |s.pumps| && Attentive(s, s.pumps[i].pc)
    requires k < |s.pumps| && PumpEnabled(s, s.pumps[k], e)
    ensures Attentive(PumpStep(cfg, s, k, e), PumpStep(cfg, s, k, e).pumps[i].pc)
  {
    hide AllIdle;
    PumpRaisesFlight(cfg, s, k, e);
    hide Bounded, SmallPayloads, LoadsBounded, InHand, Overshoot;
    if k == i {
      assert s.pumps[k].pc.WindowLoaded? && !Admits(s.pumps[k].pc.flight, s.pumps[k].pc.window, s.pumps[k].pc.frame)
             ==> s.pumps[k].pc.flight + |s.pumps[k].pc.frame.payload| > s.pumps[k].pc.window;
    } else {
      hide MovePump, PumpEnabled;
    }
  }

  lemma StepKeepsAttentive(cfg: Config, s: Conn, a: Action, i: nat)
    requires WindowInv(cfg, s) && NoWrap(cfg, s) && i < |s.pumps| && Attentive(s, s.pumps[i].pc)
    requires Enabled(cfg, s, a) && (a.UpdateAct? && a.update.Notify? ==> StageOf(s.pumps[i].pc) !in Deaf)
    ensures Attentive(Apply(cfg, s, a), Apply(cfg, s, a).pumps[i].pc)
  {
    match a
    case PumpAct(k, e) => PumpKeepsAttentive(cfg, s, k, e, i);
    case UpdateAct(j, e) =>
      var s' := Apply(cfg, s, a);
      assert !e.Notify? ==> !s'.updaters[j].Idle?;
      hide Bounded, LoadsBounded, SmallPayloads;
    case _ =>
  }

  lemma {:induction false} RunKeepsAttentive(cfg: Config, s: Conn, acts: seq<Action>, i: nat)
    requires WindowInv(cfg, s) && i < |s.pumps| && Attentive(s, s.pumps[i].pc)
    requires Legal(cfg, s, acts) && NoWrap(cfg, Exec(cfg, s, acts)) && Undisturbed(cfg, s, acts, i, Deaf)
    requires DebitsFit(cfg, s, acts)
    ensures i < |Exec(cfg, s, acts).pumps| && Attentive(Exec(cfg, s, acts), Exec(cfg, s, acts).pumps[i].pc)
    decreases |acts|
  {
    hide WindowInv, Enabled, Apply, Attentive, DebitFits;
    if acts != [] {
      GrantsOnlyGrow(cfg, s, acts);
      RunKeepsCast(cfg, s, acts);
      ExecOne(cfg, s, acts[0]);
      RunKeepsCast(cfg, s, [acts[0]]);
      StepKeepsAttentive(cfg, s, acts[0], i);
      StepKeepsWindow(cfg, s, acts[0]);
      RunKeepsAttentive(cfg, Apply(cfg, s, acts[0]), acts[1..], i);
    }
  }

  /** Wake-ups are kept, for any number of pumps and of overlapping updates whose subtractions fit, in every
      run in which no update notifies while the pump is between its first load and its wait: whenever no
      update is under way, a waiting pump's frame does not fit. */
  lemma WakeupsKept(cfg: Config, streams: seq<StreamId>, updaters: nat, acts: seq<Action>, i: nat)
    requires streams != [] && Legal(cfg, Init(cfg, streams, updaters), acts)
    requires DebitsFit(cfg, Init(cfg, streams, updaters), acts)
    requires Undisturbed(cfg, Init(cfg, streams, updaters), acts, i, Deaf)
    requires var s := Exec(cfg, Init(cfg, streams, updaters), acts);
             NoWrap(cfg, s) && AllIdle(s.updaters) && i < |s.pumps| && s.pumps[i].pc.Parked?
    ensures var s := Exec(cfg, Init(cfg, streams, updaters), acts);
            s.inFlight + |s.pumps[i].pc.frame.payload| > s.window
  {
    var s0 := Init(cfg, streams, updaters);
    InitWindow(cfg, streams, updaters);
    RunKeepsCast(cfg, s0, acts);
    RunKeepsAttentive(cfg, s0, acts, i);
  }

  // --- Outside the condition the wake-up is lost ---------------------------------------------

  /** An update is about to notify a pump that cannot hear it: the frame fits by now, but not by what the
      pump has loaded. */
  predicate Deafened(cfg: Config, s: Conn, j: nat, i: nat) {
    && !cfg.dropPolicy
    && j < |s.updaters| && s.updaters[j].Debited? && AllIdle(s.updaters[j := Idle])
    && i < |s.pumps|
    && match s.pumps[i].pc
       case FlightLoaded(frame, flight) => Admits(s.inFlight, s.window, frame) && !Admits(flight, s.window, frame)
       case WindowLoaded(frame, flight, window) => Admits(s.inFlight, s.window, frame) && !Admits(flight, window, frame)
       case Refused(frame) => Admits(s.inFlight, s.window, frame)
       case _ => false
  }

  /** The pump waits for a notification although its frame fits and nobody is going to notify. */
  predicate Stranded(s: Conn, i: nat) {
    && AllIdle(s.updaters)
    && i < |s.pumps| && s.pumps[i].pc.Parked?
    && Admits(s.inFlight, s.window, s.pumps[i].pc.frame)
  }

  function RestOfRetry(pc: Pc, i: nat): seq<Action> {
    match StageOf(pc)
    case AfterFlight => [PumpAct(i, LoadWindow), PumpAct(i, Decide), PumpAct(i, Park)]
    case AfterWindow => [PumpAct(i, Decide), PumpAct(i, Park)]
    case BeforeWait => [PumpAct(i, Park)]
    case Elsewhere => []
  }

  /** In every such state, from whatever run, letting the update notify and the pump go on strands it. */
  lemma DeafenedIsStranded(cfg: Config, s: Conn, j: nat, i: nat)
    requires Deafened(cfg, s, j, i)
    ensures var acts := [UpdateAct(j, Notify)] + RestOfRetry(s.pumps[i].pc, i);
            Legal(cfg, s, acts) && Stranded(Exec(cfg, s, acts), i)
  {
    hide Legal, Exec;
    Start(cfg, s);
    var acts := Then(cfg, s, [], UpdateAct(j, Notify));
    if s.pumps[i].pc.FlightLoaded? {
      acts := Then(cfg, s, acts, PumpAct(i, LoadWindow));
    }
    if !s.pumps[i].pc.Refused? {
      acts := Then(cfg, s, acts, PumpAct(i, Decide));
    }
    acts := Then(cfg, s, acts, PumpAct(i, Park));
    assert acts == [UpdateAct(j, Notify)] + RestOfRetry(s.pumps[i].pc, i);
  }

  /** And only in such states: the last update notifies, the pump goes on, and it is stranded iff it was
      deafened. */
  lemma StrandedIffDeafened(cfg: Config, s: Conn, j: nat, i: nat)
    requires !cfg.dropPolicy && j < |s.updaters| && s.updaters[j].Debited? && AllIdle(s.updaters[j := Idle])
    requires i < |s.pumps| && StageOf(s.pumps[i].pc) in Deaf
    ensures var acts := [UpdateAct(j, Notify)] + RestOfRetry(s.pumps[i].pc, i);
            Legal(cfg, s, acts) && Stranded(Exec(cfg, s, acts), i) <==> Deafened(cfg, s, j, i)
  {
    var rest := RestOfRetry(s.pumps[i].pc, i);
    var acts := [UpdateAct(j, Notify)] + rest;
    if Deafened(cfg, s, j, i) {
      DeafenedIsStranded(cfg, s, j, i);
    } else if Legal(cfg, s, acts) {
      assert acts[1..] == rest;
      var t := Apply(cfg, s, acts[0]);
      assert t.pumps[i] == s.pumps[i] && t.inFlight == s.inFlight && t.window == s.window;
      RetryOutcome(cfg, t, i);
    }
  }

  /** A retry that ends waiting has refused the frame and left the counters alone. */
  lemma RetryOutcome(cfg: Config, s: Conn, i: nat)
    requires i < |s.pumps| && StageOf(s.pumps[i].pc) in Deaf && Legal(cfg, s, RestOfRetry(s.pumps[i].pc, i))
    ensures var pc, t := s.pumps[i].pc, Exec(cfg, s, RestOfRetry(s.pumps[i].pc, i));
            && t.inFlight == s.inFlight && t.window == s.window && i < |t.pumps| && t.pumps[i].pc == Parked(pc.frame)
            && (pc.FlightLoaded? ==> !Admits(pc.flight, s.window, pc.frame))
            && (pc.WindowLoaded? ==> !Admits(pc.flight, pc.window, pc.frame))
    decreases if s.pumps[i].pc.FlightLoaded? then 2 else if s.pumps[i].pc.WindowLoaded? then 1 else 0
  {
    var rest := RestOfRetry(s.pumps[i].pc, i);
    var t := Apply(cfg, s, rest[0]);
    assert Legal(cfg, t, rest[1..]);
    if s.pumps[i].pc.Refused? {
      assert rest[1..] == [];
    } else {
      assert rest[1..] == RestOfRetry(t.pumps[i].pc, i);
      RetryOutcome(cfg, t, i);
    }
  }

  predicate Notifies(a: Action) {
    a.UpdateAct? && a.update.Notify?
  }

  /** Actions that notify nobody disturb nobody. */
  lemma {:induction false} QuietPrefix(
      cfg: Config, s: Conn, first: seq<Action>, second: seq<Action>, i: nat, stages: set<Stage>)
    requires Legal(cfg, s, first) && (forall a :: a in first ==> !Notifies(a))
    requires Legal(cfg, Exec(cfg, s, first), second) && Undisturbed(cfg, Exec(cfg, s, first), second, i, stages)
    ensures Legal(cfg, s, first + second) && Undisturbed(cfg, s, first + second, i, stages)
    decreases |first|
  {
    hide Apply, Enabled;
    ExecAppend(cfg, s, first, second);
    if first == [] {
      assert first + second == second;
    } else {
      QuietPrefix(cfg, Apply(cfg, s, first[0]), first[1..], second, i, stages);
      assert !Notifies(first[0]);
      assert (first + second)[0] == first[0] && (first + second)[1..] == first[1..] + second;
    }
  }

  /** One notification, while the pump is at the given stage, disturbs no other stage. */
  lemma NotifyThenRest(cfg: Config, s: Conn, j: nat, i: nat, rest: seq<Action>, stages: set<Stage>)
    requires Legal(cfg, s, [UpdateAct(j, Notify)] + rest) && (forall a :: a in rest ==> !Notifies(a))
    requires i < |s.pumps| && StageOf(s.pumps[i].pc) !in stages
    ensures Undisturbed(cfg, s, [UpdateAct(j, Notify)] + rest, i, stages)
  {
    hide Apply, Enabled;
    var acts := [UpdateAct(j, Notify)] + rest;
    assert acts[1..] == rest;
    var t := Apply(cfg, s, acts[0]);
    Start(cfg, Exec(cfg, t, rest));
    QuietPrefix(cfg, t, rest, [], i, stages);
    assert rest + [] == rest;
  }

  /** A run up to a deafened pump at any of the three stages. */
  lemma DeafRun(cfg: Config, stage: Stage) returns (acts: seq<Action>)
    requires cfg.initialWindow == 2 && !cfg.dropPolicy && stage in Deaf
    ensures Legal(cfg, Init(cfg, [Stdout], 1), acts) && forall a :: a in acts ==> !Notifies(a)
    ensures var s := Exec(cfg, Init(cfg, [Stdout], 1), acts);
            Deafened(cfg, s, 0, 0) && StageOf(s.pumps[0].pc) == stage
  {
    acts := FirstSend(cfg);
    hide Legal, Exec, Init, Deafened;
    acts := FlightRun(cfg, Init(cfg, [Stdout], 1), acts);
    acts := SettleStage(cfg, Init(cfg, [Stdout], 1), acts, stage);
  }

  lemma FirstSend(cfg: Config) returns (acts: seq<Action>)
    requires cfg.initialWindow == 2
    ensures Legal(cfg, Init(cfg, [Stdout], 1), acts) && forall a :: a in acts ==> !Notifies(a)
    ensures var s := Exec(cfg, Init(cfg, [Stdout], 1), acts);
            && s.updaters == [Idle] && s.window == 2 && s.inFlight == 2 && !s.cancelled
            && |s.pumps| == 1 && s.pumps[0].pc.Top?
  {
    var s0 := Init(cfg, [Stdout], 1);
    LoadRun(cfg, s0, 0, [0, 0]);
    hide Legal, Exec;
    acts := LoadActs(0, [0, 0]);
    acts := Then(cfg, s0, acts, PumpAct(0, Decide));
    acts := Then(cfg, s0, acts, PumpAct(0, Enqueue));
  }

  lemma FlightRun(cfg: Config, s0: Conn, acts: seq<Action>) returns (longer: seq<Action>)
    requires Legal(cfg, s0, acts) && forall a :: a in acts ==> !Notifies(a)
    requires var s := Exec(cfg, s0, acts); |s.pumps| == 1 && s.pumps[0].pc.Top? && !s.cancelled
    ensures Legal(cfg, s0, longer) && forall a :: a in longer ==> !Notifies(a)
    ensures var s, t := Exec(cfg, s0, acts), Exec(cfg, s0, longer);
            && t.updaters == s.updaters && t.window == s.window && t.inFlight == s.inFlight && |t.pumps| == 1
            && t.pumps[0].pc.FlightLoaded? && t.pumps[0].pc.flight == s.inFlight && |t.pumps[0].pc.frame.payload| == 2
  {
    hide Legal, Exec;
    longer := Then(cfg, s0, acts, PumpAct(0, SeeToken));
    longer := Then(cfg, s0, longer, PumpAct(0, ReadChunk([0, 0])));
    longer := Then(cfg, s0, longer, PumpAct(0, LoadFlight));
  }

  /** The pump goes on to the given stage, then an update of one byte runs up to its notification. */
  lemma SettleStage(cfg: Config, s0: Conn, acts: seq<Action>, stage: Stage) returns (longer: seq<Action>)
    requires !cfg.dropPolicy && stage in Deaf
    requires Legal(cfg, s0, acts) && forall a :: a in acts ==> !Notifies(a)
    requires var s := Exec(cfg, s0, acts);
             && s.updaters == [Idle] && s.window == 2 && s.inFlight == 2 && |s.pumps| == 1
             && s.pumps[0].pc.FlightLoaded? && s.pumps[0].pc.flight == 2 && |s.pumps[0].pc.frame.payload| == 2
    ensures Legal(cfg, s0, longer) && forall a :: a in longer ==> !Notifies(a)
    ensures var s := Exec(cfg, s0, longer); Deafened(cfg, s, 0, 0) && StageOf(s.pumps[0].pc) == stage
  {
    hide Legal, Exec;
    longer := acts;
    if stage != AfterFlight {
      longer := Then(cfg, s0, longer, PumpAct(0, LoadWindow));
    }
    if stage == BeforeWait {
      longer := Then(cfg, s0, longer, PumpAct(0, Decide));
    }
    longer := UpdateUpToNotify(cfg, s0, longer);
  }

  lemma UpdateUpToNotify(cfg: Config, s0: Conn, acts: seq<Action>) returns (longer: seq<Action>)
    requires Legal(cfg, s0, acts) && forall a :: a in acts ==> !Notifies(a)
    requires var s := Exec(cfg, s0, acts); s.updaters == [Idle] && s.window == 2 && s.inFlight == 2
    ensures Legal(cfg, s0, longer) && forall a :: a in longer ==> !Notifies(a)
    ensures var s := Exec(cfg, s0, longer);
            s.updaters == [Debited] && s.window == 3 && s.inFlight == 1 && s.pumps == Exec(cfg, s0, acts).pumps
  {
    hide Legal, Exec;
    longer := Then(cfg, s0, acts, UpdateAct(0, Credit(1)));
    longer := Then(cfg, s0, longer, UpdateAct(0, Observe));
    longer := Then(cfg, s0, longer, UpdateAct(0, Debit));
  }

  /** None of the three stages can be left out of the condition: for each there is a run that notifies at
      no other stage and strands the pump. Making the test and the wait one step is not enough. */
  lemma LostWakeup(cfg: Config, stage: Stage)
    requires cfg.initialWindow == 2 && !cfg.dropPolicy && stage in Deaf
    ensures exists acts ::
              && Legal(cfg, Init(cfg, [Stdout], 1), acts)
              && Undisturbed(cfg, Init(cfg, [Stdout], 1), acts, 0, Deaf - {stage})
              && Stranded(Exec(cfg, Init(cfg, [Stdout], 1), acts), 0)
  {
    var s0 := Init(cfg, [Stdout], 1);
    var acts := DeafRun(cfg, stage);
    var s := Exec(cfg, s0, acts);
    hide Legal, Exec, Undisturbed, Stranded, Deafened;
    assert 0 < |s.pumps| by {
      assert Deafened(cfg, s, 0, 0) by { }
    }
    var rest := RestOfRetry(s.pumps[0].pc, 0);
    DeafenedIsStranded(cfg, s, 0, 0);
    NotifyThenRest(cfg, s, 0, 0, rest, Deaf - {stage});
    QuietPrefix(cfg, s0, acts, [UpdateAct(0, Notify)] + rest, 0, Deaf - {stage});
    ExecAppend(cfg, s0, acts, [UpdateAct(0, Notify)] + rest);
  }
}
