/** How much output a job can have when nothing credits its window, which is how the server wires it: up to
    the window every schedule flows, beyond it no schedule completes (src/io_pump.rs, src/pipe_server.rs). */
module OutputBound {
  import opened MachineWords
  import opened Protocol
  import opened Streaming
  import opened WindowBound
  import opened WindowWitnesses
  import opened Delivery

  // --- Within the window every schedule flows ------------------------------------------------

  predicate Waiting(pc: Pc) {
    pc.Refused? || pc.Parked?
  }

  /** The pump has had nothing refused or dropped, and what it has loaded is not out of date to its harm. */
  predicate Flowing(s: Conn, p: Pump) {
    && !Waiting(p.pc)
    && (forall k :: 0 <= k < |p.fates| ==> p.fates[k])
    && (p.pc.FlightLoaded? || p.pc.WindowLoaded? ==> p.pc.flight <= s.inFlight)
    && (p.pc.WindowLoaded? ==> p.pc.window == s.window)
  }

  predicate FlowInv(cfg: Config, s: Conn) {
    && s.updaters == [] && s.window == cfg.initialWindow
    && DeliveryInv(cfg, s) && Conserved(s)
    && (TotalRead(s.pumps) <= s.window ==>
          s.inFlight == s.accepted && forall i :: 0 <= i < |s.pumps| ==> Flowing(s, s.pumps[i]))
  }

  /** What a pump has charged, and the frame it is about to charge, it has read. */
  lemma ChargedIsRead(cfg: Config, queued: seq<Frame>, p: Pump)
    requires PumpInv(cfg, queued, p) && forall k :: 0 <= k < |p.fates| ==> p.fates[k]
    ensures ChargedBy(p) + (if p.pc.WindowLoaded? then |p.pc.frame.payload| else 0) <= |p.read|
  {
    hide Phase, Select;
    KeptAll(p.settled, p.fates);
    if InHand(p.pc) != [] {
      PayloadsOne(p.settled, p.pc.frame);
    } else {
      assert p.settled + [] == p.settled;
    }
  }

  /** So as long as everything read fits the window, the next frame fits beside all that is charged. */
  lemma NextFrameFits(cfg: Config, s: Conn, i: nat)
    requires DeliveryInv(cfg, s) && Conserved(s) && i < |s.pumps| && s.pumps[i].pc.WindowLoaded?
    requires forall k :: 0 <= k < |s.pumps| ==> Flowing(s, s.pumps[k])
    ensures s.accepted + |s.pumps[i].pc.frame.payload| <= TotalRead(s.pumps)
  {
    hide PumpInv, ChargedBy;
    forall k | 0 <= k < |s.pumps|
      ensures ChargedBy(s.pumps[k]) + (if s.pumps[k].pc.WindowLoaded? then |s.pumps[k].pc.frame.payload| else 0)
              <= |s.pumps[k].read|
    {
      ChargedIsRead(cfg, s.queued, s.pumps[k]);
    }
    SumBelow(Charges(s.pumps), ReadSizes(s.pumps), i, |s.pumps[i].pc.frame.payload|);
  }

  /** What a step does to its own pump and to the counters. */
  lemma OwnFlow(cfg: Config, s: Conn, i: nat, e: PumpEvent)
    requires i < |s.pumps| && PumpEnabled(s, s.pumps[i], e) && Flowing(s, s.pumps[i]) && s.inFlight == s.accepted
    requires e.Decide? ==> s.accepted + |s.pumps[i].pc.frame.payload| <= s.window
    ensures var s' := PumpStep(cfg, s, i, e);
            && Flowing(s', s'.pumps[i])
            && s'.window == s.window && s.inFlight <= s'.inFlight == s'.accepted
            && |s.pumps[i].read| <= |s'.pumps[i].read|
  {
  }

  lemma PumpKeepsFlow(cfg: Config, s: Conn, i: nat, e: PumpEvent)
    requires FlowInv(cfg, s) && i < |s.pumps| && PumpEnabled(s, s.pumps[i], e)
    requires TotalRead(PumpStep(cfg, s, i, e).pumps) <= s.window
    ensures var s' := PumpStep(cfg, s, i, e);
            s'.inFlight == s'.accepted && forall k :: 0 <= k < |s'.pumps| ==> Flowing(s', s'.pumps[k])
  {
    var s' := PumpStep(cfg, s, i, e);
    TotalReadUpdate(s.pumps, i, s'.pumps[i]);
    ReadGrows(cfg, s, i, e);
    hide DeliveryInv, Conserved, TotalRead, MovePump, Flowing;
    if e.Decide? {
      NextFrameFits(cfg, s, i) by {
        assert s.pumps[i].pc.WindowLoaded?;
      }
    }
    OwnFlow(cfg, s, i, e);
    forall k | 0 <= k < |s'.pumps| ensures Flowing(s', s'.pumps[k]) {
      if k != i {
        assert s'.pumps[k] == s.pumps[k];
        StillFlowing(s, s', s.pumps[k]);
      }
    }
  }

  lemma StillFlowing(s: Conn, s': Conn, p: Pump)
    requires Flowing(s, p) && s.inFlight <= s'.inFlight && s'.window == s.window
    ensures Flowing(s', p)
  {
  }

  lemma ReadGrows(cfg: Config, s: Conn, i: nat, e: PumpEvent)
    requires i < |s.pumps| && PumpEnabled(s, s.pumps[i], e)
    ensures var s' := PumpStep(cfg, s, i, e);
            && s'.pumps == s.pumps[i := s'.pumps[i]] && |s.pumps[i].read| <= |s'.pumps[i].read|
            && s'.window == s.window && s'.updaters == s.updaters
  {
  }

  lemma StepKeepsFlow(cfg: Config, s: Conn, a: Action)
    requires FlowInv(cfg, s) && Enabled(cfg, s, a)
    ensures FlowInv(cfg, Apply(cfg, s, a))
  {
    hide DeliveryInv, Conserved, Flowing, TotalRead;
    StepKeepsDelivery(cfg, s, a);
    StepConserves(cfg, s, a);
    var s' := Apply(cfg, s, a);
    if a.PumpAct? {
      ReadGrows(cfg, s, a.i, a.event);
      hide PumpStep, PumpEnabled;
      if TotalRead(s'.pumps) <= s'.window {
        PumpKeepsFlow(cfg, s, a.i, a.event);
      }
    } else {
      hide PumpStep, PumpEnabled;
      assert s'.pumps == s.pumps && s'.inFlight == s.inFlight && s'.accepted == s.accepted;
      forall k | 0 <= k < |s'.pumps| && Flowing(s, s.pumps[k]) ensures Flowing(s', s'.pumps[k]) {
        StillFlowing(s, s', s.pumps[k]);
      }
    }
  }

  lemma {:induction false} RunKeepsFlow(cfg: Config, s: Conn, acts: seq<Action>)
    requires FlowInv(cfg, s) && Legal(cfg, s, acts)
    ensures FlowInv(cfg, Exec(cfg, s, acts))
    decreases |acts|
  {
    hide FlowInv, Apply, Enabled;
    if acts != [] {
      StepKeepsFlow(cfg, s, acts[0]);
      RunKeepsFlow(cfg, Apply(cfg, s, acts[0]), acts[1..]);
    }
  }

  lemma InitFlows(cfg: Config, streams: seq<StreamId>)
    requires Distinct(streams)
    ensures FlowInv(cfg, Init(cfg, streams, 0))
  {
    SumZero(Charges(Init(cfg, streams, 0).pumps));
  }

  /** Under every schedule, and under either policy, a job whose output so far fits the window has had no
      frame refused or dropped. */
  lemma NothingRefused(cfg: Config, streams: seq<StreamId>, acts: seq<Action>, i: nat)
    requires Distinct(streams) && Legal(cfg, Init(cfg, streams, 0), acts)
    requires var s := Exec(cfg, Init(cfg, streams, 0), acts);
             TotalRead(s.pumps) <= cfg.initialWindow && i < |s.pumps|
    ensures var p := Exec(cfg, Init(cfg, streams, 0), acts).pumps[i];
            !Waiting(p.pc) && forall k :: 0 <= k < |p.fates| ==> p.fates[k]
  {
    InitFlows(cfg, streams);
    RunKeepsFlow(cfg, Init(cfg, streams, 0), acts);
  }

  // --- Beyond the window no schedule completes -----------------------------------------------

  predicate HoldsEos(p: Pump) {
    (p.pc.FlightLoaded? || p.pc.WindowLoaded? || p.pc.Charged?) && p.pc.frame.flags == FLAG_EOS
  }

  /** The pump has loaded the bytes in flight for its end marker, so it has charged all its data. */
  predicate Closing(p: Pump) {
    p.pc.Ended? || HoldsEos(p)
  }

  /** The pump still has to make the window test for its end marker, with everything charged in view. */
  predicate Witnesses(s: Conn, p: Pump) {
    (p.pc.FlightLoaded? || p.pc.WindowLoaded?) && p.pc.flight == s.accepted
  }

  /** Once every pump is closing, the charged bytes have passed a window test, or are about to face one. */
  predicate ClosingInv(cfg: Config, s: Conn) {
    (forall i :: 0 <= i < |s.pumps| ==> Closing(s.pumps[i])) ==>
      || s.accepted <= cfg.initialWindow
      || exists i :: 0 <= i < |s.pumps| && Witnesses(s, s.pumps[i])
  }

  /** The facts about counters and frames that the step below rests on. */
  ghost predicate Uncredited(cfg: Config, s: Conn) {
    && WindowInv(cfg, s) && Unacknowledged(cfg, s) && DeliveryInv(cfg, s) && NoWrap(cfg, s)
  }

  lemma ClosingFacts(cfg: Config, s: Conn, i: nat)
    requires Uncredited(cfg, s) && i < |s.pumps|
    ensures s.inFlight == s.accepted
    ensures s.pumps[i].pc.WindowLoaded? ==> s.pumps[i].pc.window <= cfg.initialWindow
    ensures HoldsEos(s.pumps[i]) ==> s.pumps[i].pc.frame.payload == []
  {
    assert PumpInv(cfg, s.queued, s.pumps[i]);
    hide AllData, Select, Kept, Payloads, Bounded, SmallPayloads;
  }

  lemma ClosingStep(cfg: Config, s: Conn, i: nat, e: PumpEvent)
    requires !cfg.dropPolicy && i < |s.pumps| && PumpEnabled(s, s.pumps[i], e) && s.inFlight == s.accepted
    requires s.pumps[i].pc.WindowLoaded? ==> s.pumps[i].pc.window <= cfg.initialWindow
    requires HoldsEos(s.pumps[i]) ==> s.pumps[i].pc.frame.payload == []
    requires Closing(PumpStep(cfg, s, i, e).pumps[i])
    ensures var s' := PumpStep(cfg, s, i, e);
            || Witnesses(s', s'.pumps[i])
            || (&& Closing(s.pumps[i]) && s'.accepted == s.accepted
                && (Witnesses(s, s.pumps[i]) ==> s.accepted <= cfg.initialWindow))
  {
  }

  lemma PumpKeepsClosing(cfg: Config, s: Conn, i: nat, e: PumpEvent)
    requires Uncredited(cfg, s) && !cfg.dropPolicy && ClosingInv(cfg, s)
    requires i < |s.pumps| && PumpEnabled(s, s.pumps[i], e)
    ensures ClosingInv(cfg, PumpStep(cfg, s, i, e))
  {
    var s' := PumpStep(cfg, s, i, e);
    ReadGrows(cfg, s, i, e);
    if Closing(s'.pumps[i]) {
      ClosingFacts(cfg, s, i);
      ClosingStep(cfg, s, i, e);
    }
    hide Uncredited, Closing, Witnesses, PumpStep, PumpEnabled, ClosingInv;
    OneClosing(cfg, s, s', i);
  }

  /** If one pump moves in this way and the others stand still, the invariant is kept. */
  lemma OneClosing(cfg: Config, s: Conn, s': Conn, i: nat)
    requires ClosingInv(cfg, s) && i < |s.pumps| && |s'.pumps| == |s.pumps|
    requires s'.pumps == s.pumps[i := s'.pumps[i]]
    requires Closing(s'.pumps[i]) ==>
               || Witnesses(s', s'.pumps[i])
               || (&& Closing(s.pumps[i]) && s'.accepted == s.accepted
                   && (Witnesses(s, s.pumps[i]) ==> s.accepted <= cfg.initialWindow))
    ensures ClosingInv(cfg, s')
  {
    hide Closing;
    if (forall k :: 0 <= k < |s'.pumps| ==> Closing(s'.pumps[k])) && !Witnesses(s', s'.pumps[i]) {
      forall k | 0 <= k < |s.pumps| ensures Closing(s.pumps[k]) {
        assert Closing(s'.pumps[k]);
      }
      if s.accepted > cfg.initialWindow {
        var k :| 0 <= k < |s.pumps| && Witnesses(s, s.pumps[k]);
        assert Witnesses(s', s'.pumps[k]);
      }
    }
  }

  lemma {:induction false} RunKeepsClosing(cfg: Config, s: Conn, acts: seq<Action>)
    requires Uncredited(cfg, s) && !cfg.dropPolicy && ClosingInv(cfg, s) && Legal(cfg, s, acts)
    ensures ClosingInv(cfg, Exec(cfg, s, acts))
    decreases |acts|
  {
    hide Uncredited, ClosingInv, Apply, Enabled;
    if acts != [] {
      StepStaysUncredited(cfg, s, acts[0]);
      StepKeepsClosing(cfg, s, acts[0]);
      RunKeepsClosing(cfg, Apply(cfg, s, acts[0]), acts[1..]);
    }
  }

  lemma StepKeepsClosing(cfg: Config, s: Conn, a: Action)
    requires Uncredited(cfg, s) && !cfg.dropPolicy && ClosingInv(cfg, s) && Enabled(cfg, s, a) && !a.UpdateAct?
    ensures ClosingInv(cfg, Apply(cfg, s, a))
  {
    hide Uncredited, ClosingInv, PumpStep, PumpEnabled;
    if a.PumpAct? {
      PumpKeepsClosing(cfg, s, a.i, a.event);
    } else {
      OtherKeepsClosing(cfg, s, Apply(cfg, s, a));
    }
  }

  lemma OtherKeepsClosing(cfg: Config, s: Conn, s': Conn)
    requires ClosingInv(cfg, s) && s'.pumps == s.pumps && s'.accepted == s.accepted
    ensures ClosingInv(cfg, s')
  {
    hide Closing;
    assert forall k :: 0 <= k < |s.pumps| ==> (Witnesses(s, s.pumps[k]) <==> Witnesses(s', s'.pumps[k]));
  }

  lemma StepStaysUncredited(cfg: Config, s: Conn, a: Action)
    requires Uncredited(cfg, s) && Enabled(cfg, s, a)
    ensures Uncredited(cfg, Apply(cfg, s, a))
    ensures !a.UpdateAct?
  {
    StepKeepsWindow(cfg, s, a);
    StepKeepsDelivery(cfg, s, a);
    StepStaysUnacknowledged(cfg, s, a);
    StepKeepsCast(cfg, s, a);
    hide WindowInv, DeliveryInv, Apply;
  }

  /** However lucky the schedule: when all streams of a job have reached their end markers, the job has
      read at most the window. */
  lemma CompletedFitsWindow(cfg: Config, streams: seq<StreamId>, acts: seq<Action>)
    requires streams != [] && Distinct(streams) && !cfg.dropPolicy
    requires cfg.initialWindow + |streams| * MAX_PAYLOAD_SIZE < U64_MODULUS
    requires Legal(cfg, Init(cfg, streams, 0), acts)
    requires forall p :: p in Exec(cfg, Init(cfg, streams, 0), acts).pumps ==> p.pc.Ended?
    ensures TotalRead(Exec(cfg, Init(cfg, streams, 0), acts).pumps) <= cfg.initialWindow
  {
    var s0 := Init(cfg, streams, 0);
    var s := Exec(cfg, s0, acts);
    InitWindow(cfg, streams, 0);
    SumZero(Charges(s0.pumps));
    RunKeepsClosing(cfg, s0, acts);
    ReachableDelivery(cfg, streams, 0, acts);
    RunConserves(cfg, s0, acts);
    hide Legal, Exec, DeliveryInv, Conserved, ClosingInv, TotalRead;
    EndedCharges(cfg, s);
  }

  lemma EndedCharges(cfg: Config, s: Conn)
    requires DeliveryInv(cfg, s) && Conserved(s) && ClosingInv(cfg, s) && !cfg.dropPolicy
    requires forall p :: p in s.pumps ==> p.pc.Ended?
    ensures TotalRead(s.pumps) == s.accepted <= cfg.initialWindow
  {
    hide PumpInv;
    forall k | 0 <= k < |s.pumps| ensures Closing(s.pumps[k]) && ChargedBy(s.pumps[k]) == |s.pumps[k].read| {
      assert s.pumps[k] in s.pumps;
      EndedCharge(cfg, s.queued, s.pumps[k]);
    }
    assert Charges(s.pumps) == ReadSizes(s.pumps);
    assert forall k :: 0 <= k < |s.pumps| ==> s.pumps[k] in s.pumps && !Witnesses(s, s.pumps[k]);
  }

  // --- Runs that hang and runs that complete -------------------------------------------------

  /** Some pump waits for a window that nobody will credit. */
  predicate Hung(s: Conn, outputs: seq<seq<u8>>) {
    && s.updaters == [] && ReadsWithin(s.pumps, outputs)
    && exists i :: 0 <= i < |s.pumps| && s.pumps[i].pc.Parked?
  }

  /** Every stream has reached its end marker with all its output. */
  predicate Completed(s: Conn, outputs: seq<seq<u8>>) {
    |s.pumps| == |outputs| && forall i :: 0 <= i < |s.pumps| ==> s.pumps[i].pc.Ended? && s.pumps[i].read == outputs[i]
  }

  /** With the window full, the next byte of any stream is refused. */
  lemma HangFrom(cfg: Config, s: Conn, outputs: seq<seq<u8>>, i: nat) returns (acts: seq<Action>)
    requires Poured(cfg, s, outputs, cfg.initialWindow) && !cfg.dropPolicy && cfg.initialWindow + 1 < U64_MODULUS
    requires i < |s.pumps| && |s.pumps[i].read| < |outputs[i]|
    ensures Legal(cfg, s, acts)
    ensures var t := Exec(cfg, s, acts); Hung(t, outputs) && !t.closed && t.begun == t.queued
  {
    hide Legal, Exec;
    var b := outputs[i][|s.pumps[i].read|];
    LoadRun(cfg, s, i, [b]);
    acts := Then(cfg, s, LoadActs(i, [b]), PumpAct(i, Decide));
    acts := Then(cfg, s, acts, PumpAct(i, Park));
    var t := Exec(cfg, s, acts);
    assert t.pumps[i].read <= outputs[i] && t.pumps[i].pc.Parked?;
  }

  lemma HangingRun(cfg: Config, streams: seq<StreamId>, outputs: seq<seq<u8>>) returns (acts: seq<Action>)
    requires |outputs| == |streams| && !cfg.dropPolicy && cfg.initialWindow + 1 < U64_MODULUS
    requires TotalOutput(outputs) > cfg.initialWindow
    ensures Legal(cfg, Init(cfg, streams, 0), acts)
    ensures var t := Exec(cfg, Init(cfg, streams, 0), acts); Hung(t, outputs) && !t.closed && t.begun == t.queued
  {
    var s0 := Init(cfg, streams, 0);
    acts := Pour(cfg, streams, outputs, cfg.initialWindow);
    hide Legal, Exec, Init, Hung;
    var s := Exec(cfg, s0, acts);
    var i := SomeUnread(s.pumps, outputs);
    var more := HangFrom(cfg, s, outputs, i);
    ExecAppend(cfg, s0, acts, more);
    acts := acts + more;
  }

  /** All output has been sent, and the first `k` streams have ended. */
  predicate Ending(s: Conn, outputs: seq<seq<u8>>, k: nat) {
    && |s.pumps| == |outputs| && k <= |s.pumps|
    && (forall i :: 0 <= i < |s.pumps| ==> s.pumps[i].read == outputs[i])
    && (forall i :: 0 <= i < |s.pumps| ==> if i < k then s.pumps[i].pc.Ended? else s.pumps[i].pc.Top?)
    && s.inFlight <= s.window && !s.cancelled && !s.closed && s.begun == s.queued && s.pending == []
  }

  /** One pump at the end of its input sends its end marker. */
  lemma SendEos(cfg: Config, s: Conn, i: nat) returns (acts: seq<Action>)
    requires i < |s.pumps| && s.pumps[i].pc.Top? && !s.cancelled && s.inFlight <= s.window && ChannelHasRoom(s)
    ensures Legal(cfg, s, acts)
    ensures var p := s.pumps[i];
            var frame := EosFrame(cfg.jobId, p.stream, p.sequence);
            Exec(cfg, s, acts) == s.(queued := s.queued + [frame], pumps := s.pumps[i := Settle(p, frame, true)])
  {
    hide Legal, Exec;
    acts := LoadForEos(cfg, s, i);
    acts := Then(cfg, s, acts, PumpAct(i, Decide));
    acts := Then(cfg, s, acts, PumpAct(i, Enqueue));
  }

  lemma LoadForEos(cfg: Config, s: Conn, i: nat) returns (acts: seq<Action>)
    requires i < |s.pumps| && s.pumps[i].pc.Top? && !s.cancelled
    ensures Legal(cfg, s, acts)
    ensures var p := s.pumps[i];
            var frame := EosFrame(cfg.jobId, p.stream, p.sequence);
            Exec(cfg, s, acts) == s.(pumps := s.pumps[i := p.(pc := WindowLoaded(frame, s.inFlight, s.window))])
  {
    hide Legal, Exec;
    Start(cfg, s);
    acts := Then(cfg, s, [], PumpAct(i, SeeToken));
    acts := Then(cfg, s, acts, PumpAct(i, ReadEof));
    acts := Then(cfg, s, acts, PumpAct(i, LoadFlight));
    acts := Then(cfg, s, acts, PumpAct(i, LoadWindow));
  }

  lemma EndOne(cfg: Config, s: Conn, outputs: seq<seq<u8>>, k: nat) returns (acts: seq<Action>)
    requires Ending(s, outputs, k) && k < |s.pumps|
    ensures Legal(cfg, s, acts) && Ending(Exec(cfg, s, acts), outputs, k + 1)
  {
    hide Legal, Exec;
    acts := SendEos(cfg, s, k);
    var more := DrainOne(cfg, Exec(cfg, s, acts));
    ExecAppend(cfg, s, acts, more);
    acts := acts + more;
  }

  lemma {:induction false} EndAll(cfg: Config, streams: seq<StreamId>, outputs: seq<seq<u8>>, k: nat)
    returns (acts: seq<Action>)
    requires |outputs| == |streams| && k <= |streams| && TotalOutput(outputs) <= cfg.initialWindow
    ensures Legal(cfg, Init(cfg, streams, 0), acts)
    ensures Ending(Exec(cfg, Init(cfg, streams, 0), acts), outputs, k)
  {
    var s0 := Init(cfg, streams, 0);
    if k == 0 {
      acts := Pour(cfg, streams, outputs, TotalOutput(outputs));
      AllRead(Exec(cfg, s0, acts).pumps, outputs);
    } else {
      acts := EndAll(cfg, streams, outputs, k - 1);
      hide Legal, Exec, Init;
      var more := EndOne(cfg, Exec(cfg, s0, acts), outputs, k - 1);
      ExecAppend(cfg, s0, acts, more);
      acts := acts + more;
    }
  }

  lemma AllRead(pumps: seq<Pump>, outputs: seq<seq<u8>>)
    requires ReadsWithin(pumps, outputs) && TotalRead(pumps) == TotalOutput(outputs)
    ensures forall i :: 0 <= i < |pumps| ==> pumps[i].read == outputs[i]
  {
    forall i | 0 <= i < |pumps| ensures pumps[i].read == outputs[i] {
      SumBelow(ReadSizes(pumps), OutputSizes(outputs), i, |outputs[i]| - |pumps[i].read|);
    }
  }

  // --- The dichotomy -------------------------------------------------------------------------

  /** The exact condition, for any window, streams and outputs. If the outputs together fit the window, no
      schedule ever makes a pump wait, and some schedule completes. If they do not, some schedule hangs
      for ever and no schedule at all completes. */
  lemma OutputDichotomy(cfg: Config, streams: seq<StreamId>, outputs: seq<seq<u8>>)
    requires streams != [] && Distinct(streams) && |outputs| == |streams| && !cfg.dropPolicy
    requires cfg.initialWindow + |streams| * MAX_PAYLOAD_SIZE < U64_MODULUS
    ensures TotalOutput(outputs) <= cfg.initialWindow <==>
              forall acts :: Legal(cfg, Init(cfg, streams, 0), acts) ==>
                !Hung(Exec(cfg, Init(cfg, streams, 0), acts), outputs)
    ensures TotalOutput(outputs) <= cfg.initialWindow <==>
              exists acts :: Legal(cfg, Init(cfg, streams, 0), acts)
                             && Completed(Exec(cfg, Init(cfg, streams, 0), acts), outputs)
  {
    if TotalOutput(outputs) <= cfg.initialWindow {
      forall acts | Legal(cfg, Init(cfg, streams, 0), acts)
        ensures !Hung(Exec(cfg, Init(cfg, streams, 0), acts), outputs)
      {
        NeverHung(cfg, streams, outputs, acts);
      }
      hide Hung, Legal, Exec, Init, TotalOutput;
      var acts := EndAll(cfg, streams, outputs, |streams|);
      assert Completed(Exec(cfg, Init(cfg, streams, 0), acts), outputs);
    } else {
      var acts := HangingRun(cfg, streams, outputs);
      hide Hung, Legal, Exec, Init, TotalOutput;
      forall acts | Legal(cfg, Init(cfg, streams, 0), acts)
        ensures !Completed(Exec(cfg, Init(cfg, streams, 0), acts), outputs)
      {
        NeverCompleted(cfg, streams, outputs, acts);
      }
    }
  }

  lemma NeverHung(cfg: Config, streams: seq<StreamId>, outputs: seq<seq<u8>>, acts: seq<Action>)
    requires Distinct(streams) && TotalOutput(outputs) <= cfg.initialWindow && Legal(cfg, Init(cfg, streams, 0), acts)
    ensures !Hung(Exec(cfg, Init(cfg, streams, 0), acts), outputs)
  {
    var s := Exec(cfg, Init(cfg, streams, 0), acts);
    if Hung(s, outputs) {
      var i :| 0 <= i < |s.pumps| && s.pumps[i].pc.Parked?;
      SumBelow(ReadSizes(s.pumps), OutputSizes(outputs), 0, 0);
      NothingRefused(cfg, streams, acts, i);
    }
  }

  lemma NeverCompleted(cfg: Config, streams: seq<StreamId>, outputs: seq<seq<u8>>, acts: seq<Action>)
    requires streams != [] && Distinct(streams) && !cfg.dropPolicy
    requires cfg.initialWindow + |streams| * MAX_PAYLOAD_SIZE < U64_MODULUS
    requires TotalOutput(outputs) > cfg.initialWindow && Legal(cfg, Init(cfg, streams, 0), acts)
    ensures !Completed(Exec(cfg, Init(cfg, streams, 0), acts), outputs)
  {
    var s := Exec(cfg, Init(cfg, streams, 0), acts);
    assert Completed(s, outputs) ==> ReadSizes(s.pumps) == OutputSizes(outputs);
    if Completed(s, outputs) {
      assert forall p :: p in s.pumps ==> p.pc.Ended?;
      CompletedFitsWindow(cfg, streams, acts);
    }
  }

  /** As the server wires it: up to 65536 bytes of output in all a job never waits and can complete; beyond
      that some schedule hangs and none completes. */
  lemma CompletedOutputAsWired(cfg: Config, stdout: seq<u8>, stderr: seq<u8>)
    requires cfg.initialWindow == DEFAULT_WINDOW_SIZE && !cfg.dropPolicy
    ensures |stdout| + |stderr| <= 65_536 <==>
              forall acts :: Legal(cfg, Init(cfg, [Stdout, Stderr], 0), acts) ==>
                !Hung(Exec(cfg, Init(cfg, [Stdout, Stderr], 0), acts), [stdout, stderr])
    ensures |stdout| + |stderr| <= 65_536 <==>
              exists acts :: Legal(cfg, Init(cfg, [Stdout, Stderr], 0), acts)
                             && Completed(Exec(cfg, Init(cfg, [Stdout, Stderr], 0), acts), [stdout, stderr])
  {
    TwoOutputs(stdout, stderr);
    hide Hung, Completed, Legal, Exec, Init, TotalOutput;
    OutputDichotomy(cfg, [Stdout, Stderr], [stdout, stderr]);
  }

  lemma TwoOutputs(stdout: seq<u8>, stderr: seq<u8>)
    ensures TotalOutput([stdout, stderr]) == |stdout| + |stderr|
  {
    assert OutputSizes([stdout, stderr]) == [|stdout|, |stderr|];
    assert Sum([|stdout|, |stderr|]) == |stdout| + Sum([|stderr|]);
  }
}
