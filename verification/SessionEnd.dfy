/** When a client session can end: it waits for its writer, which stops, short of a failed write, only after
    every sender is gone and the channel is drained (src/pipe_server.rs). */
module SessionEnd {
  import opened MachineWords
  import opened Protocol
  import opened PipeFraming
  import opened Streaming
  import opened WindowBound
  import opened WindowWitnesses
  import opened Delivery
  import opened OutputBound

  /** The pump task has returned and dropped its sender. */
  predicate IsOver(pc: Pc) {
    pc.Ended? || pc.ReadFailed? || pc.SendFailed?
  }

  predicate SendersGone(s: Conn) {
    s.others == 0 && forall i :: 0 <= i < |s.pumps| ==> IsOver(s.pumps[i].pc)
  }

  /** The writer has written everything and receives nothing any more. */
  predicate WriterEnds(s: Conn) {
    !s.closed && SendersGone(s) && s.begun == s.queued && s.pending == []
  }

  /** Some continuation without a failed write ends the session. */
  ghost predicate CanEnd(cfg: Config, s: Conn) {
    exists more :: Legal(cfg, s, more) && WriterEnds(Exec(cfg, s, more))
  }

  /** No write has failed, and no frame sent so far makes the writer give up. */
  predicate Unharmed(s: Conn) {
    !s.closed && AllEncodable(s.queued)
  }

  // --- What holds when it ends ---------------------------------------------------------------

  /** When the writer ends, every frame ever sent has been written, in order and whole. */
  lemma EndedSessionIsComplete(cfg: Config, streams: seq<StreamId>, updaters: nat, acts: seq<Action>)
    requires Distinct(streams) && Legal(cfg, Init(cfg, streams, updaters), acts)
    requires WriterEnds(Exec(cfg, Init(cfg, streams, updaters), acts))
    ensures var s := Exec(cfg, Init(cfg, streams, updaters), acts);
            && s.wire == WireOf(cfg.host, s.queued)
            && ParseAll(s.wire).frames == HostViews(cfg.host, s.queued)
  {
    var s := Exec(cfg, Init(cfg, streams, updaters), acts);
    ReachableDelivery(cfg, streams, updaters, acts);
    hide Legal, Exec, Init, WireOf, PumpInv, ParseAll, HostViews;
    assert s.wire + s.pending == s.wire && s.wire + [] == s.wire;
    ParseWire(cfg.host, s.queued, []);
    ParseEmpty();
    hide AllEncodable;
    assert HostViews(cfg.host, s.queued) + [] == HostViews(cfg.host, s.queued);
  }

  lemma ParseEmpty()
    ensures ParseAll([]).frames == []
  {
  }

  // --- A waiting pump keeps the session open -------------------------------------------------

  /** A pump that waits for credit nobody will give holds its sender for ever. */
  lemma ParkedNeverEnds(cfg: Config, s: Conn, i: nat)
    requires s.updaters == [] && i < |s.pumps| && s.pumps[i].pc.Parked?
    ensures !CanEnd(cfg, s)
  {
    forall more | Legal(cfg, s, more) ensures !WriterEnds(Exec(cfg, s, more)) {
      ParkedForever(cfg, s, more, i);
    }
  }

  // --- Otherwise every session can end -------------------------------------------------------

  /** How many steps a pump is from its end if it reads no more. */
  function Work(pc: Pc): nat {
    match pc
    case Top => 6
    case Reading => 5
    case Offering(f) => if f.flags == FLAG_EOS then 4 else 11
    case FlightLoaded(f, _) => if f.flags == FLAG_EOS then 3 else 10
    case WindowLoaded(f, _, _) => if f.flags == FLAG_EOS then 2 else 9
    case Charged(f) => if f.flags == FLAG_EOS then 1 else 8
    case Refused(_) => 12
    case Parked(_) => 12
    case _ => 0
  }

  function Works(pumps: seq<Pump>): (works: seq<nat>)
    ensures |works| == |pumps|
  {
    seq(|pumps|, i requires 0 <= i < |pumps| => Work(pumps[i].pc))
  }

  /** The pump's next step on its way to its end. */
  function NextMove(pc: Pc): PumpEvent {
    match pc
    case Reading => ReadEof
    case Offering(_) => LoadFlight
    case FlightLoaded(_, _) => LoadWindow
    case WindowLoaded(_, _, _) => Decide
    case Charged(_) => Enqueue
    case _ => SeeToken
  }

  /** Everything sent has been written, and what has been read fits the window. */
  predicate Drained(cfg: Config, s: Conn) {
    && FlowInv(cfg, s) && TotalRead(s.pumps) <= cfg.initialWindow
    && !s.closed && s.begun == s.queued && s.pending == []
  }

  lemma MoveWorks(cfg: Config, s: Conn, i: nat)
    requires i < |s.pumps| && !IsOver(s.pumps[i].pc) && !Waiting(s.pumps[i].pc) && ChannelHasRoom(s)
    ensures PumpEnabled(s, s.pumps[i], NextMove(s.pumps[i].pc))
    ensures var p' := MovePump(cfg, s, s.pumps[i], NextMove(s.pumps[i].pc));
            && (!Waiting(p'.pc) ==> Work(p'.pc) < Work(s.pumps[i].pc))
            && p'.read == s.pumps[i].read
  {
  }

  lemma InHandFits(cfg: Config, queued: seq<Frame>, p: Pump)
    requires PumpInv(cfg, queued, p) && p.pc.Charged?
    ensures Encodable(p.pc.frame)
  {
    hide AllData, Select, Kept, Payloads;
  }

  lemma WorksUpdate(pumps: seq<Pump>, i: nat, p: Pump)
    requires i < |pumps| && Work(p.pc) < Work(pumps[i].pc)
    ensures Sum(Works(pumps[i := p])) < Sum(Works(pumps))
  {
    assert Works(pumps[i := p]) == Works(pumps)[i := Work(p.pc)];
    SumUpdate(Works(pumps), i, Work(p.pc));
  }

  /** One pump comes one step closer to its end. */
  lemma MoveOn(cfg: Config, s: Conn, i: nat) returns (s': Conn)
    requires Drained(cfg, s) && i < |s.pumps| && !IsOver(s.pumps[i].pc)
    ensures var e := NextMove(s.pumps[i].pc);
            && PumpEnabled(s, s.pumps[i], e) && s' == PumpStep(cfg, s, i, e)
            && FlowInv(cfg, s') && TotalRead(s'.pumps) <= cfg.initialWindow
            && Sum(Works(s'.pumps)) < Sum(Works(s.pumps)) && |s'.pumps| == |s.pumps| && s'.others == s.others
            && !s'.closed && s'.begun == s.begun && s'.pending == []
            && (s'.queued == s.queued || exists f :: s'.queued == s.queued + [f] && Encodable(f))
  {
    var p, e := s.pumps[i], NextMove(s.pumps[i].pc);
    assert Flowing(s, p);
    MoveWorks(cfg, s, i);
    s' := PumpStep(cfg, s, i, e);
    StepKeepsFlow(cfg, s, PumpAct(i, e));
    TotalReadUpdate(s.pumps, i, s'.pumps[i]);
    assert PumpInv(cfg, s.queued, p);
    hide DeliveryInv, Conserved, TotalRead, MovePump, PumpInv, Works, Work;
    if e.Enqueue? {
      assert p.pc.Charged?;
      InHandFits(cfg, s.queued, p);
    }
    assert Flowing(s', s'.pumps[i]);
    WorksUpdate(s.pumps, i, s'.pumps[i]);
  }

  /** The step is taken, and what it may have sent is written at once. */
  lemma MoveAndDrain(cfg: Config, s: Conn, i: nat) returns (acts: seq<Action>)
    requires Drained(cfg, s) && i < |s.pumps| && !IsOver(s.pumps[i].pc)
    ensures Legal(cfg, s, acts)
    ensures var t := Exec(cfg, s, acts);
            Drained(cfg, t) && Sum(Works(t.pumps)) < Sum(Works(s.pumps)) && t.others == s.others
  {
    var s' := MoveOn(cfg, s, i);
    hide Legal, Exec, PumpStep, PumpEnabled, FlowInv, Works, TotalRead;
    acts := [PumpAct(i, NextMove(s.pumps[i].pc))];
    ExecOne(cfg, s, acts[0]);
    if s'.queued != s.queued {
      var more := DrainOne(cfg, s');
      RunKeepsFlow(cfg, s', more);
      ExecAppend(cfg, s, acts, more);
      acts := acts + more;
    }
  }

  /** All pumps come to their ends, one step at a time. */
  lemma {:induction false} EndPumps(cfg: Config, s: Conn) returns (acts: seq<Action>)
    requires Drained(cfg, s)
    ensures Legal(cfg, s, acts)
    ensures var t := Exec(cfg, s, acts);
            Drained(cfg, t) && t.others == s.others && forall i :: 0 <= i < |t.pumps| ==> IsOver(t.pumps[i].pc)
    decreases Sum(Works(s.pumps))
  {
    if i :| 0 <= i < |s.pumps| && !IsOver(s.pumps[i].pc) {
      acts := MoveAndDrain(cfg, s, i);
      hide Legal, Exec, Drained, Works;
      var more := EndPumps(cfg, Exec(cfg, s, acts));
      ExecAppend(cfg, s, acts, more);
      acts := acts + more;
    } else {
      acts := [];
    }
  }

  /** The remaining handles are dropped. */
  lemma {:induction false} DropAll(cfg: Config, s: Conn) returns (acts: seq<Action>)
    ensures Legal(cfg, s, acts) && Exec(cfg, s, acts) == s.(others := 0)
    decreases s.others
  {
    if s.others == 0 {
      acts := [];
    } else {
      ExecOne(cfg, s, DropSender);
      var s' := Exec(cfg, s, [DropSender]);
      hide Legal, Exec;
      var more := DropAll(cfg, s');
      ExecAppend(cfg, s, [DropSender], more);
      acts := [DropSender] + more;
    }
  }

  /** The writer catches up with the channel. */
  lemma {:induction false} DrainAll(cfg: Config, s: Conn) returns (acts: seq<Action>)
    requires Unharmed(s) && s.begun <= s.queued && s.pending == []
    ensures Legal(cfg, s, acts)
    ensures var t := Exec(cfg, s, acts);
            && !t.closed && t.begun == t.queued == s.queued && t.pending == []
            && t.pumps == s.pumps && t.others == s.others
    decreases |s.queued| - |s.begun|
  {
    if |s.begun| == |s.queued| {
      acts := [];
    } else {
      assert s.queued[|s.begun|] in s.queued;
      acts := DrainOne(cfg, s);
      var s' := Exec(cfg, s, acts);
      assert s'.begun == s.queued[..|s.begun| + 1];
      hide Legal, Exec;
      var more := DrainAll(cfg, s');
      ExecAppend(cfg, s, acts, more);
      acts := acts + more;
    }
  }

  /** First the frame under way. */
  lemma CatchUp(cfg: Config, s: Conn) returns (acts: seq<Action>)
    requires Unharmed(s) && s.begun <= s.queued
    ensures Legal(cfg, s, acts)
    ensures var t := Exec(cfg, s, acts);
            && !t.closed && t.begun == t.queued == s.queued && t.pending == []
            && t.pumps == s.pumps && t.others == s.others
  {
    if s.pending == [] {
      acts := DrainAll(cfg, s);
    } else {
      acts := [Put(|s.pending|)];
      ExecOne(cfg, s, acts[0]);
      var s' := Exec(cfg, s, acts);
      hide Legal, Exec;
      var more := DrainAll(cfg, s');
      ExecAppend(cfg, s, acts, more);
      acts := acts + more;
    }
  }

  /** Without updates: from every reachable moment at which what has been read fits the window, and however
      the tasks have raced so far, the session can still end. */
  lemma FittingSessionCanEnd(cfg: Config, streams: seq<StreamId>, acts: seq<Action>)
    requires Distinct(streams) && Legal(cfg, Init(cfg, streams, 0), acts)
    requires var s := Exec(cfg, Init(cfg, streams, 0), acts); Unharmed(s) && TotalRead(s.pumps) <= cfg.initialWindow
    ensures CanEnd(cfg, Exec(cfg, Init(cfg, streams, 0), acts))
  {
    var s := Exec(cfg, Init(cfg, streams, 0), acts);
    InitFlows(cfg, streams);
    RunKeepsFlow(cfg, Init(cfg, streams, 0), acts);
    ReachableDelivery(cfg, streams, 0, acts);
    hide Legal, Exec, Init, TotalRead, FlowInv;
    var first := CatchUp(cfg, s);
    var t := Exec(cfg, s, first);
    RunKeepsFlow(cfg, s, first);
    var second := EndPumps(cfg, t);
    var third := DropAll(cfg, Exec(cfg, t, second));
    ExecAppend(cfg, t, second, third);
    ExecAppend(cfg, s, first, second + third);
    assert WriterEnds(Exec(cfg, s, first + (second + third)));
  }

  /** A run that hangs, with nothing else the matter with the session. */
  lemma HangingSession(cfg: Config, streams: seq<StreamId>, outputs: seq<seq<u8>>) returns (acts: seq<Action>)
    requires Distinct(streams) && |outputs| == |streams| && !cfg.dropPolicy && cfg.initialWindow + 1 < U64_MODULUS
    requires TotalOutput(outputs) > cfg.initialWindow
    ensures Legal(cfg, Init(cfg, streams, 0), acts)
    ensures var s := Exec(cfg, Init(cfg, streams, 0), acts);
            Unharmed(s) && ReadsWithin(s.pumps, outputs) && !CanEnd(cfg, s)
  {
    acts := HangingRun(cfg, streams, outputs);
    var s := Exec(cfg, Init(cfg, streams, 0), acts);
    ReachableDelivery(cfg, streams, 0, acts);
    hide Legal, Exec, Init, TotalOutput, CanEnd, PumpInv;
    var i :| 0 <= i < |s.pumps| && s.pumps[i].pc.Parked?;
    ParkedNeverEnds(cfg, s, i);
  }

  /** As wired, a session is sure to be able to end iff the output of its job fits the window: if it does,
      the session can end from wherever a run may have taken it short of a failed write; if it does not, some
      run takes it where no continuation without a failed write ends it. */
  lemma SessionDichotomy(cfg: Config, streams: seq<StreamId>, outputs: seq<seq<u8>>)
    requires Distinct(streams) && |outputs| == |streams| && !cfg.dropPolicy && cfg.initialWindow + 1 < U64_MODULUS
    ensures TotalOutput(outputs) <= cfg.initialWindow <==>
              forall acts :: Legal(cfg, Init(cfg, streams, 0), acts)
                             && Unharmed(Exec(cfg, Init(cfg, streams, 0), acts))
                             && ReadsWithin(Exec(cfg, Init(cfg, streams, 0), acts).pumps, outputs)
                             ==> CanEnd(cfg, Exec(cfg, Init(cfg, streams, 0), acts))
  {
    hide Legal, Exec, Init, CanEnd, Unharmed;
    if TotalOutput(outputs) <= cfg.initialWindow {
      forall acts | Legal(cfg, Init(cfg, streams, 0), acts)
                    && Unharmed(Exec(cfg, Init(cfg, streams, 0), acts))
                    && ReadsWithin(Exec(cfg, Init(cfg, streams, 0), acts).pumps, outputs)
        ensures CanEnd(cfg, Exec(cfg, Init(cfg, streams, 0), acts))
      {
        SumBelow(ReadSizes(Exec(cfg, Init(cfg, streams, 0), acts).pumps), OutputSizes(outputs), 0, 0);
        FittingSessionCanEnd(cfg, streams, acts);
      }
    } else {
      var acts := HangingSession(cfg, streams, outputs);
    }
  }
}
