/** Runs that attain the window bound, and runs that show why its conditions are there. */
module WindowWitnesses {
  import opened MachineWords
  import opened Protocol
  import opened PipeFraming
  import opened Streaming
  import opened WindowBound

  /** The largest payload that the window admits. */
  function Size(cfg: Config): nat {
    Min(cfg.initialWindow, MAX_PAYLOAD_SIZE)
  }

  function FullChunk(cfg: Config): (chunk: seq<u8>)
    ensures |chunk| == Size(cfg)
  {
    seq(Size(cfg), _ => 0)
  }

  /** One more step at the end of a run. */
  lemma Then(cfg: Config, s: Conn, acts: seq<Action>, a: Action) returns (longer: seq<Action>)
    requires Legal(cfg, s, acts) && Enabled(cfg, Exec(cfg, s, acts), a)
    ensures longer == acts + [a]
    ensures Legal(cfg, s, longer) && Exec(cfg, s, longer) == Apply(cfg, Exec(cfg, s, acts), a)
  {
    Extend(cfg, s, acts, a);
    longer := acts + [a];
  }

  lemma Start(cfg: Config, s: Conn)
    ensures Legal(cfg, s, []) && Exec(cfg, s, []) == s
  {
  }

  /** One pump reads `data` and loads both counters. */
  function LoadActs(i: nat, data: seq<u8>): seq<Action> {
    [PumpAct(i, SeeToken), PumpAct(i, ReadChunk(data)), PumpAct(i, LoadFlight), PumpAct(i, LoadWindow)]
  }

  lemma LoadRun(cfg: Config, s: Conn, i: nat, data: seq<u8>)
    requires i < |s.pumps| && s.pumps[i].pc.Top? && !s.cancelled
    requires 1 <= |data| <= MAX_PAYLOAD_SIZE
    ensures Legal(cfg, s, LoadActs(i, data))
    ensures var frame := DataFrame(cfg.jobId, s.pumps[i].stream, s.pumps[i].sequence, data);
            var p := s.pumps[i].(pc := WindowLoaded(frame, s.inFlight, s.window),
                                 sequence := WrapU32(s.pumps[i].sequence + 1),
                                 read := s.pumps[i].read + data);
            Exec(cfg, s, LoadActs(i, data)) == s.(pumps := s.pumps[i := p])
  {
    hide Legal, Exec;
    Start(cfg, s);
    var acts := Then(cfg, s, [], PumpAct(i, SeeToken));
    acts := Then(cfg, s, acts, PumpAct(i, ReadChunk(data)));
    acts := Then(cfg, s, acts, PumpAct(i, LoadFlight));
    acts := Then(cfg, s, acts, PumpAct(i, LoadWindow));
    assert acts == LoadActs(i, data);
  }

  // --- Pouring output through an undisturbed connection ---------------------------------------

  /** One pump sends one byte with fresh counters. */
  lemma SendByte(cfg: Config, s: Conn, i: nat, b: u8) returns (acts: seq<Action>)
    requires i < |s.pumps| && s.pumps[i].pc.Top? && !s.cancelled
    requires s.inFlight + 1 <= s.window && ChannelHasRoom(s)
    ensures Legal(cfg, s, acts)
    ensures var p := s.pumps[i];
            var frame := DataFrame(cfg.jobId, p.stream, p.sequence, [b]);
            Exec(cfg, s, acts)
            == s.(inFlight := s.inFlight + 1, accepted := s.accepted + 1, queued := s.queued + [frame],
                  pumps := s.pumps[i := Pump(p.stream, Top, WrapU32(p.sequence + 1), p.read + [b],
                                             p.settled + [frame], p.fates + [true])])
  {
    hide Legal, Exec;
    LoadRun(cfg, s, i, [b]);
    acts := Then(cfg, s, LoadActs(i, [b]), PumpAct(i, Decide));
    acts := Then(cfg, s, acts, PumpAct(i, Enqueue));
  }

  /** The writer takes one frame from the channel and writes it in one piece. */
  lemma DrainOne(cfg: Config, s: Conn) returns (acts: seq<Action>)
    requires !s.closed && s.pending == [] && |s.begun| < |s.queued| && Encodable(s.queued[|s.begun|])
    ensures Legal(cfg, s, acts)
    ensures var frame := s.queued[|s.begun|];
            Exec(cfg, s, acts) == s.(begun := s.begun + [frame], wire := s.wire + WireFrame(cfg.host, frame))
  {
    hide Legal, Exec, WireFrame;
    var bytes := WireFrame(cfg.host, s.queued[|s.begun|]);
    Start(cfg, s);
    acts := Then(cfg, s, [], Take);
    acts := Then(cfg, s, acts, Put(|bytes|));
    assert bytes[..|bytes|] == bytes && bytes[|bytes|..] == [];
  }

  /** What the children write, one entry a stream. */
  function OutputSizes(outputs: seq<seq<u8>>): (sizes: seq<nat>)
    ensures |sizes| == |outputs|
  {
    seq(|outputs|, i requires 0 <= i < |outputs| => |outputs[i]|)
  }

  function TotalOutput(outputs: seq<seq<u8>>): nat {
    Sum(OutputSizes(outputs))
  }

  /** Every pump has read an initial part of its child's output. */
  predicate ReadsWithin(pumps: seq<Pump>, outputs: seq<seq<u8>>) {
    |pumps| == |outputs| && forall i :: 0 <= i < |pumps| ==> pumps[i].read <= outputs[i]
  }

  /** Nothing but `t` bytes of output has happened, and all of it has left the channel. */
  predicate Poured(cfg: Config, s: Conn, outputs: seq<seq<u8>>, t: nat) {
    && ReadsWithin(s.pumps, outputs) && TotalRead(s.pumps) == t
    && (forall i :: 0 <= i < |s.pumps| ==> s.pumps[i].pc.Top?)
    && (forall i :: 0 <= i < |s.pumps| ==> |s.pumps[i].settled| == |s.pumps[i].fates|)
    && s.window == cfg.initialWindow && s.inFlight == t <= s.window
    && s.updaters == [] && !s.cancelled && !s.closed && s.begun == s.queued && s.pending == []
  }

  lemma SomeUnread(pumps: seq<Pump>, outputs: seq<seq<u8>>) returns (i: nat)
    requires ReadsWithin(pumps, outputs) && TotalRead(pumps) < TotalOutput(outputs)
    ensures i < |pumps| && |pumps[i].read| < |outputs[i]|
  {
    assert ReadSizes(pumps) != OutputSizes(outputs);
    i :| 0 <= i < |pumps| && ReadSizes(pumps)[i] != OutputSizes(outputs)[i];
  }

  lemma PourByte(cfg: Config, s: Conn, outputs: seq<seq<u8>>, t: nat, i: nat) returns (acts: seq<Action>)
    requires Poured(cfg, s, outputs, t) && t < cfg.initialWindow
    requires i < |s.pumps| && |s.pumps[i].read| < |outputs[i]|
    ensures Legal(cfg, s, acts) && Poured(cfg, Exec(cfg, s, acts), outputs, t + 1)
  {
    hide Legal, Exec;
    var p := s.pumps[i];
    var b := outputs[i][|p.read|];
    acts := SendByte(cfg, s, i, b);
    var sent := Exec(cfg, s, acts);
    TotalReadUpdate(s.pumps, i, sent.pumps[i]);
    assert sent.pumps[i].read <= outputs[i];
    hide TotalRead;
    var more := DrainOne(cfg, sent);
    ExecAppend(cfg, s, acts, more);
    acts := acts + more;
  }

  /** Any amount of the output that fits the window can be poured. */
  lemma {:induction false} Pour(cfg: Config, streams: seq<StreamId>, outputs: seq<seq<u8>>, t: nat)
    returns (acts: seq<Action>)
    requires |outputs| == |streams| && t <= TotalOutput(outputs) && t <= cfg.initialWindow
    ensures Legal(cfg, Init(cfg, streams, 0), acts)
    ensures Poured(cfg, Exec(cfg, Init(cfg, streams, 0), acts), outputs, t)
  {
    var s0 := Init(cfg, streams, 0);
    if t == 0 {
      Start(cfg, s0);
      SumZero(ReadSizes(s0.pumps));
      acts := [];
    } else {
      acts := Pour(cfg, streams, outputs, t - 1);
      hide Legal, Exec, Init, TotalRead, TotalOutput;
      var s := Exec(cfg, s0, acts);
      var i := SomeUnread(s.pumps, outputs);
      var more := PourByte(cfg, s, outputs, t - 1, i);
      ExecAppend(cfg, s0, acts, more);
      acts := acts + more;
    }
  }

  // --- The bound is reached ------------------------------------------------------------------

  /** The pumps before the `k`-th have loaded both counters while one full payload fitted exactly. */
  predicate Poised(cfg: Config, s: Conn, n: nat, k: nat) {
    && |s.pumps| == n && k <= n
    && s.window == cfg.initialWindow && s.inFlight == s.window - Size(cfg)
    && !s.cancelled && !s.closed && s.queued == s.begun
    && forall i :: 0 <= i < n ==>
         if i < k then Loaded(cfg, s.pumps[i].pc) else s.pumps[i].pc.Top?
  }

  predicate Loaded(cfg: Config, pc: Pc) {
    && pc.WindowLoaded? && pc.frame.flags == 0
    && pc.flight == cfg.initialWindow - Size(cfg) && pc.window == cfg.initialWindow
    && |pc.frame.payload| == Size(cfg)
  }

  /** The first `k` of the poised pumps have gone through the test they already passed in effect. */
  predicate Overrun(cfg: Config, s: Conn, n: nat, k: nat) {
    && |s.pumps| == n && k <= n
    && s.window == cfg.initialWindow && s.inFlight == s.window - Size(cfg) + Level(cfg, k)
    && !s.cancelled && !s.closed && s.queued == s.begun
    && forall i :: 0 <= i < n ==>
         if i < k then s.pumps[i].pc.Charged? && s.pumps[i].pc.frame.flags == 0 else Loaded(cfg, s.pumps[i].pc)
  }

  /** The first pump's child writes all but one payload of the window. */
  function Almost(cfg: Config, n: nat): (outputs: seq<seq<u8>>)
    requires n >= 1 && cfg.initialWindow >= 1
    ensures |outputs| == n && TotalOutput(outputs) >= cfg.initialWindow - Size(cfg)
  {
    [seq(cfg.initialWindow - Size(cfg), _ => 0)] + seq(n - 1, _ => [])
  }

  lemma {:induction false} PoiseAll(cfg: Config, streams: seq<StreamId>, k: nat) returns (acts: seq<Action>)
    requires streams != [] && cfg.initialWindow >= 1 && k <= |streams|
    ensures var s0 := Init(cfg, streams, 0);
            Legal(cfg, s0, acts) && Poised(cfg, Exec(cfg, s0, acts), |streams|, k)
  {
    var s0 := Init(cfg, streams, 0);
    hide Legal, Exec, Init;
    if k == 0 {
      acts := Pour(cfg, streams, Almost(cfg, |streams|), cfg.initialWindow - Size(cfg));
    } else {
      acts := PoiseAll(cfg, streams, k - 1);
      var s := Exec(cfg, s0, acts);
      LoadRun(cfg, s, k - 1, FullChunk(cfg));
      ExecAppend(cfg, s0, acts, LoadActs(k - 1, FullChunk(cfg)));
      acts := acts + LoadActs(k - 1, FullChunk(cfg));
    }
  }

  /** What `k` payloads come to. */
  function Level(cfg: Config, k: nat): nat {
    k * Size(cfg)
  }

  lemma NextLevel(cfg: Config, k: nat)
    ensures Level(cfg, k + 1) == Level(cfg, k) + Size(cfg)
    ensures Level(cfg, 0) == 0
  {
  }

  predicate InReach(cfg: Config, n: nat) {
    1 <= cfg.initialWindow && cfg.initialWindow + n * MAX_PAYLOAD_SIZE < U64_MODULUS
  }

  lemma SizesFit(cfg: Config, n: nat, k: nat)
    requires InReach(cfg, n) && k <= n
    ensures cfg.initialWindow + Level(cfg, k) < U64_MODULUS
  {
    TimesGrows(k, Size(cfg), MAX_PAYLOAD_SIZE);
    TimesGrows(MAX_PAYLOAD_SIZE, k, n);
    assert k * MAX_PAYLOAD_SIZE <= n * MAX_PAYLOAD_SIZE;
  }

  /** One more poised pump takes the step that its loaded counters allow. */
  lemma OverrunStep(cfg: Config, s: Conn, n: nat, k: nat)
    requires Overrun(cfg, s, n, k) && k < n && InReach(cfg, n)
    ensures PumpEnabled(s, s.pumps[k], Decide) && Overrun(cfg, PumpStep(cfg, s, k, Decide), n, k + 1)
  {
    SizesFit(cfg, n, k);
    NextLevel(cfg, k);
    hide Size, Level, Settle;
    assert Loaded(cfg, s.pumps[k].pc);
    assert Admits(s.pumps[k].pc.flight, s.pumps[k].pc.window, s.pumps[k].pc.frame);
  }

  lemma {:induction false} OverrunAll(cfg: Config, streams: seq<StreamId>, k: nat) returns (acts: seq<Action>)
    requires streams != [] && k <= |streams| && InReach(cfg, |streams|)
    ensures var s0 := Init(cfg, streams, 0);
            Legal(cfg, s0, acts) && Overrun(cfg, Exec(cfg, s0, acts), |streams|, k)
  {
    hide Legal, Exec, Init, Level, Size;
    if k == 0 {
      acts := PoiseAll(cfg, streams, |streams|);
      NextLevel(cfg, 0);
    } else {
      acts := OverrunAll(cfg, streams, k - 1);
      OverrunStep(cfg, Exec(cfg, Init(cfg, streams, 0), acts), |streams|, k - 1);
      hide Overrun, PumpStep, PumpEnabled;
      acts := Then(cfg, Init(cfg, streams, 0), acts, PumpAct(k - 1, Decide));
    }
  }

  /** The bound of `RacyWindowBound` is reached, for every number of pumps and every window. */
  lemma RacyWindowBoundIsTight(cfg: Config, streams: seq<StreamId>)
    requires streams != [] && cfg.initialWindow + |streams| * MAX_PAYLOAD_SIZE < U64_MODULUS
    ensures exists acts ::
              && Legal(cfg, Init(cfg, streams, 0), acts)
              && var s := Exec(cfg, Init(cfg, streams, 0), acts);
                 s.window == cfg.initialWindow && s.inFlight == s.window + Overshoot(|streams|, s.window)
  {
    if cfg.initialWindow == 0 {
      Start(cfg, Init(cfg, streams, 0));
    } else {
      var acts := OverrunAll(cfg, streams, |streams|);
      var n := |streams|;
      assert n * Size(cfg) == (n - 1) * Size(cfg) + Size(cfg);
      hide Legal, Exec, Init;
    }
  }

  // --- Why the bound has conditions ----------------------------------------------------------

  /** One pump reads `data` and makes the window test with fresh counters. */
  lemma SendRun(cfg: Config, s: Conn, i: nat, data: seq<u8>) returns (acts: seq<Action>)
    requires i < |s.pumps| && s.pumps[i].pc.Top? && !s.cancelled && !cfg.dropPolicy
    requires 1 <= |data| <= MAX_PAYLOAD_SIZE
    ensures Legal(cfg, s, acts)
    ensures var t := Exec(cfg, s, acts);
            var frame := DataFrame(cfg.jobId, s.pumps[i].stream, s.pumps[i].sequence, data);
            && t.window == s.window && t.updaters == s.updaters && |t.pumps| == |s.pumps| && t.granted == s.granted
            && if Admits(s.inFlight, s.window, frame)
               then t.inFlight == WrapU64(s.inFlight + |data|) && t.pumps[i].pc == Charged(frame)
               else t.inFlight == s.inFlight && t.pumps[i].pc == Refused(frame)
  {
    hide Legal, Exec;
    LoadRun(cfg, s, i, data);
    acts := Then(cfg, s, LoadActs(i, data), PumpAct(i, Decide));
  }

  /** Two overlapping updates both subtract what they saw in flight and drive the counter below zero:
      it wraps to an enormous value. */
  lemma TwoUpdatersUnderflow(cfg: Config)
    requires cfg.initialWindow == 10 && !cfg.dropPolicy
    ensures exists acts ::
              && Legal(cfg, Init(cfg, [Stdout], 2), acts)
              && var s := Exec(cfg, Init(cfg, [Stdout], 2), acts);
                 NoWrap(cfg, s) && s.inFlight == U64_MODULUS - 10
  {
    var data: seq<u8> := seq(10, _ => 0);
    var s0 := Init(cfg, [Stdout], 2);
    var acts := SendRun(cfg, s0, 0, data);
    hide Legal, Exec, Init;
    acts := BothObserve(cfg, s0, acts);
    acts := BothDebit(cfg, s0, acts);
  }

  lemma BothDebit(cfg: Config, s0: Conn, acts: seq<Action>) returns (longer: seq<Action>)
    requires Legal(cfg, s0, acts)
    requires var s := Exec(cfg, s0, acts); s.updaters == [Observed(10, 10), Observed(10, 10)] && s.inFlight == 10
    ensures Legal(cfg, s0, longer)
    ensures var s, t := Exec(cfg, s0, acts), Exec(cfg, s0, longer);
            t.inFlight == U64_MODULUS - 10 && t.granted == s.granted && t.pumps == s.pumps
  {
    hide Legal, Exec;
    longer := Then(cfg, s0, acts, UpdateAct(0, Debit));
    longer := Then(cfg, s0, longer, UpdateAct(1, Debit));
  }

  /** Two updates of ten bytes, both up to the subtraction. */
  lemma BothObserve(cfg: Config, s0: Conn, acts: seq<Action>) returns (longer: seq<Action>)
    requires Legal(cfg, s0, acts) && Exec(cfg, s0, acts).updaters == [Idle, Idle]
    ensures Legal(cfg, s0, longer)
    ensures var s, t := Exec(cfg, s0, acts), Exec(cfg, s0, longer);
            && t.inFlight == s.inFlight && t.granted == s.granted + 20 && t.pumps == s.pumps
            && t.updaters == [Observed(10, s.inFlight), Observed(10, s.inFlight)]
  {
    hide Legal, Exec;
    longer := Then(cfg, s0, acts, UpdateAct(0, Credit(10)));
    longer := Then(cfg, s0, longer, UpdateAct(1, Credit(10)));
    longer := Then(cfg, s0, longer, UpdateAct(0, Observe));
    longer := Then(cfg, s0, longer, UpdateAct(1, Observe));
  }

  /** Credit that carries the window past 64 bits leaves it far below the bytes in flight. */
  lemma WrappedWindowBreaksBound(cfg: Config)
    requires cfg.initialWindow == U64_MODULUS - 1 && !cfg.dropPolicy
    ensures exists acts ::
              && Legal(cfg, Init(cfg, [Stdout], 1), acts)
              && var s := Exec(cfg, Init(cfg, [Stdout], 1), acts);
                 s.window == 0 && s.inFlight == 10
  {
    var data: seq<u8> := seq(10, _ => 0);
    var s0 := Init(cfg, [Stdout], 1);
    var acts := SendRun(cfg, s0, 0, data);
    hide Legal, Exec;
    acts := Then(cfg, s0, acts, UpdateAct(0, Credit(1)));
  }

  /** With two or more senders and dropping on, the end marker itself can be dropped: the overshoot leaves
      less than no room, so even an empty frame is refused. */
  lemma EosDroppedWithTwoSenders(cfg: Config, streams: seq<StreamId>)
    requires |streams| >= 2 && InReach(cfg, |streams|) && cfg.dropPolicy
    ensures exists acts ::
              && Legal(cfg, Init(cfg, streams, 0), acts)
              && var s := Exec(cfg, Init(cfg, streams, 0), acts);
                 && |s.pumps| == |streams| && s.pumps[0].pc.Ended?
                 && var p := s.pumps[0];
                    |p.settled| == |p.fates| > 0
                    && p.settled[|p.settled| - 1].flags == FLAG_EOS && !p.fates[|p.fates| - 1]
  {
    var s0 := Init(cfg, streams, 0);
    var acts := OverrunAll(cfg, streams, |streams|);
    OneOver(cfg, |streams|);
    RunKeepsFates(cfg, s0, acts);
    hide Legal, Exec, LoadActs;
    acts := Then(cfg, s0, acts, PumpAct(0, Enqueue));
    var more := EosRun(cfg, Exec(cfg, s0, acts), 0);
    ExecAppend(cfg, s0, acts, more);
  }

  lemma OneOver(cfg: Config, n: nat)
    requires n >= 2 && cfg.initialWindow >= 1
    ensures Level(cfg, n) > Size(cfg)
  {
    TimesGrows(Size(cfg), 2, n);
    assert 2 * Size(cfg) > Size(cfg);
  }

  /** A pump at the end of its input makes the window test for its end marker. */
  lemma EosRun(cfg: Config, s: Conn, i: nat) returns (acts: seq<Action>)
    requires i < |s.pumps| && s.pumps[i].pc.Top? && !s.cancelled && cfg.dropPolicy && s.inFlight > s.window
    ensures Legal(cfg, s, acts)
    ensures Exec(cfg, s, acts)
            == s.(pumps := s.pumps[i := Settle(s.pumps[i], EosFrame(cfg.jobId, s.pumps[i].stream,
                                                                    s.pumps[i].sequence), false)])
  {
    hide Legal, Exec;
    Start(cfg, s);
    acts := Then(cfg, s, [], PumpAct(i, SeeToken));
    acts := Then(cfg, s, acts, PumpAct(i, ReadEof));
    acts := Then(cfg, s, acts, PumpAct(i, LoadFlight));
    acts := Then(cfg, s, acts, PumpAct(i, LoadWindow));
    acts := Then(cfg, s, acts, PumpAct(i, Decide));
  }

  lemma {:induction false} RunKeepsFates(cfg: Config, s: Conn, acts: seq<Action>)
    requires Legal(cfg, s, acts) && |s.pumps| > 0 && |s.pumps[0].settled| == |s.pumps[0].fates|
    ensures var t := Exec(cfg, s, acts); |t.pumps| > 0 && |t.pumps[0].settled| == |t.pumps[0].fates|
    decreases |acts|
  {
    if acts != [] {
      RunKeepsFates(cfg, Apply(cfg, s, acts[0]), acts[1..]);
    }
  }
}
