/** What an output pump and the channel do over whole runs, apart from the window: when a pump stops reading,
    what makes it send its end marker, how full the channel gets (src/io_pump.rs, src/pipe_server.rs). */
module PumpLaws {
  import opened MachineWords
  import opened Protocol
  import opened Streaming
  import opened WindowBound

  // --- Cancellation --------------------------------------------------------------------------

  /** What a pump has read, and one chunk more if a read is under way. */
  function ReadOrReading(p: Pump): nat {
    |p.read| + if p.pc.Reading? then 32_768 else 0
  }

  /** Once the token is cancelled a pump finishes the read it is in, if any, and reads no more. */
  lemma {:induction false} CancelledPumpStopsReading(cfg: Config, s: Conn, acts: seq<Action>, i: nat)
    requires Legal(cfg, s, acts) && s.cancelled && i < |s.pumps|
    ensures var t := Exec(cfg, s, acts);
            t.cancelled && i < |t.pumps| && ReadOrReading(t.pumps[i]) <= ReadOrReading(s.pumps[i])
    decreases |acts|
  {
    if acts != [] {
      hide Admits, Settle;
      var s' := Apply(cfg, s, acts[0]);
      assert s'.cancelled && i < |s'.pumps| && ReadOrReading(s'.pumps[i]) <= ReadOrReading(s.pumps[i]);
      hide Apply, Enabled;
      CancelledPumpStopsReading(cfg, s', acts[1..], i);
    }
  }

  // --- The end marker ------------------------------------------------------------------------

  /** The end marker is among the frames the pump has built. */
  predicate HasEosFrame(p: Pump) {
    exists f :: f in p.settled + InHand(p.pc) && f.flags % 2 == 1
  }

  /** Somewhere in the run the pump comes to the end of its pipe, or sees the token cancelled. */
  predicate ReachesEnd(cfg: Config, s: Conn, acts: seq<Action>, i: nat)
    requires Legal(cfg, s, acts)
    decreases |acts|
  {
    acts != []
    && (|| acts[0] == PumpAct(i, ReadEof)
        || (acts[0] == PumpAct(i, SeeToken) && s.cancelled)
        || ReachesEnd(cfg, Apply(cfg, s, acts[0]), acts[1..], i))
  }

  lemma MoveBuildsEos(cfg: Config, s: Conn, p: Pump, e: PumpEvent)
    requires PumpEnabled(s, p, e)
    ensures var p' := MovePump(cfg, s, p, e);
            && (HasEosFrame(p') ==> HasEosFrame(p) || e == ReadEof || (e == SeeToken && s.cancelled))
            && (e == ReadEof || (e == SeeToken && s.cancelled) || HasEosFrame(p) ==> HasEosFrame(p'))
  {
    var p' := MovePump(cfg, s, p, e);
    var before, after := p.settled + InHand(p.pc), p'.settled + InHand(p'.pc);
    if e == ReadEof || (e == SeeToken && s.cancelled) {
      assert p'.pc.frame in after;
    } else if e.ReadChunk? {
      assert after == before + [p'.pc.frame];
    } else {
      assert after == before;
    }
  }

  lemma StepBuildsEos(cfg: Config, s: Conn, a: Action, i: nat)
    requires Enabled(cfg, s, a) && i < |s.pumps|
    ensures i < |Apply(cfg, s, a).pumps|
    ensures var p := Apply(cfg, s, a).pumps[i];
            HasEosFrame(p)
            <==> HasEosFrame(s.pumps[i]) || a == PumpAct(i, ReadEof) || (a == PumpAct(i, SeeToken) && s.cancelled)
  {
    if a.PumpAct? {
      MoveBuildsEos(cfg, s, s.pumps[a.i], a.event);
      hide MovePump, HasEosFrame;
    } else if a.UpdateAct? {
      var p' := Apply(cfg, s, a).pumps[i];
      assert p'.settled + InHand(p'.pc) == s.pumps[i].settled + InHand(s.pumps[i].pc);
    }
  }

  /** A pump builds its end marker iff it comes to the end of its pipe or sees the token cancelled: never
      after a failed read, and always otherwise. */
  lemma {:induction false} EosIffEndReached(cfg: Config, s: Conn, acts: seq<Action>, i: nat)
    requires Legal(cfg, s, acts) && i < |s.pumps|
    ensures var t := Exec(cfg, s, acts);
            i < |t.pumps| && (HasEosFrame(t.pumps[i]) <==> HasEosFrame(s.pumps[i]) || ReachesEnd(cfg, s, acts, i))
    decreases |acts|
  {
    hide HasEosFrame, Apply, Enabled;
    if acts != [] {
      StepBuildsEos(cfg, s, acts[0], i);
      EosIffEndReached(cfg, Apply(cfg, s, acts[0]), acts[1..], i);
    }
  }

  // --- The channel and the credit ------------------------------------------------------------

  /** The channel never holds more than 256 frames. */
  lemma {:induction false} ChannelIsBounded(cfg: Config, s: Conn, acts: seq<Action>)
    requires Legal(cfg, s, acts) && |s.begun| <= |s.queued| <= |s.begun| + 256
    ensures var t := Exec(cfg, s, acts); |t.begun| <= |t.queued| <= |t.begun| + 256
    decreases |acts|
  {
    if acts != [] {
      var s' := Apply(cfg, s, acts[0]);
      assert |s'.begun| <= |s'.queued| <= |s'.begun| + 256;
      hide Apply, Enabled;
      ChannelIsBounded(cfg, s', acts[1..]);
    }
  }

  /** A pump whose frame is charged is held up exactly by a full channel, and fails exactly on a closed one. */
  lemma SenderWaitsForRoom(cfg: Config, s: Conn, i: nat)
    requires i < |s.pumps| && s.pumps[i].pc.Charged?
    ensures Enabled(cfg, s, PumpAct(i, Enqueue)) <==> !s.closed && |s.queued| - |s.begun| < 256
    ensures Enabled(cfg, s, PumpAct(i, EnqueueFails)) <==> s.closed
    ensures Enabled(cfg, s, PumpAct(i, Enqueue)) ==>
              Apply(cfg, s, PumpAct(i, Enqueue)).queued == s.queued + [s.pumps[i].pc.frame]
  {
  }

  function CreditOf(a: Action): nat {
    if a.UpdateAct? && a.update.Credit? then a.update.bytes else 0
  }

  /** The bytes that a run's updates acknowledge. */
  function Credits(acts: seq<Action>): nat {
    if acts == [] then 0 else CreditOf(acts[0]) + Credits(acts[1..])
  }

  lemma StepCredits(cfg: Config, s: Conn, a: Action)
    requires Enabled(cfg, s, a)
    ensures var t := Apply(cfg, s, a);
            t.granted == s.granted + CreditOf(a) && t.window == (s.window + CreditOf(a)) % 0x1_0000_0000_0000_0000
  {
  }

  lemma WrapTwice(x: nat, y: nat)
    ensures (x % 0x1_0000_0000_0000_0000 + y) % 0x1_0000_0000_0000_0000 == (x + y) % 0x1_0000_0000_0000_0000
  {
  }

  /** The window grows by exactly these, modulo 2^64. */
  lemma {:induction false} WindowIsCredited(cfg: Config, s: Conn, acts: seq<Action>)
    requires Legal(cfg, s, acts)
    ensures var t := Exec(cfg, s, acts);
            t.granted == s.granted + Credits(acts) && t.window == (s.window + Credits(acts)) % 0x1_0000_0000_0000_0000
    decreases |acts|
  {
    hide Apply, Enabled, CreditOf;
    if acts != [] {
      StepCredits(cfg, s, acts[0]);
      WindowIsCredited(cfg, Apply(cfg, s, acts[0]), acts[1..]);
      WrapTwice(s.window + CreditOf(acts[0]), Credits(acts[1..]));
    }
  }

  // --- The other senders and the writer ------------------------------------------------------

  /** From the start on, other tasks can send what is not this job's output. */
  lemma OthersCanSend(cfg: Config, streams: seq<StreamId>, updaters: nat, f: Frame)
    requires f.frameType != Output || f.jobId != cfg.jobId
    ensures Legal(cfg, Init(cfg, streams, updaters), [Foreign(f)])
    ensures Exec(cfg, Init(cfg, streams, updaters), [Foreign(f)]).queued == [f]
  {
    ExecOne(cfg, Init(cfg, streams, updaters), Foreign(f));
  }

  /** The writer gives up at a frame that is too large, having written all before it, and a writer that has
      given up writes nothing more. */
  lemma {:induction false} ClosedWriterWritesNothing(cfg: Config, s: Conn, acts: seq<Action>)
    requires Legal(cfg, s, acts) && s.closed
    ensures var t := Exec(cfg, s, acts); t.closed && t.wire == s.wire && t.begun == s.begun
    decreases |acts|
  {
    if acts != [] {
      var s' := Apply(cfg, s, acts[0]);
      assert s'.closed && s'.wire == s.wire && s'.begun == s.begun;
      hide Apply, Enabled;
      ClosedWriterWritesNothing(cfg, s', acts[1..]);
    }
  }

  lemma OversizedFrameStopsWriter(cfg: Config, s: Conn)
    requires Enabled(cfg, s, Take) && |s.queued[|s.begun|].payload| > 32_768
    ensures Apply(cfg, s, Take) == s.(closed := true)
  {
  }
}
