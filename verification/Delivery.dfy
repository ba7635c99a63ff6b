/** End-to-end delivery: what a client parses from any part of the byte stream, against what each pump
    read from the child (src/io_pump.rs, src/pipe_server.rs, src/protocol.rs). */
module Delivery {
  import opened MachineWords
  import opened Protocol
  import opened PipeFraming
  import opened Streaming
  import opened WindowBound

  // --- Views of a frame sequence -------------------------------------------------------------

  /** The demultiplexer: one output stream's frames, in order. */
  function Select(jobId: u32, stream: StreamId, frames: seq<Frame>): seq<Frame> {
    if frames == [] then []
    else
      var last := frames[|frames| - 1];
      Select(jobId, stream, frames[..|frames| - 1]) + if IsOutput(jobId, stream, last) then [last] else []
  }

  function Payloads(frames: seq<Frame>): seq<u8> {
    if frames == [] then [] else Payloads(frames[..|frames| - 1]) + frames[|frames| - 1].payload
  }

  /** The settled frames whose fate was delivery. */
  function Kept(settled: seq<Frame>, fates: seq<bool>): seq<Frame>
    requires |settled| == |fates|
  {
    if settled == [] then []
    else
      var n := |settled| - 1;
      Kept(settled[..n], fates[..n]) + if fates[n] then [settled[n]] else []
  }

  /** The demultiplexer takes a frame iff it is an OUTPUT frame of that job and stream. */
  lemma SelectOne(jobId: u32, stream: StreamId, frames: seq<Frame>, f: Frame)
    ensures Select(jobId, stream, frames + [f])
            == Select(jobId, stream, frames)
               + if f.frameType == Output && f.jobId == jobId && f.streamId == stream then [f] else []
  {
    assert (frames + [f])[..|frames|] == frames;
  }

  lemma PayloadsOne(frames: seq<Frame>, f: Frame)
    ensures Payloads(frames + [f]) == Payloads(frames) + f.payload
  {
    assert (frames + [f])[..|frames|] == frames;
  }

  lemma KeptOne(settled: seq<Frame>, fates: seq<bool>, f: Frame, fate: bool)
    requires |settled| == |fates|
    ensures Kept(settled + [f], fates + [fate]) == Kept(settled, fates) + if fate then [f] else []
  {
    assert (settled + [f])[..|settled|] == settled && (fates + [fate])[..|fates|] == fates;
  }

  lemma {:induction false} KeptAll(settled: seq<Frame>, fates: seq<bool>)
    requires |settled| == |fates| && forall k :: 0 <= k < |fates| ==> fates[k]
    ensures Kept(settled, fates) == settled
  {
    if settled != [] {
      var n := |settled| - 1;
      KeptAll(settled[..n], fates[..n]);
      assert settled == settled[..n] + [settled[n]];
    }
  }

  lemma {:induction false} SelectPrefix(jobId: u32, stream: StreamId, frames: seq<Frame>, n: nat)
    requires n <= |frames|
    ensures Select(jobId, stream, frames[..n]) <= Select(jobId, stream, frames)
  {
    if n < |frames| {
      var m := |frames| - 1;
      SelectPrefix(jobId, stream, frames[..m], n);
      assert frames[..m][..n] == frames[..n];
    } else {
      assert frames[..n] == frames;
    }
  }

  lemma {:induction false} PayloadsPrefix(frames: seq<Frame>, n: nat)
    requires n <= |frames|
    ensures Payloads(frames[..n]) <= Payloads(frames)
  {
    if n < |frames| {
      var m := |frames| - 1;
      PayloadsPrefix(frames[..m], n);
      assert frames[..m][..n] == frames[..n];
    } else {
      assert frames[..n] == frames;
    }
  }

  lemma {:induction false} SelectHostViews(host: HostOrder, jobId: u32, stream: StreamId, frames: seq<Frame>)
    ensures Select(ToBe32(host, jobId), stream, HostViews(host, frames))
            == HostViews(host, Select(jobId, stream, frames))
  {
    if frames != [] {
      hide Swap32, Swap16;
      var n := |frames| - 1;
      var last := frames[n];
      SelectHostViews(host, jobId, stream, frames[..n]);
      assert HostViews(host, frames)[..n] == HostViews(host, frames[..n]);
      ToBeInvolutive(host, 0, last.jobId);
      ToBeInvolutive(host, 0, jobId);
      assert IsOutput(ToBe32(host, jobId), stream, HostView(host, last)) <==> IsOutput(jobId, stream, last);
      var mine := Select(jobId, stream, frames[..n]);
      assert HostViews(host, mine + [last]) == HostViews(host, mine) + [HostView(host, last)];
      assert HostViews(host, mine + []) == HostViews(host, mine) + [];
    }
  }

  lemma {:induction false} PayloadsHostViews(host: HostOrder, frames: seq<Frame>)
    ensures Payloads(HostViews(host, frames)) == Payloads(frames)
  {
    if frames != [] {
      var n := |frames| - 1;
      PayloadsHostViews(host, frames[..n]);
      assert HostViews(host, frames)[..n] == HostViews(host, frames[..n]);
    }
  }

  // --- What every step keeps -----------------------------------------------------------------

  predicate IsData(cfg: Config, stream: StreamId, f: Frame, i: nat) {
    f == DataFrame(cfg.jobId, stream, WrapU32(i), f.payload) && 1 <= |f.payload| <= MAX_PAYLOAD_SIZE
  }

  predicate IsEos(cfg: Config, stream: StreamId, f: Frame, i: nat) {
    f == EosFrame(cfg.jobId, stream, WrapU32(i))
  }

  predicate AllData(cfg: Config, stream: StreamId, frames: seq<Frame>) {
    forall i :: 0 <= i < |frames| ==> IsData(cfg, stream, frames[i], i)
  }

  /** The shape of what a pump has produced so far, by where it stands. */
  predicate Phase(cfg: Config, p: Pump) {
    var n := |p.settled|;
    match p.pc
    case Top => AllData(cfg, p.stream, p.settled) && p.sequence == WrapU32(n)
    case Reading => AllData(cfg, p.stream, p.settled) && p.sequence == WrapU32(n)
    case ReadFailed => AllData(cfg, p.stream, p.settled)
    case Ended => n > 0 && AllData(cfg, p.stream, p.settled[..n - 1]) && IsEos(cfg, p.stream, p.settled[n - 1], n - 1)
    case _ =>
      && AllData(cfg, p.stream, p.settled)
      && (|| (IsData(cfg, p.stream, p.pc.frame, n) && p.sequence == WrapU32(n + 1))
          || (IsEos(cfg, p.stream, p.pc.frame, n) && p.sequence == WrapU32(n)))
  }

  predicate PumpInv(cfg: Config, queued: seq<Frame>, p: Pump) {
    && |p.settled| == |p.fates|
    && Phase(cfg, p)
    && Select(cfg.jobId, p.stream, queued) == Kept(p.settled, p.fates)
    && (!cfg.dropPolicy ==> forall k :: 0 <= k < |p.fates| ==> p.fates[k])
    && p.read == Payloads(p.settled + InHand(p.pc))
  }

  predicate WriterInv(cfg: Config, s: Conn) {
    && AllEncodable(s.begun)
    && s.begun <= s.queued
    && WireOf(cfg.host, s.begun) == s.wire + s.pending
  }

  predicate DistinctStreams(pumps: seq<Pump>) {
    forall i, j :: 0 <= i < j < |pumps| ==> pumps[i].stream != pumps[j].stream
  }

  predicate DeliveryInv(cfg: Config, s: Conn) {
    && DistinctStreams(s.pumps)
    && WriterInv(cfg, s)
    && forall i :: 0 <= i < |s.pumps| ==> PumpInv(cfg, s.queued, s.pumps[i])
  }

  lemma SettleKeepsPhase(cfg: Config, p: Pump, frame: Frame, delivered: bool)
    requires InHand(p.pc) == [frame] && Phase(cfg, p)
    ensures Phase(cfg, Settle(p, frame, delivered))
  {
    var n := |p.settled|;
    assert p.pc.frame == frame;
    assert (p.settled + [frame])[..n] == p.settled;
    assert IsData(cfg, p.stream, frame, n) ==> frame.flags == 0;
  }

  lemma InHandIsOutput(cfg: Config, queued: seq<Frame>, p: Pump)
    requires PumpInv(cfg, queued, p)
    ensures InHand(p.pc) != [] ==> IsOutput(cfg.jobId, p.stream, InHand(p.pc)[0])
  {
    hide AllData, Select, Kept, Payloads;
  }

  /** Settling the frame in hand, with delivery appending it to the channel. */
  lemma SettleKeepsInv(cfg: Config, queued: seq<Frame>, p: Pump, frame: Frame, delivered: bool)
    requires PumpInv(cfg, queued, p) && InHand(p.pc) == [frame] && (delivered || cfg.dropPolicy)
    ensures PumpInv(cfg, if delivered then queued + [frame] else queued, Settle(p, frame, delivered))
  {
    SettleKeepsPhase(cfg, p, frame, delivered);
    SettleKeepsFrames(cfg, queued, p, frame, delivered);
    hide Phase, Select, Kept, Payloads;
  }

  lemma SettleKeepsFrames(cfg: Config, queued: seq<Frame>, p: Pump, frame: Frame, delivered: bool)
    requires PumpInv(cfg, queued, p) && InHand(p.pc) == [frame]
    ensures var p' := Settle(p, frame, delivered);
            && Select(cfg.jobId, p.stream, if delivered then queued + [frame] else queued) == Kept(p'.settled, p'.fates)
            && p'.read == Payloads(p'.settled + InHand(p'.pc))
  {
    var p' := Settle(p, frame, delivered);
    InHandIsOutput(cfg, queued, p);
    hide Phase, Select, Kept, Payloads;
    KeptOne(p.settled, p.fates, frame, delivered);
    SelectOne(cfg.jobId, p.stream, queued, frame);
    assert p'.settled + InHand(p'.pc) == p.settled + InHand(p.pc);
  }

  /** Moves that settle nothing. */
  lemma PlainMoveKeepsPhase(cfg: Config, s: Conn, p: Pump, e: PumpEvent)
    requires PumpEnabled(s, p, e) && Phase(cfg, p)
    requires MovePump(cfg, s, p, e).settled == p.settled
    ensures Phase(cfg, MovePump(cfg, s, p, e))
  {
    hide AllData;
  }

  lemma MoveKeepsInv(cfg: Config, s: Conn, i: nat, e: PumpEvent)
    requires i < |s.pumps| && PumpEnabled(s, s.pumps[i], e) && PumpInv(cfg, s.queued, s.pumps[i])
    ensures PumpInv(cfg, PumpStep(cfg, s, i, e).queued, PumpStep(cfg, s, i, e).pumps[i])
  {
    hide Phase, Select, Kept, Payloads;
    var p := s.pumps[i];
    var p' := MovePump(cfg, s, p, e);
    if p'.settled != p.settled {
      SettleKeepsInv(cfg, s.queued, p, p.pc.frame, e.Enqueue?);
    } else {
      PlainMoveKeepsPhase(cfg, s, p, e);
      assert p.settled + [] == p.settled;
      if InHand(p'.pc) != [] {
        PayloadsOne(p.settled, p'.pc.frame);
      }
    }
  }

  /** Another task's frame does not touch a pump's own stream. */
  lemma OtherFrameKeepsInv(cfg: Config, queued: seq<Frame>, p: Pump, f: Frame)
    requires PumpInv(cfg, queued, p) && !IsOutput(cfg.jobId, p.stream, f)
    ensures PumpInv(cfg, queued + [f], p)
  {
    hide Phase, Kept, Payloads;
    SelectOne(cfg.jobId, p.stream, queued, f);
  }

  lemma PumpKeepsDelivery(cfg: Config, s: Conn, i: nat, e: PumpEvent)
    requires DeliveryInv(cfg, s) && i < |s.pumps| && PumpEnabled(s, s.pumps[i], e)
    ensures DeliveryInv(cfg, PumpStep(cfg, s, i, e))
  {
    hide PumpInv, WireOf;
    var p := s.pumps[i];
    var s' := PumpStep(cfg, s, i, e);
    MoveKeepsInv(cfg, s, i, e);
    InHandIsOutput(cfg, s.queued, p);
    forall k | 0 <= k < |s'.pumps| ensures PumpInv(cfg, s'.queued, s'.pumps[k]) {
      if k != i && e.Enqueue? {
        OtherFrameKeepsInv(cfg, s.queued, s.pumps[k], p.pc.frame);
      }
    }
  }

  lemma WriterKeepsDelivery(cfg: Config, s: Conn, a: Action)
    requires DeliveryInv(cfg, s) && Enabled(cfg, s, a) && (a.Take? || a.Put?)
    ensures DeliveryInv(cfg, Apply(cfg, s, a))
  {
    hide WireFrame, PumpInv, WireOf;
    if a.Take? {
      TakeKeepsWriter(cfg, s);
    } else {
      assert s.wire + s.pending == (s.wire + s.pending[..a.k]) + s.pending[a.k..];
    }
  }

  lemma TakeKeepsWriter(cfg: Config, s: Conn)
    requires WriterInv(cfg, s) && Enabled(cfg, s, Take)
    ensures WriterInv(cfg, Apply(cfg, s, Take))
  {
    hide WireFrame;
    var f := s.queued[|s.begun|];
    WireSnoc(cfg.host, s.begun + [f], |s.begun|);
    assert (s.begun + [f])[..|s.begun|] == s.begun && (s.begun + [f])[..|s.begun| + 1] == s.begun + [f];
    hide WireOf;
    assert s.wire + s.pending == s.wire;
  }

  lemma UpdateKeepsDelivery(cfg: Config, s: Conn, j: nat, e: UpdateEvent)
    requires DeliveryInv(cfg, s) && j < |s.updaters| && UpdateEnabled(s.updaters[j], e)
    ensures DeliveryInv(cfg, UpdateStep(s, j, e))
  {
    hide WireOf, Select, Kept, Payloads, AllData;
    var s' := UpdateStep(s, j, e);
    forall k | 0 <= k < |s'.pumps| ensures PumpInv(cfg, s'.queued, s'.pumps[k]) {
      assert InHand(s'.pumps[k].pc) == InHand(s.pumps[k].pc);
    }
  }

  lemma StepKeepsDelivery(cfg: Config, s: Conn, a: Action)
    requires DeliveryInv(cfg, s) && Enabled(cfg, s, a)
    ensures DeliveryInv(cfg, Apply(cfg, s, a))
  {
    hide PumpInv, WireOf, WireFrame, PumpStep, UpdateStep, PumpEnabled, UpdateEnabled;
    var s' := Apply(cfg, s, a);
    match a
    case PumpAct(i, e) => PumpKeepsDelivery(cfg, s, i, e);
    case UpdateAct(j, e) => UpdateKeepsDelivery(cfg, s, j, e);
    case Take => WriterKeepsDelivery(cfg, s, a);
    case Put(k) => WriterKeepsDelivery(cfg, s, a);
    case Foreign(f) =>
      forall k | 0 <= k < |s.pumps| ensures PumpInv(cfg, s'.queued, s'.pumps[k]) {
        OtherFrameKeepsInv(cfg, s.queued, s.pumps[k], f);
      }
    case _ =>
  }

  lemma {:induction false} RunKeepsDelivery(cfg: Config, s: Conn, acts: seq<Action>)
    requires DeliveryInv(cfg, s) && Legal(cfg, s, acts)
    ensures DeliveryInv(cfg, Exec(cfg, s, acts))
    decreases |acts|
  {
    if acts != [] {
      StepKeepsDelivery(cfg, s, acts[0]);
      RunKeepsDelivery(cfg, Apply(cfg, s, acts[0]), acts[1..]);
    }
  }

  predicate Distinct(streams: seq<StreamId>) {
    forall i, j :: 0 <= i < j < |streams| ==> streams[i] != streams[j]
  }

  lemma ReachableDelivery(cfg: Config, streams: seq<StreamId>, updaters: nat, acts: seq<Action>)
    requires Distinct(streams) && Legal(cfg, Init(cfg, streams, updaters), acts)
    ensures DeliveryInv(cfg, Exec(cfg, Init(cfg, streams, updaters), acts))
  {
    RunKeepsDelivery(cfg, Init(cfg, streams, updaters), acts);
  }

  lemma ReachablePump(cfg: Config, streams: seq<StreamId>, updaters: nat, acts: seq<Action>, i: nat)
    requires Distinct(streams) && i < |streams| && Legal(cfg, Init(cfg, streams, updaters), acts)
    ensures var s := Exec(cfg, Init(cfg, streams, updaters), acts);
            && DeliveryInv(cfg, s) && WriterInv(cfg, s)
            && |s.pumps| == |streams| && s.pumps[i].stream == streams[i]
            && PumpInv(cfg, s.queued, s.pumps[i])
            && |s.pumps[i].settled| == |s.pumps[i].fates|
            && (!cfg.dropPolicy ==> forall k :: 0 <= k < |s.pumps[i].fates| ==> s.pumps[i].fates[k])
  {
    hide Legal, Exec, Phase, Select;
    ReachableDelivery(cfg, streams, updaters, acts);
    RunKeepsCast(cfg, Init(cfg, streams, updaters), acts);
  }

  // --- Main results --------------------------------------------------------------------------

  /** The frames a client has parsed from the first `k` written bytes. */
  function Parsed(s: Conn, k: nat): seq<Frame>
    requires k <= |s.wire|
  {
    ParseAll(s.wire[..k]).frames
  }

  /** Whatever part of the written bytes has arrived, the client holds, as the host shows them, some
      prefix of what was sent to the channel, and then runs out of bytes inside a frame or between two. */
  lemma ClientSeesQueuePrefix(cfg: Config, s: Conn, k: nat) returns (n: nat)
    requires WriterInv(cfg, s) && k <= |s.wire|
    ensures n <= |s.begun| <= |s.queued|
    ensures Parsed(s, k) == HostViews(cfg.host, s.queued[..n])
    ensures ParseAll(s.wire[..k]).end == Truncated
  {
    hide WireOf, ParseAll, HostViews;
    n := FramesWithin(s.begun, k);
    ParseCutWire(cfg.host, s.begun, k);
    assert WireOf(cfg.host, s.begun)[..k] == s.wire[..k];
    assert s.begun[..n] == s.queued[..n];
  }

  /** The frames of a stream that the client has parsed are an initial part of that stream's delivered
      frames, whatever the drop policy. */
  lemma ClientSeesDelivered(cfg: Config, s: Conn, k: nat, i: nat) returns (m: nat)
    requires DeliveryInv(cfg, s) && k <= |s.wire| && i < |s.pumps|
    ensures var p := s.pumps[i];
            var kept := Kept(p.settled, p.fates);
            m <= |kept| && Select(ToBe32(cfg.host, cfg.jobId), p.stream, Parsed(s, k)) == HostViews(cfg.host, kept[..m])
  {
    hide WireOf, ParseAll, HostViews, Phase;
    var p := s.pumps[i];
    var n := ClientSeesQueuePrefix(cfg, s, k);
    SelectHostViews(cfg.host, cfg.jobId, p.stream, s.queued[..n]);
    SelectPrefix(cfg.jobId, p.stream, s.queued, n);
    var mine := Select(cfg.jobId, p.stream, s.queued[..n]);
    m := |mine|;
    assert Kept(p.settled, p.fates)[..m] == mine;
  }

  lemma DataCarriesNoFlag(cfg: Config, stream: StreamId, frames: seq<Frame>)
    ensures AllData(cfg, stream, frames) ==> forall j :: 0 <= j < |frames| ==> frames[j].flags == 0
  {
  }

  lemma EosIsLast(cfg: Config, p: Pump, j: nat)
    requires Phase(cfg, p) && j < |p.settled| && p.settled[j].flags == FLAG_EOS
    ensures p.pc.Ended? && j == |p.settled| - 1 && p.settled[j].payload == []
  {
    var n := |p.settled|;
    DataCarriesNoFlag(cfg, p.stream, p.settled);
    DataCarriesNoFlag(cfg, p.stream, p.settled[..n - 1]);
    assert forall k :: 0 <= k < n - 1 ==> p.settled[..n - 1][k] == p.settled[k];
    hide AllData;
  }

  /** The host views of a pump's first settled frames, as bytes: a prefix of what the pump has read, and
      everything if they include the end marker. */
  lemma ViewedPayloads(cfg: Config, queued: seq<Frame>, p: Pump, m: nat)
    requires PumpInv(cfg, queued, p) && m <= |p.settled|
    ensures var mine := HostViews(cfg.host, p.settled[..m]);
            && Payloads(mine) <= p.read
            && ((exists f :: f in mine && f.flags == ToBe16(cfg.host, FLAG_EOS)) ==> Payloads(mine) == p.read)
  {
    hide Select, Phase, Swap16, Swap32;
    var mine := HostViews(cfg.host, p.settled[..m]);
    PayloadsHostViews(cfg.host, p.settled[..m]);
    PayloadsPrefix(p.settled, m);
    PayloadsPrefix(p.settled + InHand(p.pc), |p.settled|);
    assert (p.settled + InHand(p.pc))[..|p.settled|] == p.settled;
    if exists f :: f in mine && f.flags == ToBe16(cfg.host, FLAG_EOS) {
      var f :| f in mine && f.flags == ToBe16(cfg.host, FLAG_EOS);
      var j :| 0 <= j < m && mine[j] == f;
      ToBeInvolutive(cfg.host, p.settled[j].flags, 0);
      ToBeInvolutive(cfg.host, FLAG_EOS, 0);
      EosIsLast(cfg, p, j);
      assert p.settled[..m] == p.settled;
      assert p.settled + InHand(p.pc) == p.settled;
    }
  }

  /** End-to-end streaming: with dropping off, for every interleaving of the pumps, the writer and
      everything else, and after any number of arrived bytes, a stream's parsed payloads are a prefix of
      what its pump has read, and all of it once the stream's end marker is among the parsed frames. */
  lemma EndToEnd(cfg: Config, streams: seq<StreamId>, updaters: nat, acts: seq<Action>, k: nat, i: nat)
    requires Distinct(streams) && !cfg.dropPolicy && i < |streams|
    requires Legal(cfg, Init(cfg, streams, updaters), acts)
    requires k <= |Exec(cfg, Init(cfg, streams, updaters), acts).wire|
    ensures var s := Exec(cfg, Init(cfg, streams, updaters), acts);
            && ParseAll(s.wire[..k]).end == Truncated
            && |s.pumps| == |streams|
            && var mine := Select(ToBe32(cfg.host, cfg.jobId), streams[i], Parsed(s, k));
               && Payloads(mine) <= s.pumps[i].read
               && ((exists f :: f in mine && f.flags == ToBe16(cfg.host, FLAG_EOS)) ==>
                     Payloads(mine) == s.pumps[i].read)
  {
    hide *;
    var s := Exec(cfg, Init(cfg, streams, updaters), acts);
    ReachablePump(cfg, streams, updaters, acts, i);
    var p := s.pumps[i];
    var n := ClientSeesQueuePrefix(cfg, s, k);
    var m := ClientSeesDelivered(cfg, s, k, i);
    KeptAll(p.settled, p.fates);
    ViewedPayloads(cfg, s.queued, p, m);
  }

  /** Field by field: the j-th frame carries j modulo 2^32; all are non-empty data frames without a flag
      that fit the payload limit, except that the last may be the empty end marker. */
  predicate Numbered(jobId: u32, stream: StreamId, frames: seq<Frame>) {
    forall j :: 0 <= j < |frames| ==>
      var f := frames[j];
      && f.frameType == Output && f.streamId == stream && f.jobId == jobId
      && f.sequenceNumber == j % 0x1_0000_0000
      && if f.flags == 0 then 1 <= |f.payload| <= 32_768
         else f.flags == 1 && f.payload == [] && j == |frames| - 1
  }

  lemma PhaseNumbers(cfg: Config, p: Pump)
    requires Phase(cfg, p)
    ensures Numbered(cfg.jobId, p.stream, p.settled + InHand(p.pc))
    ensures p.pc.Ended? <==> p.settled != [] && p.settled[|p.settled| - 1].flags == 1
  {
    var n := |p.settled|;
    var produced := p.settled + InHand(p.pc);
    assert p.pc.Ended? ==> forall j :: 0 <= j < n - 1 ==> p.settled[..n - 1][j] == produced[j];
  }

  /** Numbering and loss: a pump numbers its frames in order from zero; what it has read is the payloads
      of all of them; and its frames on the channel are exactly those not dropped, all of the settled
      ones when dropping is off. */
  lemma NumberedDelivery(cfg: Config, streams: seq<StreamId>, updaters: nat, acts: seq<Action>, i: nat)
    requires Distinct(streams) && i < |streams| && Legal(cfg, Init(cfg, streams, updaters), acts)
    ensures var s := Exec(cfg, Init(cfg, streams, updaters), acts);
            && |s.pumps| == |streams|
            && var p := s.pumps[i];
               && |p.fates| == |p.settled|
               && Numbered(cfg.jobId, streams[i], p.settled + InHand(p.pc))
               && (p.pc.Ended? <==> p.settled != [] && p.settled[|p.settled| - 1].flags == 1)
               && p.read == Payloads(p.settled + InHand(p.pc))
               && Select(cfg.jobId, streams[i], s.queued) == Kept(p.settled, p.fates)
               && (!cfg.dropPolicy ==> Select(cfg.jobId, streams[i], s.queued) == p.settled)
  {
    hide Legal, Exec, Phase, Select, Payloads;
    ReachablePump(cfg, streams, updaters, acts, i);
    var p := Exec(cfg, Init(cfg, streams, updaters), acts).pumps[i];
    PhaseNumbers(cfg, p);
    if !cfg.dropPolicy {
      KeptAll(p.settled, p.fates);
    }
  }

  // --- Conservation of the charged bytes -----------------------------------------------------

  /** The payload bytes a pump has charged to the window: its delivered frames, and the one whose charge
      is made but which is not yet on the channel. */
  function ChargedBy(p: Pump): nat
    requires |p.settled| == |p.fates|
  {
    |Payloads(Kept(p.settled, p.fates))|
    + if p.pc.Charged? || p.pc.SendFailed? then |p.pc.frame.payload| else 0
  }

  predicate Balanced(pumps: seq<Pump>) {
    forall i :: 0 <= i < |pumps| ==> |pumps[i].settled| == |pumps[i].fates|
  }

  function Charges(pumps: seq<Pump>): (charges: seq<nat>)
    requires Balanced(pumps)
    ensures |charges| == |pumps|
  {
    seq(|pumps|, i requires 0 <= i < |pumps| => ChargedBy(pumps[i]))
  }

  predicate Conserved(s: Conn) {
    Balanced(s.pumps) && s.accepted == Sum(Charges(s.pumps))
  }

  lemma MoveCharge(cfg: Config, s: Conn, i: nat, e: PumpEvent)
    requires i < |s.pumps| && Balanced(s.pumps) && PumpEnabled(s, s.pumps[i], e)
    ensures var s' := PumpStep(cfg, s, i, e);
            && Balanced(s'.pumps)
            && ChargedBy(s'.pumps[i]) - ChargedBy(s.pumps[i]) == s'.accepted - s.accepted
  {
    hide Kept, Payloads;
    var p := s.pumps[i];
    if e.Enqueue? || e.Decide? {
      KeptOne(p.settled, p.fates, p.pc.frame, e.Enqueue?);
      PayloadsOne(Kept(p.settled, p.fates), p.pc.frame);
      assert Kept(p.settled, p.fates) + [] == Kept(p.settled, p.fates);
    }
  }

  lemma StepConserves(cfg: Config, s: Conn, a: Action)
    requires Conserved(s) && Enabled(cfg, s, a)
    ensures Conserved(Apply(cfg, s, a))
  {
    hide ChargedBy;
    var s' := Apply(cfg, s, a);
    match a
    case PumpAct(i, e) =>
      MoveCharge(cfg, s, i, e);
      SumUpdate(Charges(s.pumps), i, ChargedBy(s'.pumps[i]));
      assert Charges(s'.pumps) == Charges(s.pumps)[i := ChargedBy(s'.pumps[i])];
    case UpdateAct(j, e) =>
      WakingChargesNothing(s.pumps);
    case _ =>
  }

  lemma WakingChargesNothing(pumps: seq<Pump>)
    requires Balanced(pumps)
    ensures Balanced(WakeAll(pumps)) && Charges(WakeAll(pumps)) == Charges(pumps)
  {
    assert Charges(WakeAll(pumps)) == Charges(pumps);
  }

  lemma {:induction false} RunConserves(cfg: Config, s: Conn, acts: seq<Action>)
    requires Conserved(s) && Legal(cfg, s, acts)
    ensures Conserved(Exec(cfg, s, acts))
    decreases |acts|
  {
    if acts != [] {
      StepConserves(cfg, s, acts[0]);
      RunConserves(cfg, Apply(cfg, s, acts[0]), acts[1..]);
    }
  }

  lemma EndedCharge(cfg: Config, queued: seq<Frame>, p: Pump)
    requires PumpInv(cfg, queued, p) && p.pc.Ended? && !cfg.dropPolicy
    ensures ChargedBy(p) == |p.read|
  {
    KeptAll(p.settled, p.fates);
    assert p.settled + InHand(p.pc) == p.settled;
  }

  // --- The end marker under the drop policy --------------------------------------------------

  predicate EosKept(p: Pump) {
    |p.settled| == |p.fates| && forall j :: 0 <= j < |p.settled| && p.settled[j].flags == FLAG_EOS ==> p.fates[j]
  }

  /** A lone pump that is refused holds a non-empty frame: an empty one fits what it loaded. */
  lemma SoleSenderDecides(cfg: Config, s: Conn)
    requires |s.pumps| == 1 && LoadsBounded(cfg, s) && s.pumps[0].pc.WindowLoaded?
    requires Phase(cfg, s.pumps[0])
    ensures var pc := s.pumps[0].pc;
            pc.frame.flags == FLAG_EOS ==> Admits(pc.flight, pc.window, pc.frame)
  {
    hide AllData;
  }

  lemma SettleKeepsEos(p: Pump, frame: Frame, delivered: bool)
    requires EosKept(p) && (frame.flags == FLAG_EOS ==> delivered)
    ensures EosKept(Settle(p, frame, delivered))
  {
  }

  lemma SoleSenderStep(cfg: Config, s: Conn, a: Action)
    requires |s.pumps| == 1 && WindowInv(cfg, s) && NoWrap(cfg, s) && Enabled(cfg, s, a)
    requires PumpInv(cfg, s.queued, s.pumps[0]) && EosKept(s.pumps[0])
    ensures |Apply(cfg, s, a).pumps| == 1 && EosKept(Apply(cfg, s, a).pumps[0])
  {
    hide Phase, Select, Kept, Payloads, Bounded, LoadsBounded, SmallPayloads, Admits;
    var p := s.pumps[0];
    if a.PumpAct? && (a.event.Decide? || a.event.Enqueue?) {
      if a.event.Decide? {
        SoleSenderDecides(cfg, s);
      }
      hide EosKept;
      SettleKeepsEos(p, p.pc.frame, a.event.Enqueue? || p.pc.frame.flags == FLAG_EOS);
    }
  }

  lemma {:induction false} SoleSenderRun(cfg: Config, s: Conn, acts: seq<Action>)
    requires |s.pumps| == 1 && WindowInv(cfg, s) && DeliveryInv(cfg, s) && Legal(cfg, s, acts)
    requires DebitsFit(cfg, s, acts)
    requires NoWrap(cfg, Exec(cfg, s, acts)) && EosKept(s.pumps[0])
    ensures |Exec(cfg, s, acts).pumps| == 1 && EosKept(Exec(cfg, s, acts).pumps[0])
    decreases |acts|
  {
    hide WindowInv, PumpInv, WriterInv, Enabled, Apply, EosKept, DebitFits;
    if acts != [] {
      GrantsOnlyGrow(cfg, s, acts);
      RunKeepsCast(cfg, s, acts);
      SoleSenderStep(cfg, s, acts[0]);
      StepKeepsWindow(cfg, s, acts[0]);
      StepKeepsDelivery(cfg, s, acts[0]);
      SoleSenderRun(cfg, Apply(cfg, s, acts[0]), acts[1..]);
    }
  }

  /** With one sender the end marker is never dropped, as long as the counters have not wrapped, neither by
      credit nor by a subtraction. */
  lemma SoleSenderKeepsEos(cfg: Config, stream: StreamId, updaters: nat, acts: seq<Action>)
    requires Legal(cfg, Init(cfg, [stream], updaters), acts)
    requires DebitsFit(cfg, Init(cfg, [stream], updaters), acts)
    requires NoWrap(cfg, Exec(cfg, Init(cfg, [stream], updaters), acts))
    ensures var s := Exec(cfg, Init(cfg, [stream], updaters), acts);
            |s.pumps| == 1 && EosKept(s.pumps[0])
  {
    InitWindow(cfg, [stream], updaters);
    SoleSenderRun(cfg, Init(cfg, [stream], updaters), acts);
  }
}
