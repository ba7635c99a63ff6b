/** One connection as a step system, seen from one job: any number of output pumps sharing one
    `StreamPump`, window updaters, the frame channel and the writer task
    (src/io_pump.rs and src/pipe_server.rs). Every atomic access is a step of its own. */
module Streaming {
  import opened MachineWords
  import opened Protocol
  import opened PipeFraming

  const CHANNEL_CAPACITY := 256

  datatype Config = Config(host: HostOrder, jobId: u32, dropPolicy: bool, initialWindow: u64)

  function DataFrame(jobId: u32, stream: StreamId, sequence: u32, payload: seq<u8>): Frame {
    Frame(Output, stream, 0, jobId, sequence, payload)
  }

  function EosFrame(jobId: u32, stream: StreamId, sequence: u32): Frame {
    Frame(Output, stream, FLAG_EOS, jobId, sequence, [])
  }

  /** Where a pump task stands: in the loop of `start_output_pump` or inside `try_send_frame`. */
  datatype Pc =
    | Top
    | Reading
    | Offering(frame: Frame)
    | FlightLoaded(frame: Frame, flight: u64)
    | WindowLoaded(frame: Frame, flight: u64, window: u64)
    | Refused(frame: Frame)
    | Parked(frame: Frame)
    | Charged(frame: Frame)
    | Ended
    | ReadFailed
    | SendFailed(frame: Frame)

  /** `read` is every byte the child wrote that this pump has read; `settled` the frames whose fate is
      decided, in order, and `fates` whether each was delivered to the channel. */
  datatype Pump = Pump(
    stream: StreamId, pc: Pc, sequence: u32, read: seq<u8>, settled: seq<Frame>, fates: seq<bool>)

  /** A call of `update_window`, between its atomic accesses. */
  datatype Updater = Idle | Credited(bytes: u64) | Observed(bytes: u64, current: u64) | Debited

  /** `queued` is everything ever sent to the channel and `begun` what the writer has taken from it;
      `pending` are the bytes of the frame being written and `wire` all bytes written so far.
      `granted` and `accepted` count the bytes credited by updaters and charged by pumps. `others` counts the
      handles on the sending side that are not the pumps': the session's own and those of other tasks. */
  datatype Conn = Conn(
    window: u64, inFlight: u64, granted: nat, accepted: nat,
    pumps: seq<Pump>, updaters: seq<Updater>, cancelled: bool,
    queued: seq<Frame>, begun: seq<Frame>, pending: seq<u8>, wire: seq<u8>, closed: bool, others: nat)

  function Init(cfg: Config, streams: seq<StreamId>, updaters: nat): Conn {
    Conn(cfg.initialWindow, 0, 0, 0,
         seq(|streams|, i requires 0 <= i < |streams| => Pump(streams[i], Top, 0, [], [], [])),
         seq(updaters, _ => Idle), false, [], [], [], [], false, 1)
  }

  datatype PumpEvent =
    | SeeToken
    | ReadChunk(data: seq<u8>)
    | ReadNothing
    | ReadEof
    | ReadError
    | LoadFlight
    | LoadWindow
    | Decide
    | Park
    | Enqueue
    | EnqueueFails

  datatype UpdateEvent = Credit(bytes: u64) | Observe | Debit | Notify

  datatype Action =
    | PumpAct(i: nat, event: PumpEvent)
    | UpdateAct(j: nat, update: UpdateEvent)
    | CancelToken
    | Foreign(frame: Frame)
    | CloneSender
    | DropSender
    | Take
    | Put(k: nat)
    | Break

  /** The frame a pump has built and not yet settled. */
  function InHand(pc: Pc): seq<Frame> {
    match pc
    case Top => []
    case Reading => []
    case Ended => []
    case ReadFailed => []
    case _ => [pc.frame]
  }

  /** The window test of `try_send_frame`, on 64-bit words. */
  predicate Fits(flight: u64, window: u64, size: nat) {
    WrapU64(flight + size) <= window
  }

  predicate Admits(flight: u64, window: u64, frame: Frame) {
    Fits(flight, window, |frame.payload|)
  }

  predicate ChannelHasRoom(s: Conn) {
    !s.closed && |s.queued| < |s.begun| + CHANNEL_CAPACITY
  }

  predicate PumpEnabled(s: Conn, p: Pump, e: PumpEvent) {
    match e
    case SeeToken => p.pc.Top?
    case ReadChunk(data) => p.pc.Reading? && 1 <= |data| <= MAX_PAYLOAD_SIZE
    case ReadNothing => p.pc.Reading?
    case ReadEof => p.pc.Reading?
    case ReadError => p.pc.Reading?
    case LoadFlight => p.pc.Offering?
    case LoadWindow => p.pc.FlightLoaded?
    case Decide => p.pc.WindowLoaded?
    case Park => p.pc.Refused?
    case Enqueue => p.pc.Charged? && ChannelHasRoom(s)
    case EnqueueFails => p.pc.Charged? && s.closed
  }

  function Settle(p: Pump, frame: Frame, delivered: bool): Pump {
    p.(pc := if frame.flags == FLAG_EOS then Ended else Top,
       settled := p.settled + [frame],
       fates := p.fates + [delivered])
  }

  function MovePump(cfg: Config, s: Conn, p: Pump, e: PumpEvent): Pump
    requires PumpEnabled(s, p, e)
  {
    match e
    case SeeToken =>
      p.(pc := if s.cancelled then Offering(EosFrame(cfg.jobId, p.stream, p.sequence)) else Reading)
    case ReadChunk(data) =>
      p.(pc := Offering(DataFrame(cfg.jobId, p.stream, p.sequence, data)),
         sequence := WrapU32(p.sequence + 1),
         read := p.read + data)
    case ReadNothing => p.(pc := Top)
    case ReadEof => p.(pc := Offering(EosFrame(cfg.jobId, p.stream, p.sequence)))
    case ReadError => p.(pc := ReadFailed)
    case LoadFlight => p.(pc := FlightLoaded(p.pc.frame, s.inFlight))
    case LoadWindow => p.(pc := WindowLoaded(p.pc.frame, p.pc.flight, s.window))
    case Decide =>
      if Admits(p.pc.flight, p.pc.window, p.pc.frame) then p.(pc := Charged(p.pc.frame))
      else if cfg.dropPolicy then Settle(p, p.pc.frame, false)
      else p.(pc := Refused(p.pc.frame))
    case Park => p.(pc := Parked(p.pc.frame))
    case Enqueue => Settle(p, p.pc.frame, true)
    case EnqueueFails => p.(pc := SendFailed(p.pc.frame))
  }

  function PumpStep(cfg: Config, s: Conn, i: nat, e: PumpEvent): Conn
    requires i < |s.pumps| && PumpEnabled(s, s.pumps[i], e)
  {
    var p := s.pumps[i];
    var moved := s.(pumps := s.pumps[i := MovePump(cfg, s, p, e)]);
    if e.Decide? && Admits(p.pc.flight, p.pc.window, p.pc.frame) then
      moved.(inFlight := WrapU64(s.inFlight + |p.pc.frame.payload|),
             accepted := s.accepted + |p.pc.frame.payload|)
    else if e.Enqueue? then
      moved.(queued := s.queued + [p.pc.frame])
    else
      moved
  }

  predicate UpdateEnabled(u: Updater, e: UpdateEvent) {
    match e
    case Credit(_) => u.Idle?
    case Observe => u.Credited?
    case Debit => u.Observed?
    case Notify => u.Debited?
  }

  /** `notify_waiters`: every pump parked at this moment retries; later ones are not woken. */
  function WakeAll(pumps: seq<Pump>): (woken: seq<Pump>)
    ensures |woken| == |pumps|
  {
    seq(|pumps|, i requires 0 <= i < |pumps| =>
      if pumps[i].pc.Parked? then pumps[i].(pc := Offering(pumps[i].pc.frame)) else pumps[i])
  }

  function UpdateStep(s: Conn, j: nat, e: UpdateEvent): Conn
    requires j < |s.updaters| && UpdateEnabled(s.updaters[j], e)
  {
    var u := s.updaters[j];
    match e
    case Credit(bytes) =>
      s.(window := WrapU64(s.window + bytes), granted := s.granted + bytes,
         updaters := s.updaters[j := Credited(bytes)])
    case Observe =>
      s.(updaters := s.updaters[j := Observed(u.bytes, s.inFlight)])
    case Debit =>
      s.(inFlight := WrapU64(s.inFlight - Min(u.bytes, u.current)), updaters := s.updaters[j := Debited])
    case Notify =>
      s.(pumps := WakeAll(s.pumps), updaters := s.updaters[j := Idle])
  }

  /** Frames of this job's output streams come from its pumps only; anything else on the channel is
      some other task's. */
  predicate IsOutput(jobId: u32, stream: StreamId, f: Frame) {
    f.frameType == Output && f.jobId == jobId && f.streamId == stream
  }

  predicate Enabled(cfg: Config, s: Conn, a: Action) {
    match a
    case PumpAct(i, e) => i < |s.pumps| && PumpEnabled(s, s.pumps[i], e)
    case UpdateAct(j, e) => j < |s.updaters| && UpdateEnabled(s.updaters[j], e)
    case CancelToken => true
    case Foreign(f) =>
      s.others > 0 && ChannelHasRoom(s) && forall i :: 0 <= i < |s.pumps| ==> !IsOutput(cfg.jobId, s.pumps[i].stream, f)
    case CloneSender => s.others > 0
    case DropSender => s.others > 0
    case Take => !s.closed && s.pending == [] && |s.begun| < |s.queued|
    case Put(k) => !s.closed && 1 <= k <= |s.pending|
    case Break => true
  }

  function Apply(cfg: Config, s: Conn, a: Action): Conn
    requires Enabled(cfg, s, a)
  {
    match a
    case PumpAct(i, e) => PumpStep(cfg, s, i, e)
    case UpdateAct(j, e) => UpdateStep(s, j, e)
    case CancelToken => s.(cancelled := true)
    case Foreign(f) => s.(queued := s.queued + [f])
    case CloneSender => s.(others := s.others + 1)
    case DropSender => s.(others := s.others - 1)
    case Take =>
      var f := s.queued[|s.begun|];
      if Encodable(f) then s.(begun := s.begun + [f], pending := WireFrame(cfg.host, f)) else s.(closed := true)
    case Put(k) => s.(wire := s.wire + s.pending[..k], pending := s.pending[k..])
    case Break => s.(closed := true)
  }

  predicate Legal(cfg: Config, s: Conn, acts: seq<Action>)
    decreases |acts|
  {
    acts == [] || (Enabled(cfg, s, acts[0]) && Legal(cfg, Apply(cfg, s, acts[0]), acts[1..]))
  }

  /** The state after a run. */
  function Exec(cfg: Config, s: Conn, acts: seq<Action>): Conn
    requires Legal(cfg, s, acts)
    decreases |acts|
  {
    if acts == [] then s else Exec(cfg, Apply(cfg, s, acts[0]), acts[1..])
  }

  lemma {:induction false} ExecAppend(cfg: Config, s: Conn, first: seq<Action>, second: seq<Action>)
    requires Legal(cfg, s, first) && Legal(cfg, Exec(cfg, s, first), second)
    ensures Legal(cfg, s, first + second)
    ensures Exec(cfg, s, first + second) == Exec(cfg, Exec(cfg, s, first), second)
    decreases |first|
  {
    hide Enabled, Apply;
    if first == [] {
      assert first + second == second;
    } else {
      ExecAppend(cfg, Apply(cfg, s, first[0]), first[1..], second);
      assert (first + second)[0] == first[0] && (first + second)[1..] == first[1..] + second;
    }
  }

  lemma Extend(cfg: Config, s: Conn, acts: seq<Action>, a: Action)
    requires Legal(cfg, s, acts) && Enabled(cfg, Exec(cfg, s, acts), a)
    ensures Legal(cfg, s, acts + [a])
    ensures Exec(cfg, s, acts + [a]) == Apply(cfg, Exec(cfg, s, acts), a)
  {
    ExecOne(cfg, Exec(cfg, s, acts), a);
    ExecAppend(cfg, s, acts, [a]);
  }

  lemma ExecOne(cfg: Config, s: Conn, a: Action)
    requires Enabled(cfg, s, a)
    ensures Legal(cfg, s, [a]) && Exec(cfg, s, [a]) == Apply(cfg, s, a)
  {
    hide Enabled, Apply;
    var one := [a];
    assert one[0] == a && one[1..] == [];
    assert Legal(cfg, Apply(cfg, s, a), []);
  }

  // --- Sums over the pumps -------------------------------------------------------------------

  function Sum(xs: seq<nat>): nat {
    if xs == [] then 0 else xs[0] + Sum(xs[1..])
  }

  lemma {:induction false} SumUpdate(xs: seq<nat>, i: nat, v: nat)
    requires i < |xs|
    ensures Sum(xs[i := v]) == Sum(xs) - xs[i] + v
  {
    if i > 0 {
      SumUpdate(xs[1..], i - 1, v);
      assert xs[i := v][1..] == xs[1..][i - 1 := v];
    } else {
      assert xs[i := v][1..] == xs[1..];
    }
  }

  lemma {:induction false} SumBound(xs: seq<nat>, bound: nat)
    requires forall k :: 0 <= k < |xs| ==> xs[k] <= bound
    ensures Sum(xs) <= |xs| * bound
  {
    if xs != [] {
      SumBound(xs[1..], bound);
      assert |xs| * bound == (|xs| - 1) * bound + bound;
    }
  }

  function ReadSizes(pumps: seq<Pump>): (sizes: seq<nat>)
    ensures |sizes| == |pumps|
  {
    seq(|pumps|, i requires 0 <= i < |pumps| => |pumps[i].read|)
  }

  /** All the output that has been read so far. */
  function TotalRead(pumps: seq<Pump>): nat {
    Sum(ReadSizes(pumps))
  }

  lemma TotalReadUpdate(pumps: seq<Pump>, i: nat, p: Pump)
    requires i < |pumps|
    ensures TotalRead(pumps[i := p]) == TotalRead(pumps) - |pumps[i].read| + |p.read|
  {
    assert ReadSizes(pumps[i := p]) == ReadSizes(pumps)[i := |p.read|];
    SumUpdate(ReadSizes(pumps), i, |p.read|);
  }

  lemma {:induction false} SumZero(xs: seq<nat>)
    requires forall k :: 0 <= k < |xs| ==> xs[k] == 0
    ensures Sum(xs) == 0
  {
    SumBound(xs, 0);
  }

  /** Sums compare entry by entry, with room to spare at one of them. */
  lemma {:induction false} SumBelow(xs: seq<nat>, ys: seq<nat>, i: nat, room: nat)
    requires |xs| == |ys| && (forall k :: 0 <= k < |xs| ==> xs[k] <= ys[k])
    requires room == 0 || (i < |xs| && xs[i] + room <= ys[i])
    ensures Sum(xs) + room <= Sum(ys)
  {
    if xs != [] {
      SumBelow(xs[1..], ys[1..], if i == 0 then 0 else i - 1, if i == 0 then 0 else room);
    }
  }
}
