/** How far a shared `StreamPump` can overshoot its window, over all interleavings (src/io_pump.rs). */
module WindowBound {
  import opened MachineWords
  import opened Protocol
  import opened Streaming

  /** The payload a pump may still add on the strength of counters it loaded earlier, provided the
      window it compares with does not exceed `bound`. */
  function Claim(p: Pump, bound: nat): nat {
    if (p.pc.FlightLoaded? || p.pc.WindowLoaded?) && p.pc.flight + |p.pc.frame.payload| <= bound
    then |p.pc.frame.payload|
    else 0
  }

  function Claims(pumps: seq<Pump>, bound: nat): (claims: seq<nat>)
    ensures |claims| == |pumps|
  {
    seq(|pumps|, i requires 0 <= i < |pumps| => Claim(pumps[i], bound))
  }

  /** How far all pumps but one can go beyond a window: a payload each, and no payload exceeds the window. */
  function Overshoot(senders: nat, window: nat): int {
    (senders - 1) * Min(window, MAX_PAYLOAD_SIZE)
  }

  lemma OvershootGrows(senders: nat, window: nat, wider: nat)
    requires senders >= 1 && window <= wider
    ensures 0 <= Overshoot(senders, window) <= Overshoot(senders, wider) <= (senders - 1) * MAX_PAYLOAD_SIZE
  {
    TimesGrows(senders - 1, Min(window, MAX_PAYLOAD_SIZE), Min(wider, MAX_PAYLOAD_SIZE));
    TimesGrows(senders - 1, Min(wider, MAX_PAYLOAD_SIZE), MAX_PAYLOAD_SIZE);
  }

  lemma {:induction false} TimesGrows(n: nat, a: nat, b: nat)
    requires a <= b
    ensures 0 <= n * a <= n * b
  {
    if n > 0 {
      TimesGrows(n - 1, a, b);
      assert n * a == (n - 1) * a + a && n * b == (n - 1) * b + b;
    }
  }

  /** Nothing granted so far can have carried a 64-bit counter past its range. */
  predicate NoWrap(cfg: Config, s: Conn) {
    cfg.initialWindow + s.granted + |s.pumps| * MAX_PAYLOAD_SIZE < U64_MODULUS
  }

  predicate SmallPayloads(pumps: seq<Pump>) {
    forall i, f :: 0 <= i < |pumps| && f in InHand(pumps[i].pc) ==> |f.payload| <= MAX_PAYLOAD_SIZE
  }

  ghost predicate Bounded(s: Conn) {
    forall b: nat :: s.window <= b ==> s.inFlight + Sum(Claims(s.pumps, b)) <= b + Overshoot(|s.pumps|, b)
  }

  ghost predicate LoadsBounded(cfg: Config, s: Conn) {
    forall i :: 0 <= i < |s.pumps| ==>
      var pc := s.pumps[i].pc;
      && (pc.FlightLoaded? || pc.WindowLoaded? ==> pc.flight <= s.window + Overshoot(|s.pumps|, s.window))
      && (pc.WindowLoaded? ==> pc.window <= s.window)
      && (|s.pumps| == 1 && pc.FlightLoaded? ==> pc.flight <= s.window)
      && (|s.pumps| == 1 && pc.WindowLoaded? ==> pc.flight <= pc.window)
  }

  ghost predicate CreditInv(cfg: Config, s: Conn) {
    && s.window == cfg.initialWindow + s.granted
    && Bounded(s)
    && LoadsBounded(cfg, s)
    && forall j :: 0 <= j < |s.updaters| && s.updaters[j].Observed? ==>
         s.updaters[j].current <= s.window + Overshoot(|s.pumps|, s.window)
  }

  ghost predicate WindowInv(cfg: Config, s: Conn) {
    && |s.pumps| >= 1
    && SmallPayloads(s.pumps)
    && (NoWrap(cfg, s) ==> CreditInv(cfg, s))
  }

  lemma ClaimsUpdate(pumps: seq<Pump>, i: nat, p: Pump, b: nat)
    requires i < |pumps|
    ensures Sum(Claims(pumps[i := p], b)) == Sum(Claims(pumps, b)) - Claim(pumps[i], b) + Claim(p, b)
  {
    assert Claims(pumps[i := p], b) == Claims(pumps, b)[i := Claim(p, b)];
    SumUpdate(Claims(pumps, b), i, Claim(p, b));
  }

  /** All claims but one, at most one payload each. */
  lemma OtherClaims(pumps: seq<Pump>, i: nat, b: nat)
    requires i < |pumps| && SmallPayloads(pumps)
    ensures Sum(Claims(pumps, b)) - Claim(pumps[i], b) <= Overshoot(|pumps|, b)
  {
    var rest := Claims(pumps, b)[i := 0];
    SumUpdate(Claims(pumps, b), i, 0);
    SumRemoveZero(rest, i);
    var others := rest[..i] + rest[i + 1..];
    forall k | 0 <= k < |others| ensures others[k] <= Min(b, MAX_PAYLOAD_SIZE) {
      var j := if k < i then k else k + 1;
      assert Claim(pumps[j], b) != 0 ==> pumps[j].pc.frame in InHand(pumps[j].pc);
    }
    SumBound(others, Min(b, MAX_PAYLOAD_SIZE));
  }

  lemma {:induction false} SumRemoveZero(xs: seq<nat>, i: nat)
    requires i < |xs| && xs[i] == 0
    ensures Sum(xs[..i] + xs[i + 1..]) == Sum(xs)
  {
    if i > 0 {
      SumRemoveZero(xs[1..], i - 1);
      assert (xs[..i] + xs[i + 1..])[1..] == xs[1..][..i - 1] + xs[1..][i..];
    } else {
      assert xs[..i] + xs[i + 1..] == xs[1..];
    }
  }

  /** The heart of the bound: a move either leaves bytes in flight and claim together no larger, or is a
      load, whose new claim fits `b` on top of what is in flight. */
  lemma ClaimMove(cfg: Config, s: Conn, i: nat, e: PumpEvent, b: nat)
    requires LoadsBounded(cfg, s) && SmallPayloads(s.pumps)
    requires i < |s.pumps| && PumpEnabled(s, s.pumps[i], e)
    requires s.window <= b && s.window + Overshoot(|s.pumps|, s.window) + MAX_PAYLOAD_SIZE < U64_MODULUS
    requires s.inFlight <= s.window + Overshoot(|s.pumps|, s.window)
    ensures var s' := PumpStep(cfg, s, i, e);
            var before, after := Claim(s.pumps[i], b), Claim(s'.pumps[i], b);
            || s'.inFlight + after <= s.inFlight + before
            || (s'.inFlight == s.inFlight && before == 0 && s.inFlight + after <= b)
  {
    var p := s.pumps[i];
    assert p.pc.WindowLoaded? ==> p.pc.frame in InHand(p.pc);
  }

  lemma PumpKeepsBoundAt(cfg: Config, s: Conn, i: nat, e: PumpEvent, b: nat)
    requires LoadsBounded(cfg, s) && SmallPayloads(s.pumps)
    requires i < |s.pumps| && PumpEnabled(s, s.pumps[i], e)
    requires s.window <= b && s.window + Overshoot(|s.pumps|, s.window) + MAX_PAYLOAD_SIZE < U64_MODULUS
    requires s.inFlight <= s.window + Overshoot(|s.pumps|, s.window)
    requires s.inFlight + Sum(Claims(s.pumps, b)) <= b + Overshoot(|s.pumps|, b)
    ensures var s' := PumpStep(cfg, s, i, e); s'.inFlight + Sum(Claims(s'.pumps, b)) <= b + Overshoot(|s'.pumps|, b)
  {
    ClaimMove(cfg, s, i, e, b);
    ClaimsUpdate(s.pumps, i, MovePump(cfg, s, s.pumps[i], e), b);
    OtherClaims(s.pumps, i, b);
    hide Claims, Claim, Sum, SmallPayloads, LoadsBounded, MovePump, PumpEnabled;
  }

  lemma PumpKeepsBound(cfg: Config, s: Conn, i: nat, e: PumpEvent)
    requires WindowInv(cfg, s) && NoWrap(cfg, s)
    requires i < |s.pumps| && PumpEnabled(s, s.pumps[i], e)
    ensures Bounded(PumpStep(cfg, s, i, e))
  {
    var s' := PumpStep(cfg, s, i, e);
    FlightBounded(cfg, s);
    assert s'.window == s.window;
    forall b: nat | s'.window <= b
      ensures s'.inFlight + Sum(Claims(s'.pumps, b)) <= b + Overshoot(|s'.pumps|, b)
    {
      assert s.inFlight + Sum(Claims(s.pumps, b)) <= b + Overshoot(|s.pumps|, b);
      hide Claims, Sum, SmallPayloads, LoadsBounded, Bounded, MovePump;
      PumpKeepsBoundAt(cfg, s, i, e, b);
    }
  }

  lemma FlightBounded(cfg: Config, s: Conn)
    requires WindowInv(cfg, s) && NoWrap(cfg, s)
    ensures s.inFlight <= s.window + Overshoot(|s.pumps|, s.window)
    ensures s.window + Overshoot(|s.pumps|, s.window) + MAX_PAYLOAD_SIZE < U64_MODULUS
  {
    assert s.inFlight + Sum(Claims(s.pumps, s.window)) <= s.window + Overshoot(|s.pumps|, s.window);
    OvershootGrows(|s.pumps|, s.window, s.window);
  }

  lemma PumpKeepsSmall(cfg: Config, s: Conn, i: nat, e: PumpEvent)
    requires SmallPayloads(s.pumps)
    requires i < |s.pumps| && PumpEnabled(s, s.pumps[i], e)
    ensures SmallPayloads(s.pumps[i := MovePump(cfg, s, s.pumps[i], e)])
  {
    var p := s.pumps[i];
    var p' := MovePump(cfg, s, p, e);
    forall f | f in InHand(p'.pc) ensures |f.payload| <= MAX_PAYLOAD_SIZE {
      assert InHand(p'.pc) == [f];
      assert InHand(p.pc) != [] ==> p.pc.frame in InHand(p.pc);
    }
  }

  lemma PumpKeepsLoads(cfg: Config, s: Conn, i: nat, e: PumpEvent)
    requires LoadsBounded(cfg, s) && s.inFlight <= s.window + Overshoot(|s.pumps|, s.window)
    requires i < |s.pumps| && PumpEnabled(s, s.pumps[i], e)
    ensures LoadsBounded(cfg, PumpStep(cfg, s, i, e))
  {
    var s' := PumpStep(cfg, s, i, e);
    assert s'.window == s.window && |s'.pumps| == |s.pumps|;
  }

  lemma PumpKeepsWindow(cfg: Config, s: Conn, i: nat, e: PumpEvent)
    requires WindowInv(cfg, s)
    requires i < |s.pumps| && PumpEnabled(s, s.pumps[i], e)
    ensures WindowInv(cfg, PumpStep(cfg, s, i, e))
  {
    var p := s.pumps[i];
    PumpKeepsSmall(cfg, s, i, e);
    if NoWrap(cfg, s) {
      PumpKeepsBound(cfg, s, i, e);
      FlightBounded(cfg, s);
      PumpKeepsLoads(cfg, s, i, e);
      assert InHand(p.pc) != [] ==> p.pc.frame in InHand(p.pc);
    }
    hide Bounded, LoadsBounded, MovePump;
  }

  /** Waking pumps changes no claim: neither a parked nor a retrying pump has loaded anything. */
  lemma WakeKeepsClaims(pumps: seq<Pump>, b: nat)
    ensures Claims(WakeAll(pumps), b) == Claims(pumps, b)
  {
  }

  lemma NotifyKeepsWindow(cfg: Config, s: Conn, j: nat)
    requires WindowInv(cfg, s) && j < |s.updaters| && s.updaters[j].Debited?
    ensures WindowInv(cfg, UpdateStep(s, j, Notify))
  {
    var s' := UpdateStep(s, j, Notify);
    assert SmallPayloads(s'.pumps) by {
      assert forall i :: 0 <= i < |s.pumps| ==> InHand(s'.pumps[i].pc) == InHand(s.pumps[i].pc);
    }
    if NoWrap(cfg, s') {
      assert LoadsBounded(cfg, s');
      forall b: nat | s'.window <= b
        ensures s'.inFlight + Sum(Claims(s'.pumps, b)) <= b + Overshoot(|s'.pumps|, b)
      {
        WakeKeepsClaims(s.pumps, b);
        assert s.inFlight + Sum(Claims(s.pumps, b)) <= b + Overshoot(|s.pumps|, b);
      }
    }
  }

  /** A subtraction in `update_window` takes no more than is in flight at that moment. */
  predicate DebitFits(s: Conn, a: Action) {
    a.UpdateAct? && a.j < |s.updaters| && a.update.Debit? && s.updaters[a.j].Observed? ==>
      Min(s.updaters[a.j].bytes, s.updaters[a.j].current) <= s.inFlight
  }

  lemma UpdateKeepsWindow(cfg: Config, s: Conn, j: nat, e: UpdateEvent)
    requires WindowInv(cfg, s)
    requires j < |s.updaters| && UpdateEnabled(s.updaters[j], e) && DebitFits(s, UpdateAct(j, e))
    ensures WindowInv(cfg, UpdateStep(s, j, e))
  {
    var s' := UpdateStep(s, j, e);
    if e.Notify? {
      NotifyKeepsWindow(cfg, s, j);
    } else if NoWrap(cfg, s') {
      FlightBounded(cfg, s);
      UpdateMoves(cfg, s, j, e);
      OvershootGrows(|s.pumps|, s.window, s'.window);
      hide UpdateStep, UpdateEnabled, Claims, Sum, SmallPayloads, Overshoot;
      MoreRoom(s, s');
      hide Bounded;
    }
  }

  /** Until it notifies, an update leaves the pumps alone, raises the window and lowers the bytes in flight. */
  lemma UpdateMoves(cfg: Config, s: Conn, j: nat, e: UpdateEvent)
    requires j < |s.updaters| && UpdateEnabled(s.updaters[j], e) && DebitFits(s, UpdateAct(j, e)) && !e.Notify?
    requires NoWrap(cfg, UpdateStep(s, j, e)) && s.window == cfg.initialWindow + s.granted
    ensures var s' := UpdateStep(s, j, e);
            && s'.pumps == s.pumps && s'.window == cfg.initialWindow + s'.granted
            && s.window <= s'.window && s'.inFlight <= s.inFlight && |s'.updaters| == |s.updaters|
            && forall k :: 0 <= k < |s.updaters| && s'.updaters[k].Observed? ==>
                 s'.updaters[k].current == s.inFlight || s'.updaters[k] == s.updaters[k]
  {
  }

  lemma MoreRoom(s: Conn, s': Conn)
    requires Bounded(s) && s'.pumps == s.pumps && s.window <= s'.window && s'.inFlight <= s.inFlight
    ensures Bounded(s')
  {
    hide Claims, Sum, Overshoot;
    forall b: nat | s'.window <= b
      ensures s'.inFlight + Sum(Claims(s'.pumps, b)) <= b + Overshoot(|s'.pumps|, b)
    {
      assert s.inFlight + Sum(Claims(s.pumps, b)) <= b + Overshoot(|s.pumps|, b);
    }
  }

  lemma StepKeepsWindow(cfg: Config, s: Conn, a: Action)
    requires WindowInv(cfg, s) && Enabled(cfg, s, a) && DebitFits(s, a)
    ensures WindowInv(cfg, Apply(cfg, s, a))
  {
    var s' := Apply(cfg, s, a);
    match a
    case PumpAct(i, e) => PumpKeepsWindow(cfg, s, i, e);
    case UpdateAct(j, e) => UpdateKeepsWindow(cfg, s, j, e);
    case _ =>
      assert s'.pumps == s.pumps && s'.updaters == s.updaters;
      assert s'.window == s.window && s'.inFlight == s.inFlight && s'.granted == s.granted;
      if NoWrap(cfg, s) {
        assert LoadsBounded(cfg, s');
        forall b: nat | s'.window <= b
          ensures s'.inFlight + Sum(Claims(s'.pumps, b)) <= b + Overshoot(|s'.pumps|, b)
        {
          assert s.inFlight + Sum(Claims(s.pumps, b)) <= b + Overshoot(|s.pumps|, b);
        }
      }
  }

  /** Every subtraction of a run fits. */
  predicate DebitsFit(cfg: Config, s: Conn, acts: seq<Action>)
    requires Legal(cfg, s, acts)
    decreases |acts|
  {
    acts == [] || (DebitFits(s, acts[0]) && DebitsFit(cfg, Apply(cfg, s, acts[0]), acts[1..]))
  }

  lemma {:induction false} RunKeepsWindow(cfg: Config, s: Conn, acts: seq<Action>)
    requires WindowInv(cfg, s) && Legal(cfg, s, acts) && DebitsFit(cfg, s, acts)
    ensures WindowInv(cfg, Exec(cfg, s, acts))
    decreases |acts|
  {
    hide WindowInv, Enabled, Apply, DebitFits;
    if acts != [] {
      StepKeepsWindow(cfg, s, acts[0]);
      RunKeepsWindow(cfg, Apply(cfg, s, acts[0]), acts[1..]);
    }
  }

  lemma InitWindow(cfg: Config, streams: seq<StreamId>, updaters: nat)
    requires streams != []
    ensures WindowInv(cfg, Init(cfg, streams, updaters))
  {
    var s := Init(cfg, streams, updaters);
    forall b: nat | s.window <= b ensures s.inFlight + Sum(Claims(s.pumps, b)) <= b + Overshoot(|s.pumps|, b) {
      SumZero(Claims(s.pumps, b));
      OvershootGrows(|s.pumps|, b, b);
    }
    assert forall i :: 0 <= i < |s.pumps| ==> InHand(s.pumps[i].pc) == [];
  }

  /** Over every interleaving of `n` pumps and any number of overlapping updates whose subtractions fit, as
      long as the credit granted so far fits 64 bits, the bytes in flight exceed the window by at most
      `n - 1` payloads, none of which exceeds the window. */
  lemma RacyWindowBound(cfg: Config, streams: seq<StreamId>, updaters: nat, acts: seq<Action>)
    requires streams != [] && Legal(cfg, Init(cfg, streams, updaters), acts)
    requires DebitsFit(cfg, Init(cfg, streams, updaters), acts)
    ensures var s := Exec(cfg, Init(cfg, streams, updaters), acts);
            NoWrap(cfg, s) ==>
              && s.window == cfg.initialWindow + s.granted
              && s.inFlight <= s.window + (|streams| - 1) * Min(s.window, MAX_PAYLOAD_SIZE)
  {
    var s0 := Init(cfg, streams, updaters);
    InitWindow(cfg, streams, updaters);
    RunKeepsWindow(cfg, s0, acts);
    RunKeepsCast(cfg, s0, acts);
    var s := Exec(cfg, s0, acts);
    if NoWrap(cfg, s) {
      FlightBounded(cfg, s);
    }
  }

  /** Steps neither start nor retire pumps and updaters, and never rename a pump's stream. */
  predicate SameCast(s: Conn, t: Conn) {
    && |s.pumps| == |t.pumps|
    && |s.updaters| == |t.updaters|
    && forall i :: 0 <= i < |s.pumps| ==> s.pumps[i].stream == t.pumps[i].stream
  }

  lemma {:induction false} RunKeepsCast(cfg: Config, s: Conn, acts: seq<Action>)
    requires Legal(cfg, s, acts)
    ensures SameCast(s, Exec(cfg, s, acts))
    decreases |acts|
  {
    if acts != [] {
      StepKeepsCast(cfg, s, acts[0]);
      RunKeepsCast(cfg, Apply(cfg, s, acts[0]), acts[1..]);
    }
  }

  lemma StepKeepsCast(cfg: Config, s: Conn, a: Action)
    requires Enabled(cfg, s, a)
    ensures SameCast(s, Apply(cfg, s, a))
  {
  }

  lemma {:induction false} GrantsOnlyGrow(cfg: Config, s: Conn, acts: seq<Action>)
    requires Legal(cfg, s, acts)
    ensures s.granted <= Exec(cfg, s, acts).granted
    decreases |acts|
  {
    if acts != [] {
      GrantsOnlyGrow(cfg, Apply(cfg, s, acts[0]), acts[1..]);
    }
  }

  // --- The condition is exact ----------------------------------------------------------------

  predicate InBound(s: Conn) {
    s.inFlight <= s.window + Overshoot(|s.pumps|, s.window)
  }

  /** The bound holds at every moment of a run. */
  predicate BoundThroughout(cfg: Config, s: Conn, acts: seq<Action>)
    requires Legal(cfg, s, acts)
    decreases |acts|
  {
    InBound(s) && (acts == [] || BoundThroughout(cfg, Apply(cfg, s, acts[0]), acts[1..]))
  }

  /** The counters stay in the lower half of their range. */
  predicate Roomy(cfg: Config, s: Conn) {
    2 * (cfg.initialWindow + s.granted + |s.pumps| * MAX_PAYLOAD_SIZE) < U64_MODULUS
  }

  /** A subtraction of more than is in flight wraps the counter beyond the bound at once. */
  lemma OverdrawnBreaksBound(cfg: Config, s: Conn, a: Action)
    requires WindowInv(cfg, s) && Roomy(cfg, s) && Enabled(cfg, s, a) && !DebitFits(s, a)
    ensures !InBound(Apply(cfg, s, a))
  {
    FlightBounded(cfg, s);
    OvershootGrows(|s.pumps|, s.window, s.window);
    hide Bounded, LoadsBounded, SmallPayloads, Overshoot;
  }

  lemma {:induction false} BoundIffDebitsFit(cfg: Config, s: Conn, acts: seq<Action>)
    requires WindowInv(cfg, s) && Legal(cfg, s, acts) && Roomy(cfg, Exec(cfg, s, acts))
    ensures BoundThroughout(cfg, s, acts) <==> DebitsFit(cfg, s, acts)
    decreases |acts|
  {
    GrantsOnlyGrow(cfg, s, acts);
    RunKeepsCast(cfg, s, acts);
    FlightBounded(cfg, s);
    hide WindowInv, Enabled, Apply, DebitFits, Overshoot;
    if acts != [] {
      var s' := Apply(cfg, s, acts[0]);
      if DebitFits(s, acts[0]) {
        StepKeepsWindow(cfg, s, acts[0]);
        BoundIffDebitsFit(cfg, s', acts[1..]);
      } else {
        OverdrawnBreaksBound(cfg, s, acts[0]);
      }
    }
  }

  /** For any number of pumps and updaters: the bound holds throughout a run iff none of its subtractions
      takes more than is in flight. */
  lemma RacyWindowBoundExact(cfg: Config, streams: seq<StreamId>, updaters: nat, acts: seq<Action>)
    requires streams != [] && Legal(cfg, Init(cfg, streams, updaters), acts)
    requires Roomy(cfg, Exec(cfg, Init(cfg, streams, updaters), acts))
    ensures BoundThroughout(cfg, Init(cfg, streams, updaters), acts)
            <==> DebitsFit(cfg, Init(cfg, streams, updaters), acts)
  {
    InitWindow(cfg, streams, updaters);
    BoundIffDebitsFit(cfg, Init(cfg, streams, updaters), acts);
  }

  // --- When subtractions fit -----------------------------------------------------------------

  /** No update loads the counter while another is between its load and its subtraction. */
  predicate Separate(cfg: Config, s: Conn, acts: seq<Action>)
    requires Legal(cfg, s, acts)
    decreases |acts|
  {
    acts == []
    || (&& (acts[0].UpdateAct? && acts[0].update.Observe? ==>
              forall k :: 0 <= k < |s.updaters| ==> !s.updaters[k].Observed?)
        && Separate(cfg, Apply(cfg, s, acts[0]), acts[1..]))
  }

  /** At most one update is about to subtract, and no more than is in flight. */
  predicate ObservedFits(s: Conn) {
    && (forall j :: 0 <= j < |s.updaters| && s.updaters[j].Observed? ==> s.updaters[j].current <= s.inFlight)
    && (forall j, k :: 0 <= j < k < |s.updaters| ==> !(s.updaters[j].Observed? && s.updaters[k].Observed?))
  }

  /** Pumps only add to the bytes in flight. */
  lemma PumpRaisesFlight(cfg: Config, s: Conn, k: nat, e: PumpEvent)
    requires WindowInv(cfg, s) && NoWrap(cfg, s)
    requires k < |s.pumps| && PumpEnabled(s, s.pumps[k], e)
    ensures var s' := PumpStep(cfg, s, k, e);
            s'.inFlight >= s.inFlight && s'.window == s.window && s'.updaters == s.updaters
  {
    var pc := s.pumps[k].pc;
    FlightBounded(cfg, s);
    assert InHand(pc) != [] ==> pc.frame in InHand(pc);
    hide Bounded, LoadsBounded, MovePump;
  }

  lemma StepKeepsObserved(cfg: Config, s: Conn, a: Action)
    requires WindowInv(cfg, s) && NoWrap(cfg, s) && ObservedFits(s) && Enabled(cfg, s, a)
    requires a.UpdateAct? && a.update.Observe? ==> forall k :: 0 <= k < |s.updaters| ==> !s.updaters[k].Observed?
    ensures DebitFits(s, a) && ObservedFits(Apply(cfg, s, a))
  {
    if a.PumpAct? {
      PumpRaisesFlight(cfg, s, a.i, a.event);
      hide PumpStep, PumpEnabled;
    }
    hide WindowInv;
  }

  lemma {:induction false} SeparateUpdatesFit(cfg: Config, s: Conn, acts: seq<Action>)
    requires WindowInv(cfg, s) && ObservedFits(s) && Legal(cfg, s, acts) && Separate(cfg, s, acts)
    requires NoWrap(cfg, Exec(cfg, s, acts))
    ensures DebitsFit(cfg, s, acts)
    decreases |acts|
  {
    hide WindowInv, ObservedFits, Enabled, Apply, DebitFits;
    if acts != [] {
      GrantsOnlyGrow(cfg, s, acts);
      RunKeepsCast(cfg, s, acts);
      StepKeepsObserved(cfg, s, acts[0]);
      StepKeepsWindow(cfg, s, acts[0]);
      SeparateUpdatesFit(cfg, Apply(cfg, s, acts[0]), acts[1..]);
    }
  }

  /** Updates that keep apart in this way always fit, in particular those of a single updater. */
  lemma SeparateRunsFit(cfg: Config, streams: seq<StreamId>, updaters: nat, acts: seq<Action>)
    requires streams != [] && Legal(cfg, Init(cfg, streams, updaters), acts)
    requires NoWrap(cfg, Exec(cfg, Init(cfg, streams, updaters), acts))
    requires updaters <= 1 || Separate(cfg, Init(cfg, streams, updaters), acts)
    ensures DebitsFit(cfg, Init(cfg, streams, updaters), acts)
  {
    var s0 := Init(cfg, streams, updaters);
    InitWindow(cfg, streams, updaters);
    if updaters <= 1 {
      SoleUpdaterIsSeparate(cfg, s0, acts);
    }
    SeparateUpdatesFit(cfg, s0, acts);
  }

  lemma {:induction false} SoleUpdaterIsSeparate(cfg: Config, s: Conn, acts: seq<Action>)
    requires Legal(cfg, s, acts) && |s.updaters| <= 1
    ensures Separate(cfg, s, acts)
    decreases |acts|
  {
    if acts != [] {
      StepKeepsCast(cfg, s, acts[0]);
      SoleUpdaterIsSeparate(cfg, Apply(cfg, s, acts[0]), acts[1..]);
    }
  }

  lemma {:induction false} NoUpdatesFit(cfg: Config, s: Conn, acts: seq<Action>)
    requires Legal(cfg, s, acts) && s.updaters == []
    ensures DebitsFit(cfg, s, acts)
    decreases |acts|
  {
    if acts != [] {
      StepKeepsCast(cfg, s, acts[0]);
      NoUpdatesFit(cfg, Apply(cfg, s, acts[0]), acts[1..]);
    }
  }

  // --- Without updates, as the server wires it ------------------------------------------------

  predicate Unacknowledged(cfg: Config, s: Conn) {
    s.updaters == [] && s.granted == 0 && (NoWrap(cfg, s) ==> s.inFlight == s.accepted)
  }

  lemma {:induction false} RunWithoutUpdates(cfg: Config, s: Conn, acts: seq<Action>)
    requires WindowInv(cfg, s) && Unacknowledged(cfg, s) && Legal(cfg, s, acts)
    ensures Unacknowledged(cfg, Exec(cfg, s, acts))
    decreases |acts|
  {
    if acts != [] {
      StepKeepsWindow(cfg, s, acts[0]);
      StepStaysUnacknowledged(cfg, s, acts[0]);
      RunWithoutUpdates(cfg, Apply(cfg, s, acts[0]), acts[1..]);
    }
  }

  lemma StepStaysUnacknowledged(cfg: Config, s: Conn, a: Action)
    requires WindowInv(cfg, s) && Unacknowledged(cfg, s) && Enabled(cfg, s, a)
    ensures Unacknowledged(cfg, Apply(cfg, s, a))
  {
    hide WindowInv;
    if a.PumpAct? {
      PumpChargesFlight(cfg, s, a.i, a.event);
      hide PumpStep, PumpEnabled;
    }
  }

  /** What a pump charges it adds to the bytes in flight. */
  lemma PumpChargesFlight(cfg: Config, s: Conn, i: nat, e: PumpEvent)
    requires WindowInv(cfg, s) && i < |s.pumps| && PumpEnabled(s, s.pumps[i], e)
    ensures var s' := PumpStep(cfg, s, i, e);
            && |s'.pumps| == |s.pumps| && s'.granted == s.granted && s'.updaters == s.updaters
            && (NoWrap(cfg, s) ==> s'.inFlight - s.inFlight == s'.accepted - s.accepted)
  {
    var pc := s.pumps[i].pc;
    if NoWrap(cfg, s) {
      FlightBounded(cfg, s);
      assert InHand(pc) != [] ==> pc.frame in InHand(pc);
    }
    hide Bounded, LoadsBounded, MovePump;
  }

  /** Nothing in the server calls `update_window`, so the two pumps of a job charge at most the default
      window and one further payload between them, over the job's whole life. */
  lemma AcceptedAsWired(cfg: Config, streams: seq<StreamId>, acts: seq<Action>)
    requires |streams| == 2 && cfg.initialWindow == DEFAULT_WINDOW_SIZE
    requires Legal(cfg, Init(cfg, streams, 0), acts)
    ensures Exec(cfg, Init(cfg, streams, 0), acts).accepted <= 65_536 + 32_768
  {
    var s0 := Init(cfg, streams, 0);
    InitWindow(cfg, streams, 0);
    RunWithoutUpdates(cfg, s0, acts);
    RunKeepsCast(cfg, s0, acts);
    NoUpdatesFit(cfg, s0, acts);
    RacyWindowBound(cfg, streams, 0, acts);
  }

  /** A pump that parks then sleeps for ever. */
  lemma {:induction false} ParkedForever(cfg: Config, s: Conn, acts: seq<Action>, i: nat)
    requires Legal(cfg, s, acts) && s.updaters == []
    requires i < |s.pumps| && s.pumps[i].pc.Parked?
    ensures var t := Exec(cfg, s, acts); i < |t.pumps| && t.pumps[i] == s.pumps[i]
    decreases |acts|
  {
    if acts != [] {
      ParkedForever(cfg, Apply(cfg, s, acts[0]), acts[1..], i);
    }
  }
}
