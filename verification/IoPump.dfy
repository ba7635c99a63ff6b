/** The `StreamPump` object and the read loop of an output pump, with other tasks' accesses to the counters
    between any two of their own (src/io_pump.rs). */
module IoPump {
  import opened MachineWords
  import opened Errors
  import opened Protocol
  import opened Streaming

  datatype Counters = Counters(window: u64, flight: u64)

  /** `update_window`: raises the window and also lowers the bytes in flight, never below zero. */
  function Acknowledge(c: Counters, bytes: u64): Counters {
    Counters(WrapU64(c.window + bytes), c.flight - Min(bytes, c.flight))
  }

  datatype Verdict = Accepted | Dropped | Waiting

  /** One atomic access of another task to a counter: the two halves of an update, or a charge. */
  datatype Change = Raise(bytes: u64) | Lower(bytes: u64) | Charge(bytes: u64)

  function AlterOne(c: Counters, change: Change): Counters {
    match change
    case Raise(bytes) => c.(window := WrapU64(c.window + bytes))
    case Lower(bytes) => c.(flight := WrapU64(c.flight - bytes))
    case Charge(bytes) => c.(flight := WrapU64(c.flight + bytes))
  }

  function Alter(c: Counters, changes: seq<Change>): Counters
    decreases |changes|
  {
    if changes == [] then c else Alter(AlterOne(c, changes[0]), changes[1..])
  }

  lemma AlterTwice(c: Counters, first: Change, second: Change)
    ensures Alter(c, [first]) == AlterOne(c, first)
    ensures Alter(c, [first, second]) == AlterOne(AlterOne(c, first), second)
  {
    hide AlterOne;
    var one, two := [first], [first, second];
    assert one[0] == first && one[1..] == [];
    assert two[0] == first && two[1..] == [second];
    assert [second][0] == second && [second][1..] == [];
    assert Alter(AlterOne(c, first), [second]) == AlterOne(AlterOne(c, first), second);
  }

  /** What others do before each of the three accesses of one turn of `try_send_frame`: the load of the
      bytes in flight, the load of the window, the addition. */
  datatype Try = Try(beforeFlight: seq<Change>, beforeWindow: seq<Change>, beforeAdd: seq<Change>)

  const Quiet: Try := Try([], [], [])

  /** `try_send_frame` for a payload of some size, over the turns it gets to make: the credit it leaves and
      how it ended. */
  function Offer(c: Counters, size: nat, dropPolicy: bool, tries: seq<Try>): (Counters, Verdict)
    decreases |tries|
  {
    if tries == [] then (c, Waiting)
    else
      var loaded := Alter(c, tries[0].beforeFlight);
      var compared := Alter(loaded, tries[0].beforeWindow);
      var after := Alter(compared, tries[0].beforeAdd);
      if Fits(loaded.flight, compared.window, size) then (after.(flight := WrapU64(after.flight + size)), Accepted)
      else if dropPolicy then (after, Dropped)
      else Offer(after, size, dropPolicy, tries[1..])
  }

  /** Without interference a frame is accepted iff it fits, and refused it changes nothing. */
  lemma {:induction false} QuietOffer(c: Counters, size: nat, dropPolicy: bool, n: nat)
    requires n >= 1
    ensures var (after, verdict) := Offer(c, size, dropPolicy, seq(n, _ => Quiet));
            && (verdict.Accepted? <==> Fits(c.flight, c.window, size))
            && (verdict.Dropped? <==> !Fits(c.flight, c.window, size) && dropPolicy)
            && after == if verdict.Accepted? then c.(flight := WrapU64(c.flight + size)) else c
  {
    var tries := seq(n, _ => Quiet);
    if n > 1 {
      QuietOffer(c, size, dropPolicy, n - 1);
      assert tries[1..] == seq(n - 1, _ => Quiet);
    }
  }

  /** Which moment each access sees, with others charging `a`, `b` and `d` bytes and raising the window by `q`
      and `r`: the test takes the bytes in flight from the first load and the window from the second, and the
      addition is to what is in flight by then. */
  lemma OfferSeesEachMoment(c: Counters, size: nat, a: u64, b: u64, d: u64, q: u64, r: u64)
    requires c.flight + a + b + d + size < 0x1_0000_0000_0000_0000 && c.window + q + r < 0x1_0000_0000_0000_0000
    ensures var turn := Try([Charge(a)], [Raise(q), Charge(b)], [Raise(r), Charge(d)]);
            var (after, verdict) := Offer(c, size, true, [turn]);
            && (verdict.Accepted? <==> c.flight + a + size <= c.window + q)
            && after.window == c.window + q + r
            && after.flight == c.flight + a + b + d + if verdict.Accepted? then size else 0
  {
    hide *;
    var turn := Try([Charge(a)], [Raise(q), Charge(b)], [Raise(r), Charge(d)]);
    OneTry(c, size, turn);
    AlterSums(c, a, b, d, q, r);
    FitsSmall(c.flight + a, c.window + q, size);
    SmallIsItself(c.flight + a + b + d + size);
  }

  lemma FitsSmall(flight: u64, window: u64, size: nat)
    requires flight + size < 0x1_0000_0000_0000_0000
    ensures Fits(flight, window, size) <==> flight + size <= window
  {
  }

  lemma AlterSums(c: Counters, a: u64, b: u64, d: u64, q: u64, r: u64)
    requires c.flight + a + b + d < 0x1_0000_0000_0000_0000 && c.window + q + r < 0x1_0000_0000_0000_0000
    ensures var loaded := Alter(c, [Charge(a)]);
            var compared := Alter(loaded, [Raise(q), Charge(b)]);
            var after := Alter(compared, [Raise(r), Charge(d)]);
            && loaded == Counters(c.window, c.flight + a)
            && compared == Counters(c.window + q, c.flight + a + b)
            && after == Counters(c.window + q + r, c.flight + a + b + d)
  {
    hide Alter, AlterOne;
    AlterTwice(c, Charge(a), Charge(a));
    ChargeAdds(c, a);
    RaiseThenCharge(Counters(c.window, c.flight + a), q, b);
    RaiseThenCharge(Counters(c.window + q, c.flight + a + b), r, d);
  }

  lemma ChargeAdds(c: Counters, bytes: u64)
    requires c.flight + bytes < 0x1_0000_0000_0000_0000
    ensures AlterOne(c, Charge(bytes)) == Counters(c.window, c.flight + bytes)
  {
  }

  lemma RaiseAdds(c: Counters, bytes: u64)
    requires c.window + bytes < 0x1_0000_0000_0000_0000
    ensures AlterOne(c, Raise(bytes)) == Counters(c.window + bytes, c.flight)
  {
  }

  lemma RaiseThenCharge(c: Counters, raised: u64, charged: u64)
    requires c.window + raised < 0x1_0000_0000_0000_0000 && c.flight + charged < 0x1_0000_0000_0000_0000
    ensures Alter(c, [Raise(raised), Charge(charged)]) == Counters(c.window + raised, c.flight + charged)
  {
    hide Alter, AlterOne;
    AlterTwice(c, Raise(raised), Charge(charged));
    RaiseAdds(c, raised);
    ChargeAdds(Counters(c.window + raised, c.flight), charged);
  }

  lemma OneTry(c: Counters, size: nat, turn: Try)
    ensures var loaded := Alter(c, turn.beforeFlight);
            var compared := Alter(loaded, turn.beforeWindow);
            var after := Alter(compared, turn.beforeAdd);
            Offer(c, size, true, [turn])
            == if Fits(loaded.flight, compared.window, size)
               then (after.(flight := WrapU64(after.flight + size)), Accepted) else (after, Dropped)
  {
    hide Alter;
    assert [turn][0] == turn;
  }

  /** An update is a raise and a bounded subtraction. */
  lemma AcknowledgeIsChanges(c: Counters, bytes: u64)
    ensures Acknowledge(c, bytes) == Alter(c, [Raise(bytes), Lower(if bytes <= c.flight then bytes else c.flight)])
  {
    var taken: u64 := if bytes <= c.flight then bytes else c.flight;
    AlterTwice(c, Raise(bytes), Lower(taken));
    SmallIsItself(c.flight - taken);
    hide Alter, WrapU64;
  }

  lemma SmallIsItself(x: nat)
    requires x < 0x1_0000_0000_0000_0000
    ensures WrapU64(x) == x
  {
  }

  class StreamPump {
    var sendWindow: u64
    var bytesInFlight: u64
    const dropPolicy: bool

    constructor (initialWindow: u64, dropPolicy: bool)
      ensures View() == Counters(initialWindow, 0) && this.dropPolicy == dropPolicy
    {
      sendWindow, bytesInFlight, this.dropPolicy := initialWindow, 0, dropPolicy;
    }

    ghost function View(): Counters
      reads this
    {
      Counters(sendWindow, bytesInFlight)
    }

    method UpdateWindow(bytesConsumed: u64)
      modifies this
      ensures View() == Acknowledge(old(View()), bytesConsumed)
    {
      sendWindow := WrapU64(sendWindow + bytesConsumed);
      var current := bytesInFlight;
      bytesInFlight := WrapU64(bytesInFlight - Min(bytesConsumed, current));
    }

    /** What other tasks do between two accesses of this one. */
    method Interfere(changes: seq<Change>)
      modifies this
      ensures View() == Alter(old(View()), changes)
    {
      for k := 0 to |changes|
        invariant Alter(View(), changes[k..]) == Alter(old(View()), changes)
      {
        assert changes[k..][0] == changes[k] && changes[k..][1..] == changes[k + 1..];
        match changes[k]
        case Raise(bytes) => sendWindow := WrapU64(sendWindow + bytes);
        case Lower(bytes) => bytesInFlight := WrapU64(bytesInFlight - bytes);
        case Charge(bytes) => bytesInFlight := WrapU64(bytesInFlight + bytes);
      }
    }

    /** `channel` is what the frame sender has taken so far, `open` whether its receiver still listens. */
    method TrySendFrame(channel: seq<Frame>, frame: Frame, open: bool, tries: seq<Try>)
      returns (sent: seq<Frame>, verdict: Verdict)
      modifies this
      ensures (View(), verdict) == Offer(old(View()), |frame.payload|, dropPolicy, tries)
      ensures sent == if verdict.Accepted? && open then channel + [frame] else channel
      ensures verdict.Dropped? ==> dropPolicy
    {
      var dataLen := |frame.payload|;
      for k := 0 to |tries|
        invariant Offer(View(), dataLen, dropPolicy, tries[k..]) == Offer(old(View()), dataLen, dropPolicy, tries)
      {
        assert tries[k..][0] == tries[k] && tries[k..][1..] == tries[k + 1..];
        Interfere(tries[k].beforeFlight);
        var inFlight := bytesInFlight;
        Interfere(tries[k].beforeWindow);
        var window := sendWindow;
        Interfere(tries[k].beforeAdd);
        if WrapU64(inFlight + dataLen) <= window {
          bytesInFlight := WrapU64(bytesInFlight + dataLen);
          return if open then channel + [frame] else channel, Accepted;
        } else if dropPolicy {
          return channel, Dropped;
        }
      }
      return channel, Waiting;
    }
  }

  // --- Credit over sequential runs -----------------------------------------------------------

  datatype LedgerOp = Send(frame: Frame) | Ack(bytes: u64)

  /** The credit with the totals of accepted and acknowledged bytes, and of those acknowledged beyond what
      was in flight. */
  datatype Ledger = Ledger(credit: Counters, accepted: nat, acked: nat, excess: nat)

  function Open(initialWindow: u64): Ledger {
    Ledger(Counters(initialWindow, 0), 0, 0, 0)
  }

  function Book(l: Ledger, op: LedgerOp): Ledger {
    match op
    case Send(frame) =>
      var (after, verdict) := Offer(l.credit, |frame.payload|, true, [Quiet]);
      l.(credit := after, accepted := l.accepted + if verdict.Accepted? then |frame.payload| else 0)
    case Ack(bytes) =>
      l.(credit := Acknowledge(l.credit, bytes),
         acked := l.acked + bytes,
         excess := l.excess + bytes - Min(bytes, l.credit.flight))
  }

  function BookAll(l: Ledger, ops: seq<LedgerOp>): Ledger
    decreases |ops|
  {
    if ops == [] then l else BookAll(Book(l, ops[0]), ops[1..])
  }

  predicate FramesFit(ops: seq<LedgerOp>) {
    forall op :: op in ops && op.Send? ==> Encodable(op.frame)
  }

  predicate InRange(initialWindow: u64, acked: nat) {
    initialWindow + acked + MAX_PAYLOAD_SIZE < U64_MODULUS
  }

  predicate Balanced(initialWindow: u64, l: Ledger) {
    && l.credit.window == initialWindow + l.acked
    && l.credit.flight + l.acked == l.accepted + l.excess
    && l.excess <= l.acked
    && l.credit.flight <= l.credit.window
  }

  lemma BookKeepsBalance(initialWindow: u64, l: Ledger, op: LedgerOp)
    requires Balanced(initialWindow, l) && (op.Send? ==> Encodable(op.frame))
    requires InRange(initialWindow, Book(l, op).acked)
    ensures Balanced(initialWindow, Book(l, op))
  {
  }

  lemma {:induction false} BooksBalance(initialWindow: u64, l: Ledger, ops: seq<LedgerOp>)
    requires Balanced(initialWindow, l) && FramesFit(ops) && InRange(initialWindow, BookAll(l, ops).acked)
    ensures Balanced(initialWindow, BookAll(l, ops))
    decreases |ops|
  {
    if ops != [] {
      AckedOnlyGrows(Book(l, ops[0]), ops[1..]);
      assert ops[0] in ops;
      assert forall op :: op in ops[1..] ==> op in ops;
      BookKeepsBalance(initialWindow, l, ops[0]);
      hide Balanced, Book;
      BooksBalance(initialWindow, Book(l, ops[0]), ops[1..]);
    }
  }

  lemma {:induction false} AckedOnlyGrows(l: Ledger, ops: seq<LedgerOp>)
    ensures l.acked <= BookAll(l, ops).acked
    decreases |ops|
  {
    if ops != [] {
      AckedOnlyGrows(Book(l, ops[0]), ops[1..]);
    }
  }

  /** With W0 the initial window, S bytes accepted and A acknowledged, the window is W0 + A. The bytes in
      flight lie between S - A and S, and are exactly S - A iff no acknowledgement ever exceeded what was
      in flight; then S is at most W0 + 2A, each acknowledged byte having bought two. */
  lemma ExactCredit(initialWindow: u64, ops: seq<LedgerOp>)
    requires FramesFit(ops) && InRange(initialWindow, BookAll(Open(initialWindow), ops).acked)
    ensures var l := BookAll(Open(initialWindow), ops);
            && l.credit.window == initialWindow + l.acked
            && l.accepted - l.acked <= l.credit.flight <= l.accepted
            && (l.credit.flight == l.accepted - l.acked <==> l.excess == 0)
            && (l.excess == 0 ==> l.accepted <= initialWindow + 2 * l.acked)
  {
    BooksBalance(initialWindow, Open(initialWindow), ops);
  }

  function FrameOf(size: nat): (f: Frame)
    ensures |f.payload| == size
  {
    DataFrame(1, Stdout, 0, seq(size, _ => 0))
  }

  /** A frame that fits is charged in full. */
  lemma BookSend(l: Ledger, frame: Frame)
    requires l.credit.flight + |frame.payload| <= l.credit.window
    ensures Book(l, Send(frame))
            == l.(credit := Counters(l.credit.window, l.credit.flight + |frame.payload|),
                  accepted := l.accepted + |frame.payload|)
  {
  }

  /** A byte in flight is acknowledged. */
  lemma BookAck(l: Ledger)
    requires l.credit.flight >= 1 && l.credit.window + 1 < U64_MODULUS
    ensures Book(l, Ack(1))
            == l.(credit := Counters(l.credit.window + 1, l.credit.flight - 1), acked := l.acked + 1)
  {
  }

  lemma {:induction false} BookLast(l: Ledger, ops: seq<LedgerOp>, op: LedgerOp)
    ensures BookAll(l, ops + [op]) == Book(BookAll(l, ops), op)
    decreases |ops|
  {
    hide Book;
    if ops == [] {
      assert ([] + [op])[0] == op && ([] + [op])[1..] == [];
      assert BookAll(Book(l, op), []) == Book(l, op);
    } else {
      BookLast(Book(l, ops[0]), ops[1..], op);
      assert (ops + [op])[0] == ops[0] && (ops + [op])[1..] == ops[1..] + [op];
    }
  }

  /** Single bytes fill the window up to any level. */
  lemma {:induction false} FillWindow(initialWindow: u64, t: nat) returns (ops: seq<LedgerOp>)
    requires t <= initialWindow
    ensures FramesFit(ops) && BookAll(Open(initialWindow), ops) == Ledger(Counters(initialWindow, t), t, 0, 0)
  {
    if t == 0 {
      ops := [];
    } else {
      ops := FillWindow(initialWindow, t - 1);
      BookLast(Open(initialWindow), ops, Send(FrameOf(1)));
      BookSend(BookAll(Open(initialWindow), ops), FrameOf(1));
      ops := ops + [Send(FrameOf(1))];
    }
  }

  /** The bound is reached for every window that is not empty and every amount of acknowledgements in
      range, each of a byte in flight: two further bytes are sent for every one acknowledged. */
  lemma {:induction false} ExactCreditIsTight(initialWindow: u64, a: nat) returns (ops: seq<LedgerOp>)
    requires initialWindow >= 1 && InRange(initialWindow, a)
    ensures FramesFit(ops)
    ensures BookAll(Open(initialWindow), ops)
            == Ledger(Counters(initialWindow + a, initialWindow + a), initialWindow + 2 * a, a, 0)
  {
    var l0 := Open(initialWindow);
    if a == 0 {
      ops := FillWindow(initialWindow, initialWindow);
    } else {
      ops := ExactCreditIsTight(initialWindow, a - 1);
      BookAck(BookAll(l0, ops));
      hide Book, BookAll, FrameOf;
      BookLast(l0, ops, Ack(1));
      BookLast(l0, ops + [Ack(1)], Send(FrameOf(2)));
      BookSend(BookAll(l0, ops + [Ack(1)]), FrameOf(2));
      ops := ops + [Ack(1)] + [Send(FrameOf(2))];
    }
  }

  // --- The read loop -------------------------------------------------------------------------

  datatype ReadOutcome = Data(bytes: seq<u8>) | Nothing | Eof | Failure

  /** What the world contributes to one turn of the loop: the token, the pipe, what other tasks do to the
      counters during the send if there is one, and whether the channel's receiver still listens. */
  datatype Input = Input(cancelled: bool, read: ReadOutcome, tries: seq<Try>, open: bool)

  /** One turn as it went: the frame it offered, if any, went through or did not. */
  datatype Turn = Turn(cancelled: bool, read: ReadOutcome, sends: bool)

  datatype PumpEnd = Finished | BrokenRead | Unsent | Unfinished

  /** A send goes through if the frame is dropped, or accepted and received. */
  predicate GoesThrough(v: Verdict, open: bool) {
    v.Dropped? || (v.Accepted? && open)
  }

  predicate Closes(cancelled: bool, read: ReadOutcome) {
    cancelled || read.Eof?
  }

  predicate IsEmpty(read: ReadOutcome) {
    read.Nothing? || read == Data([])
  }

  /** The turns that the window lets the loop make, and the credit at their end. */
  function Course(c: Counters, dropPolicy: bool, inputs: seq<Input>): (Counters, seq<Turn>)
    decreases |inputs|
  {
    if inputs == [] then (c, [])
    else
      var i := inputs[0];
      if Closes(i.cancelled, i.read) then
        var (after, verdict) := Offer(c, 0, dropPolicy, i.tries);
        (after, [Turn(i.cancelled, i.read, GoesThrough(verdict, i.open))])
      else if i.read.Failure? then (c, [Turn(false, Failure, true)])
      else if IsEmpty(i.read) then
        var (after, rest) := Course(c, dropPolicy, inputs[1..]);
        (after, [Turn(false, i.read, true)] + rest)
      else
        var (credit, verdict) := Offer(c, |i.read.bytes|, dropPolicy, i.tries);
        if !GoesThrough(verdict, i.open) then (credit, [Turn(false, i.read, false)])
        else
          var (after, rest) := Course(credit, dropPolicy, inputs[1..]);
          (after, [Turn(false, i.read, true)] + rest)
  }

  /** How the loop has ended, by its last turn. */
  function EndOf(turns: seq<Turn>): PumpEnd {
    if turns == [] then Unfinished
    else
      var last := turns[|turns| - 1];
      if Closes(last.cancelled, last.read) && last.sends then Finished
      else if !last.sends then Unsent
      else if last.read.Failure? then BrokenRead
      else Unfinished
  }

  /** The data frames of the chunks, and the end marker with their number if the loop has come to it. */
  function Offered(jobId: u32, stream: StreamId, turns: seq<Turn>): seq<Frame> {
    var data := DataFrames(jobId, stream, 0, Chunks(turns));
    if turns != [] && Closes(turns[|turns| - 1].cancelled, turns[|turns| - 1].read)
    then data + [EosFrame(jobId, stream, WrapU32(|data|))] else data
  }

  /** The non-empty chunks read before the loop ends: at a cancelled token, at the end of the pipe, at a
      read error, or after a frame that could not be sent. */
  function Chunks(turns: seq<Turn>): seq<seq<u8>> {
    if turns == [] || turns[0].cancelled || turns[0].read.Eof? || turns[0].read.Failure? then []
    else if turns[0].read.Nothing? || turns[0].read.bytes == [] then Chunks(turns[1..])
    else if !turns[0].sends then [turns[0].read.bytes]
    else [turns[0].read.bytes] + Chunks(turns[1..])
  }

  /** One data frame per chunk, numbered from `n`. */
  function DataFrames(jobId: u32, stream: StreamId, n: nat, chunks: seq<seq<u8>>): (frames: seq<Frame>)
    ensures |frames| == |chunks|
  {
    seq(|chunks|, i requires 0 <= i < |chunks| => DataFrame(jobId, stream, WrapU32(n + i), chunks[i]))
  }

  /** The frames offered so far and those still to come are all of them. */
  ghost predicate Pumped(jobId: u32, stream: StreamId, turns: seq<Turn>, k: nat, offered: seq<Frame>) {
    && k <= |turns|
    && offered + DataFrames(jobId, stream, |offered|, Chunks(turns[k..])) == DataFrames(jobId, stream, 0, Chunks(turns))
  }

  lemma TurnStops(jobId: u32, stream: StreamId, turns: seq<Turn>, k: nat, offered: seq<Frame>)
    requires Pumped(jobId, stream, turns, k, offered)
    requires k == |turns| || turns[k].cancelled || turns[k].read.Eof? || turns[k].read.Failure?
    ensures offered == DataFrames(jobId, stream, 0, Chunks(turns))
  {
    assert k < |turns| ==> turns[k..][0] == turns[k];
    assert Chunks(turns[k..]) == [];
  }

  lemma TurnSkips(jobId: u32, stream: StreamId, turns: seq<Turn>, k: nat, offered: seq<Frame>)
    requires Pumped(jobId, stream, turns, k, offered)
    requires k < |turns| && !turns[k].cancelled && (turns[k].read.Nothing? || turns[k].read == Data([]))
    ensures Pumped(jobId, stream, turns, k + 1, offered)
  {
    assert turns[k..][0] == turns[k] && turns[k..][1..] == turns[k + 1..];
  }

  lemma TurnOffers(jobId: u32, stream: StreamId, turns: seq<Turn>, k: nat, offered: seq<Frame>)
    requires Pumped(jobId, stream, turns, k, offered)
    requires k < |turns| && !turns[k].cancelled && turns[k].read.Data? && turns[k].read.bytes != []
    ensures var more := offered + [DataFrame(jobId, stream, WrapU32(|offered|), turns[k].read.bytes)];
            && (turns[k].sends ==> Pumped(jobId, stream, turns, k + 1, more))
            && (!turns[k].sends ==> more == DataFrames(jobId, stream, 0, Chunks(turns)))
  {
    var n := |offered|;
    var frame := DataFrame(jobId, stream, WrapU32(n), turns[k].read.bytes);
    var rest := if turns[k].sends then Chunks(turns[k + 1..]) else [];
    ChunksHead(turns, k);
    DataFramesHead(jobId, stream, n, turns[k].read.bytes, rest);
    hide Chunks, DataFrames;
    AppendAssociates(offered, [frame], DataFrames(jobId, stream, n + 1, rest));
  }

  lemma AppendAssociates(a: seq<Frame>, b: seq<Frame>, c: seq<Frame>)
    ensures a + (b + c) == (a + b) + c
    ensures c == [] ==> (a + b) + c == a + b
  {
  }

  lemma ChunksHead(turns: seq<Turn>, k: nat)
    requires k < |turns| && !turns[k].cancelled && turns[k].read.Data? && turns[k].read.bytes != []
    ensures Chunks(turns[k..]) == [turns[k].read.bytes] + if turns[k].sends then Chunks(turns[k + 1..]) else []
  {
    assert turns[k..][0] == turns[k] && turns[k..][1..] == turns[k + 1..];
  }

  lemma DataFramesHead(jobId: u32, stream: StreamId, n: nat, chunk: seq<u8>, rest: seq<seq<u8>>)
    ensures DataFrames(jobId, stream, n, [chunk] + rest)
            == [DataFrame(jobId, stream, WrapU32(n), chunk)] + DataFrames(jobId, stream, n + 1, rest)
    ensures DataFrames(jobId, stream, n, []) == []
  {
  }

  // --- What the turns are, without the functions above ----------------------------------------

  /** The loop ends with this turn. */
  predicate Stops(t: Turn) {
    t.cancelled || t.read.Eof? || t.read.Failure? || !t.sends
  }

  /** The turns are those of the inputs, in order; exactly the last of fewer turns than inputs stops. */
  lemma {:induction false} CourseFollowsInputs(c: Counters, dropPolicy: bool, inputs: seq<Input>)
    ensures var turns := Course(c, dropPolicy, inputs).1;
            && |turns| <= |inputs|
            && (forall k :: 0 <= k < |turns| ==>
                  turns[k].cancelled == inputs[k].cancelled && turns[k].read == inputs[k].read)
            && (forall k :: 0 <= k < |turns| - 1 ==> !Stops(turns[k]))
            && (|turns| < |inputs| ==> turns != [] && Stops(turns[|turns| - 1]))
    decreases |inputs|
  {
    hide Offer;
    if inputs != [] {
      var i := inputs[0];
      if !Closes(i.cancelled, i.read) && !i.read.Failure? {
        var credit := Offer(c, OfferedSize(i.read, i.cancelled), dropPolicy, i.tries).0;
        var next := if IsEmpty(i.read) then c else credit;
        CourseFollowsInputs(next, dropPolicy, inputs[1..]);
        FollowsOneMore(inputs, Turn(false, i.read, true), Course(next, dropPolicy, inputs[1..]).1);
      }
    }
  }

  lemma FollowsOneMore(inputs: seq<Input>, turn: Turn, rest: seq<Turn>)
    requires inputs != [] && |rest| <= |inputs| - 1
    requires turn.cancelled == inputs[0].cancelled && turn.read == inputs[0].read
    requires forall k :: 0 <= k < |rest| ==>
               rest[k].cancelled == inputs[1..][k].cancelled && rest[k].read == inputs[1..][k].read
    ensures forall k :: 0 <= k < |rest| + 1 ==>
              ([turn] + rest)[k].cancelled == inputs[k].cancelled && ([turn] + rest)[k].read == inputs[k].read
  {
  }

  /** The loop has come to its end and builds the end marker. */
  predicate HasClosed(turns: seq<Turn>) {
    turns != [] && (turns[|turns| - 1].cancelled || turns[|turns| - 1].read.Eof?)
  }

  /** All bytes that the turns have read. */
  function ReadBytes(turns: seq<Turn>): seq<u8> {
    if turns == [] then []
    else (if !turns[0].cancelled && turns[0].read.Data? then turns[0].read.bytes else []) + ReadBytes(turns[1..])
  }

  function Join(chunks: seq<seq<u8>>): seq<u8> {
    if chunks == [] then [] else chunks[0] + Join(chunks[1..])
  }

  /** The chunks are never empty and are together everything that has been read, in order. */
  lemma {:induction false} ChunksAreReads(turns: seq<Turn>)
    requires forall k :: 0 <= k < |turns| - 1 ==> !Stops(turns[k])
    ensures Join(Chunks(turns)) == ReadBytes(turns) && forall j :: 0 <= j < |Chunks(turns)| ==> Chunks(turns)[j] != []
  {
    if turns != [] {
      ChunksAreReads(turns[1..]);
      assert |turns| == 1 ==> ReadBytes(turns[1..]) == [] && Chunks(turns[1..]) == [];
    }
  }

  /** The frames carry these chunks, field by field: the j-th the number j modulo 2^32, and a last one the end
      marker if `closed`. */
  predicate Carries(jobId: u32, stream: StreamId, chunks: seq<seq<u8>>, closed: bool, frames: seq<Frame>) {
    && |frames| == |chunks| + (if closed then 1 else 0)
    && forall j :: 0 <= j < |frames| ==>
         var f := frames[j];
         && f.frameType == Output && f.streamId == stream && f.jobId == jobId
         && f.sequenceNumber == j % 0x1_0000_0000
         && if j < |chunks| then f.flags == 0 && f.payload == chunks[j] else f.flags == 1 && f.payload == []
  }

  lemma OfferedCarriesChunks(jobId: u32, stream: StreamId, turns: seq<Turn>)
    ensures Carries(jobId, stream, Chunks(turns), HasClosed(turns), Offered(jobId, stream, turns))
  {
    var chunks := Chunks(turns);
    hide Chunks;
    FramesCarry(jobId, stream, chunks);
  }

  lemma FramesCarry(jobId: u32, stream: StreamId, chunks: seq<seq<u8>>)
    ensures var data := DataFrames(jobId, stream, 0, chunks);
            && Carries(jobId, stream, chunks, false, data)
            && Carries(jobId, stream, chunks, true, data + [EosFrame(jobId, stream, WrapU32(|data|))])
  {
  }

  /** With dropping on and a receiver that listens, no send breaks the loop. */
  lemma {:induction false} DroppingNeverBreaks(c: Counters, inputs: seq<Input>)
    requires forall k :: 0 <= k < |inputs| ==> inputs[k].open && inputs[k].tries != []
    ensures forall k :: 0 <= k < |Course(c, true, inputs).1| ==> Course(c, true, inputs).1[k].sends
    decreases |inputs|
  {
    if inputs != [] {
      var i := inputs[0];
      var (credit, verdict) := Offer(c, OfferedSize(i.read, i.cancelled), true, i.tries);
      assert !verdict.Waiting?;
      hide Offer;
      DroppingNeverBreaks(c, inputs[1..]);
      DroppingNeverBreaks(credit, inputs[1..]);
    }
  }

  /** The loop has made `k` of its turns, all of which lead on to the next. */
  ghost predicate Underway(
      c: Counters, dropPolicy: bool, jobId: u32, stream: StreamId, inputs: seq<Input>, k: nat, offered: seq<Frame>,
      last: Counters, turns: seq<Turn>) {
    && k <= |inputs| && k <= |turns|
    && Course(c, dropPolicy, inputs[k..]) == (last, turns[k..])
    && Pumped(jobId, stream, turns, k, offered)
    && (k > 0 ==> EndOf(turns[..k]) == Unfinished && !Closes(turns[k - 1].cancelled, turns[k - 1].read))
  }

  lemma CourseAt(c: Counters, dropPolicy: bool, inputs: seq<Input>, k: nat, last: Counters, turns: seq<Turn>)
    requires k < |inputs| && k <= |turns| && Course(c, dropPolicy, inputs[k..]) == (last, turns[k..])
    ensures k < |turns|
    ensures var i := inputs[k];
            var (credit, verdict) := Offer(c, OfferedSize(i.read, i.cancelled), dropPolicy, i.tries);
            if Closes(i.cancelled, i.read) then
              last == credit && turns == turns[..k] + [Turn(i.cancelled, i.read, GoesThrough(verdict, i.open))]
            else if i.read.Failure? then last == c && turns == turns[..k] + [Turn(false, Failure, true)]
            else if IsEmpty(i.read) then
              turns[k] == Turn(false, i.read, true) && Course(c, dropPolicy, inputs[k + 1..]) == (last, turns[k + 1..])
            else if !GoesThrough(verdict, i.open) then
              last == credit && turns == turns[..k] + [Turn(false, i.read, false)]
            else
              && turns[k] == Turn(false, i.read, true)
              && Course(credit, dropPolicy, inputs[k + 1..]) == (last, turns[k + 1..])
  {
    hide Offer;
    assert inputs[k..][0] == inputs[k] && inputs[k..][1..] == inputs[k + 1..];
    assert turns == turns[..k] + turns[k..];
    assert turns[k..] != [] && turns[k] == turns[k..][0] && turns[k + 1..] == turns[k..][1..];
  }

  function OfferedSize(read: ReadOutcome, cancelled: bool): nat {
    if !cancelled && read.Data? then |read.bytes| else 0
  }

  /** A last turn that closes or breaks the loop. */
  lemma LastTurn(jobId: u32, stream: StreamId, turns: seq<Turn>, k: nat, offered: seq<Frame>)
    requires Pumped(jobId, stream, turns, k, offered) && |turns| == k + 1
    requires Closes(turns[k].cancelled, turns[k].read) || turns[k].read.Failure?
    ensures Offered(jobId, stream, turns)
            == if Closes(turns[k].cancelled, turns[k].read) then offered + [EosFrame(jobId, stream, WrapU32(|offered|))]
               else offered
  {
    TurnStops(jobId, stream, turns, k, offered);
  }

  /** A turn that goes on. */
  lemma NextTurn(
      c: Counters, dropPolicy: bool, jobId: u32, stream: StreamId, inputs: seq<Input>, k: nat, offered: seq<Frame>,
      last: Counters, turns: seq<Turn>)
    requires k < |inputs| && k < |turns| && turns[k] == Turn(false, inputs[k].read, true)
    requires !Closes(false, inputs[k].read) && !inputs[k].read.Failure?
    requires Course(c, dropPolicy, inputs[k + 1..]) == (last, turns[k + 1..])
    requires Pumped(jobId, stream, turns, k + 1, offered)
    ensures Underway(c, dropPolicy, jobId, stream, inputs, k + 1, offered, last, turns)
  {
    hide Course, Pumped;
    assert turns[..k + 1][k] == turns[k];
  }

  lemma CourseBegins(
      c: Counters, dropPolicy: bool, jobId: u32, stream: StreamId, inputs: seq<Input>, last: Counters, turns: seq<Turn>)
    requires Course(c, dropPolicy, inputs) == (last, turns)
    ensures Underway(c, dropPolicy, jobId, stream, inputs, 0, [], last, turns)
  {
    assert inputs[0..] == inputs && turns[0..] == turns;
  }

  lemma WrapZero()
    ensures WrapU32(0) == 0
  {
  }

  /** Out of input: nothing is left of the course either. */
  lemma CourseDone(
      c: Counters, dropPolicy: bool, jobId: u32, stream: StreamId, inputs: seq<Input>, offered: seq<Frame>,
      last: Counters, turns: seq<Turn>)
    requires Underway(c, dropPolicy, jobId, stream, inputs, |inputs|, offered, last, turns)
    ensures c == last && offered == Offered(jobId, stream, turns) && EndOf(turns) == Unfinished
  {
    assert inputs[|inputs|..] == [];
    assert turns[|inputs|..] == [] && turns[..|inputs|] == turns;
    TurnStops(jobId, stream, turns, |inputs|, offered);
  }

  lemma UnsentTurn(jobId: u32, stream: StreamId, turns: seq<Turn>, k: nat, offered: seq<Frame>)
    requires |turns| == k + 1 && !turns[k].cancelled && turns[k].read.Data? && !turns[k].sends
    requires offered == DataFrames(jobId, stream, 0, Chunks(turns))
    ensures offered == Offered(jobId, stream, turns) && EndOf(turns) == Unsent
  {
  }

  /** What is promised when the loop ends. */
  ghost predicate PumpedOut(
      credit: Counters, dropPolicy: bool, channel: seq<Frame>, jobId: u32, stream: StreamId,
      offered: seq<Frame>, sent: seq<Frame>, end: PumpEnd, last: Counters, turns: seq<Turn>) {
    && credit == last
    && offered == Offered(jobId, stream, turns)
    && end == EndOf(turns)
    && (end.Unsent? ==> offered != [])
    && (!dropPolicy ==> sent == channel + if end.Unsent? then offered[..|offered| - 1] else offered)
  }

  lemma CourseDonePumpedOut(
      c: Counters, dropPolicy: bool, channel: seq<Frame>, jobId: u32, stream: StreamId, inputs: seq<Input>,
      offered: seq<Frame>, sent: seq<Frame>, last: Counters, turns: seq<Turn>)
    requires Underway(c, dropPolicy, jobId, stream, inputs, |inputs|, offered, last, turns)
    requires !dropPolicy ==> sent == channel + offered
    ensures PumpedOut(c, dropPolicy, channel, jobId, stream, offered, sent, Unfinished, last, turns)
  {
    CourseDone(c, dropPolicy, jobId, stream, inputs, offered, last, turns);
  }

  lemma PumpedOutCarries(
      credit: Counters, dropPolicy: bool, channel: seq<Frame>, jobId: u32, stream: StreamId,
      offered: seq<Frame>, sent: seq<Frame>, end: PumpEnd, last: Counters, turns: seq<Turn>)
    requires PumpedOut(credit, dropPolicy, channel, jobId, stream, offered, sent, end, last, turns)
    ensures Carries(jobId, stream, Chunks(turns), HasClosed(turns), offered)
  {
    OfferedCarriesChunks(jobId, stream, turns);
  }

  /** The end marker. */
  method SendEos(
      pump: StreamPump, ghost channel: seq<Frame>, jobId: u32, stream: StreamId, input: Input, sequence: u32,
      offered: seq<Frame>, sent: seq<Frame>, ghost k: nat, ghost turns: seq<Turn>)
    returns (all: seq<Frame>, now: seq<Frame>, end: PumpEnd)
    requires Pumped(jobId, stream, turns, k, offered) && |turns| == k + 1 && sequence == WrapU32(|offered|)
    requires Closes(input.cancelled, input.read)
    requires turns[k] == Turn(input.cancelled, input.read,
                              GoesThrough(Offer(pump.View(), 0, pump.dropPolicy, input.tries).1, input.open))
    requires !pump.dropPolicy ==> sent == channel + offered
    modifies pump
    ensures PumpedOut(pump.View(), pump.dropPolicy, channel, jobId, stream, all, now, end,
                      Offer(old(pump.View()), 0, pump.dropPolicy, input.tries).0, turns)
  {
    hide Pumped, Offered, Offer;
    var eos := EosFrame(jobId, stream, sequence);
    var verdict;
    now, verdict := pump.TrySendFrame(sent, eos, input.open, input.tries);
    LastTurn(jobId, stream, turns, k, offered);
    all := offered + [eos];
    end := if GoesThrough(verdict, input.open) then Finished else Unsent;
    assert all[..|all| - 1] == offered;
  }

  /** One non-empty chunk. */
  method SendChunk(
      pump: StreamPump, ghost channel: seq<Frame>, jobId: u32, stream: StreamId, input: Input, sequence: u32,
      offered: seq<Frame>, sent: seq<Frame>, ghost k: nat, ghost turns: seq<Turn>)
    returns (all: seq<Frame>, now: seq<Frame>, through: bool)
    requires Pumped(jobId, stream, turns, k, offered) && k < |turns| && sequence == WrapU32(|offered|)
    requires !input.cancelled && input.read.Data? && input.read.bytes != []
    requires var verdict := Offer(pump.View(), |input.read.bytes|, pump.dropPolicy, input.tries).1;
             turns[k] == Turn(false, input.read, GoesThrough(verdict, input.open))
    requires !pump.dropPolicy ==> sent == channel + offered
    modifies pump
    ensures pump.View() == Offer(old(pump.View()), |input.read.bytes|, pump.dropPolicy, input.tries).0
    ensures |all| == |offered| + 1 && through == turns[k].sends
    ensures through ==> Pumped(jobId, stream, turns, k + 1, all) && (!pump.dropPolicy ==> now == channel + all)
    ensures !through ==>
              && all == DataFrames(jobId, stream, 0, Chunks(turns))
              && (!pump.dropPolicy ==> now == channel + all[..|all| - 1])
  {
    hide Pumped, Offer, Chunks, DataFrames;
    var frame := DataFrame(jobId, stream, sequence, input.read.bytes);
    var verdict;
    now, verdict := pump.TrySendFrame(sent, frame, input.open, input.tries);
    TurnOffers(jobId, stream, turns, k, offered);
    all := offered + [frame];
    through := GoesThrough(verdict, input.open);
    assert all[..|all| - 1] == offered;
  }

  /** One turn of the loop. */
  method PumpTurn(
      pump: StreamPump, ghost channel: seq<Frame>, jobId: u32, stream: StreamId, inputs: seq<Input>, k: nat,
      sequence: u32, offered: seq<Frame>, sent: seq<Frame>, ghost last: Counters, ghost turns: seq<Turn>)
    returns (next: u32, all: seq<Frame>, now: seq<Frame>, stop: Option<PumpEnd>)
    requires k < |inputs| && sequence == WrapU32(|offered|)
    requires Underway(pump.View(), pump.dropPolicy, jobId, stream, inputs, k, offered, last, turns)
    requires !pump.dropPolicy ==> sent == channel + offered
    modifies pump
    ensures stop.None? ==>
              && next == WrapU32(|all|) && (!pump.dropPolicy ==> now == channel + all)
              && Underway(pump.View(), pump.dropPolicy, jobId, stream, inputs, k + 1, all, last, turns)
    ensures stop.Some? ==>
              PumpedOut(pump.View(), pump.dropPolicy, channel, jobId, stream, all, now, stop.value, last, turns)
  {
    hide Pumped, Chunks, DataFrames, Course, Offer, Offered;
    var input := inputs[k];
    next, all, now, stop := sequence, offered, sent, None;
    CourseAt(pump.View(), pump.dropPolicy, inputs, k, last, turns);
    if Closes(input.cancelled, input.read) {
      var end;
      all, now, end := SendEos(pump, channel, jobId, stream, input, sequence, offered, sent, k, turns);
      stop := Some(end);
    } else if input.read.Failure? {
      LastTurn(jobId, stream, turns, k, offered);
      stop := Some(BrokenRead);
    } else if IsEmpty(input.read) {
      TurnSkips(jobId, stream, turns, k, offered);
      NextTurn(pump.View(), pump.dropPolicy, jobId, stream, inputs, k, offered, last, turns);
    } else {
      var through;
      all, now, through := SendChunk(pump, channel, jobId, stream, input, sequence, offered, sent, k, turns);
      next := WrapU32(sequence + 1);
      if through {
        NextTurn(pump.View(), pump.dropPolicy, jobId, stream, inputs, k, all, last, turns);
      } else {
        UnsentTurn(jobId, stream, turns, k, all);
        stop := Some(Unsent);
      }
    }
  }

  /** `start_output_pump` on the shared window, with other tasks' accesses to it at every point. The i-th
      data frame carries i modulo 2^32 and the i-th chunk; the frames are those of the turns that the
      window lets it make; an end marker carries the number of data frames. With dropping off, the channel
      receives all of them in order, but for the last if the loop breaks on it. */
  method StartOutputPump(pump: StreamPump, channel: seq<Frame>, jobId: u32, stream: StreamId, inputs: seq<Input>)
    returns (offered: seq<Frame>, sent: seq<Frame>, end: PumpEnd)
    modifies pump
    ensures var (last, turns) := Course(old(pump.View()), pump.dropPolicy, inputs);
            && PumpedOut(pump.View(), pump.dropPolicy, channel, jobId, stream, offered, sent, end, last, turns)
            && Carries(jobId, stream, Chunks(turns), HasClosed(turns), offered)
  {
    offered, sent := [], channel;
    var sequence: u32 := 0;
    ghost var (last, turns) := Course(pump.View(), pump.dropPolicy, inputs);
    CourseBegins(pump.View(), pump.dropPolicy, jobId, stream, inputs, last, turns);
    hide *;
    assert |offered| == 0;
    WrapZero();
    for k := 0 to |inputs|
      invariant sequence == WrapU32(|offered|)
      invariant Underway(pump.View(), pump.dropPolicy, jobId, stream, inputs, k, offered, last, turns)
      invariant !pump.dropPolicy ==> sent == channel + offered
    {
      var stop;
      sequence, offered, sent, stop := PumpTurn(
        pump, channel, jobId, stream, inputs, k, sequence, offered, sent, last, turns);
      if stop.Some? {
        PumpedOutCarries(
          pump.View(), pump.dropPolicy, channel, jobId, stream, offered, sent, stop.value, last, turns);
        return offered, sent, stop.value;
      }
    }
    end := Unfinished;
    CourseDonePumpedOut(pump.View(), pump.dropPolicy, channel, jobId, stream, inputs, offered, sent, last, turns);
    PumpedOutCarries(pump.View(), pump.dropPolicy, channel, jobId, stream, offered, sent, end, last, turns);
  }
}
