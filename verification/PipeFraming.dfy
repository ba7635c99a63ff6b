/** Length-prefixed frames over a byte pipe with short reads and short writes (src/pipe_server.rs). */
module PipeFraming {
  import opened MachineWords
  import opened Errors
  import opened Protocol

  const PREFIX_SIZE := 4
  const READ_LIMIT := 1024 * 1024

  // --- The byte stream as a value ------------------------------------------------------------

  /** What `write_frame_static` puts on the pipe for one frame: nothing for an oversized one. */
  function WireFrame(host: HostOrder, f: Frame): (bytes: seq<u8>)
    ensures Encodable(f) ==> |bytes| == PREFIX_SIZE + HEADER_SIZE + |f.payload|
    ensures !Encodable(f) ==> bytes == []
  {
    match Encode(host, f)
    case Ok(data) => PutU32(|data|) + data
    case Err(_) => []
  }

  predicate AllEncodable(frames: seq<Frame>) {
    forall f :: f in frames ==> Encodable(f)
  }

  function WireOf(host: HostOrder, frames: seq<Frame>): seq<u8> {
    if frames == [] then [] else WireFrame(host, frames[0]) + WireOf(host, frames[1..])
  }

  function HostViews(host: HostOrder, frames: seq<Frame>): (views: seq<Frame>)
    ensures |views| == |frames|
  {
    seq(|frames|, i requires 0 <= i < |frames| => HostView(host, frames[i]))
  }

  datatype Parse =
    | Parsed(frame: Frame, rest: seq<u8>)
    | Truncated
    | Malformed(error: Error)

  /** One `read_frame_static` on a stream that holds exactly `data` and then ends. */
  function ParseOne(data: seq<u8>): (p: Parse)
    ensures p.Parsed? ==> |p.rest| < |data|
  {
    if |data| < PREFIX_SIZE then Truncated
    else
      var len := GetU32(data[..PREFIX_SIZE]) as int;
      if len > READ_LIMIT then Malformed(Error.Protocol("Frame too large"))
      else if |data| < PREFIX_SIZE + len then Truncated
      else
        match Decode(data[PREFIX_SIZE..PREFIX_SIZE + len])
        case Ok(f) => Parsed(f, data[PREFIX_SIZE + len..])
        case Err(e) => Malformed(e)
  }

  datatype Session = Session(frames: seq<Frame>, end: Parse, leftover: seq<u8>)

  /** Reading frames until the first failure: the frames, the failure, the bytes it left unparsed. */
  function ParseAll(data: seq<u8>): (s: Session)
    ensures !s.end.Parsed?
    decreases |data|
  {
    match ParseOne(data)
    case Parsed(f, rest) =>
      var tail := ParseAll(rest);
      tail.(frames := [f] + tail.frames)
    case stop => Session([], stop, data)
  }

  /** The prefix is the length of what follows, most significant byte first. */
  lemma WireBytes(host: HostOrder, f: Frame)
    requires Encodable(f)
    ensures var w := WireFrame(host, f);
            && |w| == 16 + |f.payload|
            && Quad(w[0], w[1], w[2], w[3]) == 12 + |f.payload|
            && w[4..] == Encode(host, f).value
  {
    hide PutU32, PutU16, Quad, Header;
    var prefix := PutU32(12 + |f.payload|);
    PutDigits(0, 12 + |f.payload|);
    assert WireFrame(host, f) == prefix + Encode(host, f).value;
    assert WireFrame(host, f)[..4] == prefix;
  }

  /** What a read makes of the bytes: not enough of them, a length beyond one mebibyte, or as many bytes as
      the prefix says, for the decoder. */
  lemma ParseCases(data: seq<u8>)
    ensures |data| < 4 ==> ParseOne(data) == Truncated
    ensures |data| >= 4 ==>
              var len := Quad(data[0], data[1], data[2], data[3]);
              && (len > 1_048_576 <==> ParseOne(data) == Malformed(Error.Protocol("Frame too large")))
              && (ParseOne(data) == Truncated <==> len <= 1_048_576 && |data| < 4 + len)
              && (len <= 1_048_576 && |data| >= 4 + len ==>
                    match Decode(data[4..4 + len])
                    case Ok(f) => ParseOne(data) == Parsed(f, data[4 + len..])
                    case Err(e) => ParseOne(data) == Malformed(e))
  {
    if |data| >= 4 {
      assert data[..PREFIX_SIZE] == [data[0], data[1], data[2], data[3]];
      GetDigits(data[..PREFIX_SIZE]);
      DecodeErrors(data);
    }
  }

  lemma DecodeErrors(data: seq<u8>)
    ensures forall d :: Decode(d).Err? ==> Decode(d).error != Error.Protocol("Frame too large")
  {
    assert "Frame too large"[6] == 't' && "Frame too short"[6] == 't' && "Frame too large"[10] != "Frame too short"[10];
    assert "Frame too large"[0] != "Unknown frame type"[0] && "Frame too large"[0] != "Invalid stream ID"[0];
  }

  /** Reading frames stops at the first failure and leaves the rest of the bytes, the failing ones included. */
  lemma {:induction false} ParseAllStops(data: seq<u8>)
    ensures var s := ParseAll(data);
            && !s.end.Parsed? && s.end == ParseOne(s.leftover)
            && |s.leftover| <= |data| && s.leftover == data[|data| - |s.leftover|..]
            && |s.frames| <= |data| - |s.leftover|
    decreases |data|
  {
    hide Decode;
    var p := ParseOne(data);
    if p.Parsed? {
      ParseAllStops(p.rest);
    }
  }

  /** One frame off the front of a stream. */
  lemma ParseStep(data: seq<u8>, rest: seq<u8>, f: Frame)
    ensures ParseOne(data) == Parsed(f, rest) ==>
              ParseAll(data) == ParseAll(rest).(frames := [f] + ParseAll(rest).frames)
    ensures !ParseOne(data).Parsed? ==> ParseAll(data).frames == []
  {
  }

  lemma ParseWireFrame(host: HostOrder, f: Frame, tail: seq<u8>)
    requires Encodable(f)
    ensures ParseOne(WireFrame(host, f) + tail) == Parsed(HostView(host, f), tail)
  {
    var data := Encode(host, f).value;
    var stream := WireFrame(host, f) + tail;
    assert stream[..PREFIX_SIZE] == PutU32(|data|);
    assert stream[PREFIX_SIZE..PREFIX_SIZE + |data|] == data;
    assert stream[PREFIX_SIZE + |data|..] == tail;
    GetPutU32(|data|);
    DecodeEncode(host, f);
  }

  /** A proper prefix of one frame's bytes is always reported as truncated, never as a frame. */
  lemma ParseCutFrame(host: HostOrder, f: Frame, k: nat)
    requires Encodable(f) && k < |WireFrame(host, f)|
    ensures ParseOne(WireFrame(host, f)[..k]) == Truncated
  {
    var data := Encode(host, f).value;
    if k >= PREFIX_SIZE {
      assert WireFrame(host, f)[..k][..PREFIX_SIZE] == PutU32(|data|);
      GetPutU32(|data|);
    }
  }

  /** Reading back what was written gives the same frames, as the host shows them, and consumes
      exactly their bytes. */
  lemma {:induction false} ParseWire(host: HostOrder, frames: seq<Frame>, tail: seq<u8>)
    requires AllEncodable(frames)
    ensures var after := ParseAll(tail);
            ParseAll(WireOf(host, frames) + tail) == after.(frames := HostViews(host, frames) + after.frames)
  {
    hide WireFrame, ParseOne, ParseAll, HostView;
    var after := ParseAll(tail);
    if frames == [] {
      assert WireOf(host, frames) + tail == tail;
      assert HostViews(host, frames) + after.frames == after.frames;
    } else {
      var first, rest := WireFrame(host, frames[0]), WireOf(host, frames[1..]);
      assert WireOf(host, frames) + tail == first + (rest + tail);
      hide WireOf;
      ParseWireFrame(host, frames[0], rest + tail);
      ParseStep(first + (rest + tail), rest + tail, HostView(host, frames[0]));
      ParseWire(host, frames[1..], tail);
      HostViewsHead(host, frames, after.frames);
    }
  }

  lemma HostViewsHead(host: HostOrder, frames: seq<Frame>, more: seq<Frame>)
    requires frames != []
    ensures HostViews(host, frames) + more == [HostView(host, frames[0])] + (HostViews(host, frames[1..]) + more)
  {
    hide HostView;
    assert HostViews(host, frames) == [HostView(host, frames[0])] + HostViews(host, frames[1..]);
  }

  lemma CutAppend(a: seq<u8>, b: seq<u8>, k: nat)
    requires |a| <= k <= |a| + |b|
    ensures (a + b)[..k] == a + b[..k - |a|]
  {
  }

  /** How many leading frames fit entirely in the first `k` bytes of their wire form. */
  function FramesWithin(frames: seq<Frame>, k: nat): (m: nat)
    ensures m <= |frames|
  {
    if frames == [] then 0
    else
      var size := PREFIX_SIZE + HEADER_SIZE + |frames[0].payload|;
      if k < size then 0 else 1 + FramesWithin(frames[1..], k - size)
  }

  /** The first `k` bytes are the frames that fit, followed by a proper prefix of the next one. */
  lemma {:induction false} CutWire(host: HostOrder, frames: seq<Frame>, k: nat) returns (cut: nat)
    requires AllEncodable(frames) && k <= |WireOf(host, frames)|
    ensures var m := FramesWithin(frames, k);
            && k == |WireOf(host, frames[..m])| + cut
            && (cut > 0 ==> m < |frames|)
            && (m < |frames| ==> cut < |WireFrame(host, frames[m])|)
            && WireOf(host, frames)[..k]
               == WireOf(host, frames[..m]) + if m < |frames| then WireFrame(host, frames[m])[..cut] else []
  {
    hide WireFrame;
    var m := FramesWithin(frames, k);
    if frames == [] {
      cut := 0;
    } else if k < |WireFrame(host, frames[0])| {
      cut := k;
      assert frames[..0] == [];
    } else {
      var first := WireFrame(host, frames[0]);
      cut := CutWire(host, frames[1..], k - |first|);
      assert frames[..m][1..] == frames[1..][..m - 1];
      var rest, whole := WireOf(host, frames[1..]), WireOf(host, frames[1..][..m - 1]);
      assert WireOf(host, frames) == first + rest && WireOf(host, frames[..m]) == first + whole;
      hide WireOf;
      CutAppend(first, rest, k);
      Append(first, whole, if m < |frames| then WireFrame(host, frames[m])[..cut] else []);
    }
  }

  /** A stream cut after any `k` bytes yields exactly the frames that fit, then a truncation: never an
      altered frame and never a malformed one. */
  lemma ParseCutWire(host: HostOrder, frames: seq<Frame>, k: nat)
    requires AllEncodable(frames) && k <= |WireOf(host, frames)|
    ensures var s := ParseAll(WireOf(host, frames)[..k]);
            s.frames == HostViews(host, frames[..FramesWithin(frames, k)]) && s.end == Truncated
  {
    hide WireFrame, ParseOne, HostView, WireOf;
    var m := FramesWithin(frames, k);
    var cut := CutWire(host, frames, k);
    var tail := if m < |frames| then WireFrame(host, frames[m])[..cut] else [];
    ParseWire(host, frames[..m], tail);
    if m < |frames| {
      ParseCutFrame(host, frames[m], cut);
    } else {
      ParseNothing();
    }
    assert ParseAll(tail) == Session([], Truncated, tail);
    assert HostViews(host, frames[..m]) + [] == HostViews(host, frames[..m]);
  }

  lemma ParseNothing()
    ensures ParseOne([]) == Truncated
  {
  }

  lemma {:induction false} WireAppend(host: HostOrder, a: seq<Frame>, b: seq<Frame>)
    ensures WireOf(host, a + b) == WireOf(host, a) + WireOf(host, b)
  {
    hide WireFrame;
    if a == [] {
      assert a + b == b;
    } else {
      assert (a + b)[0] == a[0] && (a + b)[1..] == a[1..] + b;
      WireAppend(host, a[1..], b);
      var first, rest, more := WireFrame(host, a[0]), WireOf(host, a[1..]), WireOf(host, b);
      assert WireOf(host, a) == first + rest && WireOf(host, a + b) == first + (rest + more);
      hide WireOf;
      Append(first, rest, more);
    }
  }

  /** What a failed system call leaves: an I/O error with the binding's code. */
  predicate IsOsError(e: Error) {
    e.Io? && e.kind.Os? && e.kind.code <= 0
  }

  lemma WireSnoc(host: HostOrder, queue: seq<Frame>, k: nat)
    requires k < |queue|
    ensures queue[..k + 1] == queue[..k] + [queue[k]]
    ensures WireOf(host, queue[..k + 1]) == WireOf(host, queue[..k]) + WireFrame(host, queue[k])
  {
    hide WireFrame;
    WireAppend(host, queue[..k], [queue[k]]);
    assert queue[..k + 1] == queue[..k] + [queue[k]];
    assert WireOf(host, [queue[k]]) == WireFrame(host, queue[k]);
  }

  // --- The pipe and its read and write loops -------------------------------------------------

  /** One direction of a named pipe. `incoming` is what the peer will ever deliver, `outgoing` what has
      been accepted for the peer. Only an unhealthy pipe fails before the peer's data has run out. */
  class Pipe {
    const healthy: bool
    var incoming: seq<u8>
    var outgoing: seq<u8>

    constructor (healthy: bool, incoming: seq<u8>)
      ensures this.healthy == healthy && this.incoming == incoming && outgoing == []
    {
      this.healthy, this.incoming, this.outgoing := healthy, incoming, [];
    }

    /** `ReadFile`: a non-empty piece of what is left, of a size the system chooses; at the end of the
        data either zero bytes or a broken pipe. */
    method ReadFile(room: nat) returns (r: Result<seq<u8>>)
      requires room > 0
      modifies this`incoming
      ensures r.Ok? ==> |r.value| <= room && r.value + incoming == old(incoming)
      ensures r.Ok? && r.value == [] ==> old(incoming) == []
      ensures r.Err? ==> IsOsError(r.error) && incoming == old(incoming)
      ensures r.Err? && healthy ==> incoming == [] && r.error == Io(BrokenPipe)
    {
      var fault: bool := *;
      if !healthy && fault {
        var win32: u32 := *;
        return Err(Io(Os(HResult(win32))));
      }
      if incoming == [] {
        var zero: bool := *;
        return if zero then Ok([]) else Err(Io(BrokenPipe));
      }
      var k: nat :| 1 <= k <= room && k <= |incoming|;
      r := Ok(incoming[..k]);
      incoming := incoming[k..];
    }

    /** `WriteFile`: a successful call accepts a non-empty prefix of the data, of a size the system
        chooses. */
    method WriteFile(data: seq<u8>) returns (r: Result<nat>)
      requires data != []
      modifies this`outgoing
      ensures r.Ok? ==> 1 <= r.value <= |data| && outgoing == old(outgoing) + data[..r.value]
      ensures r.Err? ==> !healthy && IsOsError(r.error) && outgoing == old(outgoing)
    {
      var fault: bool := *;
      if !healthy && fault {
        return Err(Io(BrokenPipe));
      }
      var k: nat :| 1 <= k <= |data|;
      outgoing := outgoing + data[..k];
      return Ok(k);
    }

    /** `read_exact`: fills a buffer of `size` bytes from as many short reads as it takes. */
    method ReadExact(size: nat) returns (r: Result<seq<u8>>)
      modifies this`incoming
      ensures r.Ok? ==> |r.value| == size && r.value + incoming == old(incoming)
      ensures r.Err? ==> IsOsError(r.error) || r.error == Io(UnexpectedEof)
      ensures r.Err? && healthy ==>
                incoming == [] && |old(incoming)| < size && (r.error == Io(BrokenPipe) || r.error == Io(UnexpectedEof))
    {
      var buffer := new u8[size](_ => 0);
      var offset := 0;
      while offset < size
        invariant 0 <= offset <= size
        invariant buffer[..offset] + incoming == old(incoming)
      {
        var got := ReadFile(size - offset);
        if got.Err? {
          return Err(got.error);
        }
        if got.value == [] {
          return Err(Io(UnexpectedEof));
        }
        ghost var filled := buffer[..offset];
        forall j | 0 <= j < |got.value| {
          buffer[offset + j] := got.value[j];
        }
        assert buffer[..offset + |got.value|] == filled + got.value;
        offset := offset + |got.value|;
      }
      assert buffer[..offset] == buffer[..];
      return Ok(buffer[..]);
    }

    /** `read_frame_static` refines `ParseOne`, whatever the sizes of the reads. */
    method ReadFrame() returns (r: Result<Frame>)
      modifies this`incoming
      ensures r.Ok? ==> ParseOne(old(incoming)) == Parsed(r.value, incoming)
      ensures r.Err? && r.error.Protocol? ==> ParseOne(old(incoming)) == Malformed(r.error)
      ensures r.Err? ==> r.error.Protocol? || IsOsError(r.error) || r.error == Io(UnexpectedEof)
      ensures healthy && r.Err? && r.error.Io? ==> ParseOne(old(incoming)) == Truncated && incoming == []
      ensures r.Ok? ==> |incoming| < |old(incoming)|
    {
      ghost var before := incoming;
      var prefix := ReadExact(PREFIX_SIZE);
      if prefix.Err? {
        return Err(prefix.error);
      }
      assert before[..PREFIX_SIZE] == prefix.value;
      var len := GetU32(prefix.value) as int;
      if len > READ_LIMIT {
        return Err(Error.Protocol("Frame too large"));
      }
      ghost var body := incoming;
      assert before == prefix.value + body;
      var data := ReadExact(len);
      if data.Err? {
        return Err(data.error);
      }
      assert before == prefix.value + data.value + incoming;
      assert before[PREFIX_SIZE..PREFIX_SIZE + len] == data.value;
      assert before[PREFIX_SIZE + len..] == incoming;
      r := Decode(data.value);
      DecodeFails(data.value);
    }

    /** `write_all`: everything on success, a prefix of it on failure. */
    method WriteAll(data: seq<u8>) returns (r: Result<nat>)
      modifies this`outgoing
      ensures old(outgoing) <= outgoing <= old(outgoing) + data
      ensures r.Ok? ==> outgoing == old(outgoing) + data
      ensures r.Err? ==> !healthy
    {
      var offset := 0;
      while offset < |data|
        invariant 0 <= offset <= |data|
        invariant outgoing == old(outgoing) + data[..offset]
      {
        var wrote := WriteFile(data[offset..]);
        if wrote.Err? {
          return Err(wrote.error);
        }
        assert data[..offset + wrote.value] == data[..offset] + data[offset..][..wrote.value];
        offset := offset + wrote.value;
      }
      return Ok(offset);
    }

    /** `write_frame_static`: refuses an oversized payload before the first byte. */
    method WriteFrame(host: HostOrder, f: Frame) returns (r: Result<nat>)
      modifies this`outgoing
      ensures !Encodable(f) ==> r.Err? && outgoing == old(outgoing)
      ensures Encodable(f) ==> old(outgoing) <= outgoing <= old(outgoing) + WireFrame(host, f)
      ensures Encodable(f) && r.Ok? ==> outgoing == old(outgoing) + WireFrame(host, f)
      ensures Encodable(f) && healthy ==> r.Ok?
    {
      var data := EncodeFrame(host, f);
      if data.Err? {
        return Err(data.error);
      }
      ghost var before, prefix := outgoing, PutU32(|data.value|);
      assert WireFrame(host, f) == prefix + data.value;
      Append(before, prefix, data.value);
      hide WireFrame, Encode, PutU32;
      r := WriteAll(PutU32(|data.value|));
      if r.Ok? {
        r := WriteAll(data.value);
      }
    }

    /** The writer task: drains the queue in order and gives up at the first failure. */
    method WriterTask(host: HostOrder, queue: seq<Frame>) returns (written: nat)
      modifies this`outgoing
      ensures written <= |queue| && AllEncodable(queue[..written])
      ensures old(outgoing) + WireOf(host, queue[..written]) <= outgoing
      ensures written < |queue| && !Encodable(queue[written]) ==>
                outgoing == old(outgoing) + WireOf(host, queue[..written])
      ensures written < |queue| && Encodable(queue[written]) ==>
                !healthy && outgoing <= old(outgoing) + WireOf(host, queue[..written + 1])
      ensures written == |queue| ==> outgoing == old(outgoing) + WireOf(host, queue)
    {
      hide WireFrame;
      written := 0;
      assert queue[..0] == [];
      while written < |queue|
        invariant written <= |queue| && AllEncodable(queue[..written])
        invariant outgoing == old(outgoing) + WireOf(host, queue[..written])
      {
        WireSnoc(host, queue, written);
        hide WireOf;
        var r := WriteFrame(host, queue[written]);
        if r.Err? {
          return;
        }
        written := written + 1;
      }
      assert queue[..written] == queue;
    }
  }

  lemma Append(a: seq<u8>, b: seq<u8>, c: seq<u8>)
    ensures (a + b) + c == a + (b + c) && a + b <= a + (b + c)
  {
  }

  lemma DecodeFails(data: seq<u8>)
    ensures Decode(data).Err? ==> Decode(data).error.Protocol?
  {
  }
}
