/** Frames and their byte encoding (src/protocol.rs). */
module Protocol {
  import opened MachineWords
  import opened Errors

  const MAX_FRAME_SIZE := 1_048_576
  const MAX_PAYLOAD_SIZE := 32_768
  const DEFAULT_WINDOW_SIZE := 65_536
  const HEADER_SIZE := 12

  const FLAG_EOS: u16 := 0x01

  datatype FrameType =
    | Hello | HelloAck | Run | RunAck | Output | Status | Exit
    | Cancel | CancelAck | WindowUpdate | ErrorFrame | Goodbye | Ping | Pong

  datatype StreamId = Control | Stdout | Stderr | Stdin

  function TypeCode(t: FrameType): u8 {
    match t
    case Hello => 0x01
    case HelloAck => 0x02
    case Run => 0x10
    case RunAck => 0x11
    case Output => 0x20
    case Status => 0x30
    case Exit => 0x40
    case Cancel => 0x50
    case CancelAck => 0x51
    case WindowUpdate => 0x60
    case ErrorFrame => 0xF0
    case Goodbye => 0xFD
    case Ping => 0xFE
    case Pong => 0xFF
  }

  function TypeFromCode(b: u8): Result<FrameType> {
    if b == 0x01 then Ok(Hello)
    else if b == 0x02 then Ok(HelloAck)
    else if b == 0x10 then Ok(Run)
    else if b == 0x11 then Ok(RunAck)
    else if b == 0x20 then Ok(Output)
    else if b == 0x30 then Ok(Status)
    else if b == 0x40 then Ok(Exit)
    else if b == 0x50 then Ok(Cancel)
    else if b == 0x51 then Ok(CancelAck)
    else if b == 0x60 then Ok(WindowUpdate)
    else if b == 0xF0 then Ok(ErrorFrame)
    else if b == 0xFD then Ok(Goodbye)
    else if b == 0xFE then Ok(Ping)
    else if b == 0xFF then Ok(Pong)
    else Err(Error.Protocol("Unknown frame type"))
  }

  function StreamCode(s: StreamId): u8 {
    match s
    case Control => 0
    case Stdout => 1
    case Stderr => 2
    case Stdin => 3
  }

  function StreamFromCode(b: u8): Result<StreamId> {
    if b == 0 then Ok(Control)
    else if b == 1 then Ok(Stdout)
    else if b == 2 then Ok(Stderr)
    else if b == 3 then Ok(Stdin)
    else Err(Error.Protocol("Invalid stream ID"))
  }

  datatype Frame = Frame(
    frameType: FrameType,
    streamId: StreamId,
    flags: u16,
    jobId: u32,
    sequenceNumber: u32,
    payload: seq<u8>)

  /** Bit 0 of the flags: `has_flag(FLAG_EOS)`. */
  predicate HasEos(f: Frame) {
    f.flags % 2 == 1
  }

  predicate Encodable(f: Frame) {
    |f.payload| <= MAX_PAYLOAD_SIZE
  }

  /** The 12 header bytes. The three numeric fields pass through `to_be` and are then written
      most significant byte first, so a little-endian host reverses them. */
  function Header(host: HostOrder, f: Frame): (bytes: seq<u8>)
    ensures |bytes| == HEADER_SIZE
  {
    [TypeCode(f.frameType), StreamCode(f.streamId)]
    + PutU16(ToBe16(host, f.flags))
    + PutU32(ToBe32(host, f.jobId))
    + PutU32(ToBe32(host, f.sequenceNumber))
  }

  function Encode(host: HostOrder, f: Frame): Result<seq<u8>> {
    if Encodable(f) then Ok(Header(host, f) + f.payload) else Err(Error.Protocol("Payload too large"))
  }

  /** `encode` as the source runs it: size checks, then one append per field. */
  method EncodeFrame(host: HostOrder, f: Frame) returns (r: Result<seq<u8>>)
    ensures r == Encode(host, f)
    ensures r.Ok? <==> |f.payload| <= 32_768
    ensures r.Ok? ==> |r.value| == 12 + |f.payload| <= 1_048_576
  {
    var payloadLen := |f.payload|;
    if payloadLen > MAX_PAYLOAD_SIZE {
      return Err(Error.Protocol("Payload too large"));
    }
    var frameLen := 1 + 1 + 2 + 4 + 4 + payloadLen;
    if frameLen > MAX_FRAME_SIZE {
      return Err(Error.Protocol("Frame too large"));
    }
    var buf: seq<u8> := [];
    buf := buf + [TypeCode(f.frameType)];
    buf := buf + [StreamCode(f.streamId)];
    buf := buf + PutU16(ToBe16(host, f.flags));
    buf := buf + PutU32(ToBe32(host, f.jobId));
    buf := buf + PutU32(ToBe32(host, f.sequenceNumber));
    assert buf == Header(host, f);
    buf := buf + f.payload;
    return Ok(buf);
  }

  function Decode(data: seq<u8>): Result<Frame> {
    if |data| < HEADER_SIZE then Err(Error.Protocol("Frame too short"))
    else
      match TypeFromCode(data[0])
      case Err(e) => Err(e)
      case Ok(frameType) =>
        match StreamFromCode(data[1])
        case Err(e) => Err(e)
        case Ok(streamId) =>
          Ok(Frame(frameType, streamId, GetU16(data[2..4]), GetU32(data[4..8]), GetU32(data[8..12]), data[12..]))
  }

  /** What a decoder sees of a frame encoded on `host`. */
  function HostView(host: HostOrder, f: Frame): Frame {
    f.(flags := ToBe16(host, f.flags),
       jobId := ToBe32(host, f.jobId),
       sequenceNumber := ToBe32(host, f.sequenceNumber))
  }

  // --- Tag bytes -----------------------------------------------------------------------------

  lemma TypeCodes(t: FrameType, b: u8)
    ensures TypeFromCode(b) == Ok(t) <==> TypeCode(t) == b
  {
  }

  lemma StreamCodes(s: StreamId, b: u8)
    ensures StreamFromCode(b) == Ok(s) <==> StreamCode(s) == b
  {
  }

  /** The byte that each frame type and each stream has on the wire. */
  lemma WireTags()
    ensures TypeCode(Hello) == 1 && TypeCode(HelloAck) == 2
    ensures TypeCode(Run) == 16 && TypeCode(RunAck) == 17
    ensures TypeCode(Output) == 32 && TypeCode(Status) == 48 && TypeCode(Exit) == 64
    ensures TypeCode(Cancel) == 80 && TypeCode(CancelAck) == 81 && TypeCode(WindowUpdate) == 96
    ensures TypeCode(ErrorFrame) == 240 && TypeCode(Goodbye) == 253 && TypeCode(Ping) == 254 && TypeCode(Pong) == 255
    ensures StreamCode(Control) == 0 && StreamCode(Stdout) == 1 && StreamCode(Stderr) == 2 && StreamCode(Stdin) == 3
  {
  }

  /** Byte by byte, what an encoded frame looks like: the tags, then the three numbers, most significant byte
      first from a big-endian host and last from a little-endian one, then the payload. */
  lemma EncodedBytes(host: HostOrder, f: Frame)
    requires Encodable(f)
    ensures var d := Encode(host, f).value;
            && |d| == 12 + |f.payload| && d[12..] == f.payload
            && d[0] == TypeCode(f.frameType) && d[1] == StreamCode(f.streamId)
            && (host.BigEndian? ==>
                  && f.flags == Quad(0, 0, d[2], d[3])
                  && f.jobId == Quad(d[4], d[5], d[6], d[7])
                  && f.sequenceNumber == Quad(d[8], d[9], d[10], d[11]))
            && (host.LittleEndian? ==>
                  && f.flags == Quad(0, 0, d[3], d[2])
                  && f.jobId == Quad(d[7], d[6], d[5], d[4])
                  && f.sequenceNumber == Quad(d[11], d[10], d[9], d[8]))
  {
    ToBeDigits(host, f.flags, f.jobId);
    ToBeDigits(host, f.flags, f.sequenceNumber);
    hide ToBe16, ToBe32, PutU16, PutU32, Quad;
    var d := Encode(host, f).value;
    assert d[2..4] == PutU16(ToBe16(host, f.flags));
    assert d[4..8] == PutU32(ToBe32(host, f.jobId));
    assert d[8..12] == PutU32(ToBe32(host, f.sequenceNumber));
  }

  // --- Codec ---------------------------------------------------------------------------------

  lemma HostViewInvolutive(host: HostOrder, f: Frame)
    ensures HostView(host, HostView(host, f)) == f
  {
    ToBeInvolutive(host, f.flags, f.jobId);
    ToBeInvolutive(host, f.flags, f.sequenceNumber);
  }

  lemma DecodeEncode(host: HostOrder, f: Frame)
    requires Encodable(f)
    ensures Decode(Encode(host, f).value) == Ok(HostView(host, f))
  {
    var v := HostView(host, f);
    var data := Encode(host, f).value;
    TypeCodes(f.frameType, data[0]);
    StreamCodes(f.streamId, data[1]);
    assert data[2..4] == PutU16(v.flags);
    assert data[4..8] == PutU32(v.jobId);
    assert data[8..12] == PutU32(v.sequenceNumber);
    assert data[12..] == f.payload;
    GetPutU32(v.jobId);
    GetPutU32(v.sequenceNumber);
  }

  /** Every byte string the decoder accepts is the encoding of exactly the frame it reports, up to
      the host view: no two byte strings decode alike. */
  lemma EncodeDecode(host: HostOrder, data: seq<u8>)
    requires Decode(data).Ok? && |data| <= HEADER_SIZE + MAX_PAYLOAD_SIZE
    ensures Encode(host, HostView(host, Decode(data).value)) == Ok(data)
  {
    var f := Decode(data).value;
    TypeCodes(f.frameType, data[0]);
    StreamCodes(f.streamId, data[1]);
    ToBeInvolutive(host, f.flags, f.jobId);
    ToBeInvolutive(host, f.flags, f.sequenceNumber);
    PutGetU16(data[2..4]);
    PutGetU32(data[4..8]);
    PutGetU32(data[8..12]);
    hide ToBe16, ToBe32, PutU16, PutU32, GetU16, GetU32, TypeCode, StreamCode, TypeFromCode, StreamFromCode;
    assert data == [data[0], data[1]] + data[2..4] + data[4..8] + data[8..12] + data[12..];
  }

  /** The decoder accepts a byte string iff it holds a header whose two tag bytes are known. */
  lemma DecodeAccepts(data: seq<u8>)
    ensures Decode(data).Ok? <==>
            |data| >= HEADER_SIZE
            && (exists t :: TypeCode(t) == data[0])
            && (exists s :: StreamCode(s) == data[1])
  {
    if |data| >= HEADER_SIZE {
      if TypeFromCode(data[0]).Ok? { TypeCodes(TypeFromCode(data[0]).value, data[0]); }
      if StreamFromCode(data[1]).Ok? { StreamCodes(StreamFromCode(data[1]).value, data[1]); }
    }
  }

  predicate BytePalindrome(f: Frame) {
    Swap16(f.flags) == f.flags && Swap32(f.jobId) == f.jobId && Swap32(f.sequenceNumber) == f.sequenceNumber
  }

  /** One trip is the identity iff the host is big-endian or the three fields read the same both ways;
      two trips always are. */
  lemma RoundTrip(host: HostOrder, f: Frame)
    requires Encodable(f)
    ensures Decode(Encode(host, f).value) == Ok(f) <==> host.BigEndian? || BytePalindrome(f)
    ensures var once := Decode(Encode(host, f).value).value;
            Encodable(once) && Decode(Encode(host, once).value) == Ok(f)
  {
    DecodeEncode(host, f);
    DecodeEncode(host, HostView(host, f));
    HostViewInvolutive(host, f);
  }

  /** On a little-endian host the end-of-stream marker does not survive: bit 0 of the decoded flags
      is bit 8 of the encoded ones. */
  lemma EosSurvives(host: HostOrder, f: Frame)
    requires Encodable(f)
    ensures var got := Decode(Encode(host, f).value).value;
            HasEos(got) <==> if host.BigEndian? then HasEos(f) else f.flags / 0x100 % 2 == 1
  {
    DecodeEncode(host, f);
    Swap16LowBit(f.flags);
  }

  lemma EosLostOnLittleEndian()
    ensures var eos := Frame(Output, Stdout, FLAG_EOS, 1, 0, []);
            HasEos(eos) && !HasEos(Decode(Encode(LittleEndian, eos).value).value)
  {
    var eos := Frame(Output, Stdout, FLAG_EOS, 1, 0, []);
    EosSurvives(LittleEndian, eos);
  }

  /** A client decodes a job id from a frame of the server and sends it back in a frame of its own.
      The server then looks up the right job iff both encode alike or the id is a byte palindrome. */
  lemma EchoedJobId(server: HostOrder, client: HostOrder, notice: Frame, request: Frame)
    requires Encodable(notice) && Encodable(request)
    requires request.jobId == Decode(Encode(server, notice).value).value.jobId
    ensures Decode(Encode(client, request).value).value.jobId == notice.jobId
            <==> server == client || Swap32(notice.jobId) == notice.jobId
  {
    DecodeEncode(server, notice);
    DecodeEncode(client, request);
    Swap32Involutive(notice.jobId);
  }
}
