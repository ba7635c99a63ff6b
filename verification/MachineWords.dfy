/** Fixed-width unsigned words, their big-endian byte forms and the host byte order. */
module MachineWords {

  type u8 = x: int | 0 <= x < 0x100
  type u16 = x: int | 0 <= x < 0x1_0000
  type u32 = x: int | 0 <= x < 0x1_0000_0000
  type u64 = x: int | 0 <= x < 0x1_0000_0000_0000_0000

  const U32_MODULUS := 0x1_0000_0000
  const U64_MODULUS := 0x1_0000_0000_0000_0000

  function WrapU32(x: nat): u32 {
    x % U32_MODULUS
  }

  /** Wrap-around of 64-bit atomics, in both directions. */
  function WrapU64(x: int): u64 {
    x % U64_MODULUS
  }

  function Min(a: int, b: int): int {
    if a <= b then a else b
  }

  datatype HostOrder = BigEndian | LittleEndian

  function Swap16(x: u16): u16 {
    x % 0x100 * 0x100 + x / 0x100
  }

  function Swap32(x: u32): u32 {
    Swap16(x % 0x1_0000) * 0x1_0000 + Swap16(x / 0x1_0000)
  }

  /** `to_be`: the identity on a big-endian host, a byte reversal on a little-endian one. */
  function ToBe16(host: HostOrder, x: u16): u16 {
    if host.BigEndian? then x else Swap16(x)
  }

  function ToBe32(host: HostOrder, x: u32): u32 {
    if host.BigEndian? then x else Swap32(x)
  }

  /** `put_u16` and `to_be_bytes`: most significant byte first. */
  function PutU16(x: u16): (bytes: seq<u8>)
    ensures |bytes| == 2
  {
    [x / 0x100, x % 0x100]
  }

  function PutU32(x: u32): (bytes: seq<u8>)
    ensures |bytes| == 4
  {
    PutU16(x / 0x1_0000) + PutU16(x % 0x1_0000)
  }

  /** `from_be_bytes`. */
  function GetU16(bytes: seq<u8>): u16
    requires |bytes| == 2
  {
    (bytes[0] as int) * 0x100 + bytes[1]
  }

  function GetU32(bytes: seq<u8>): u32
    requires |bytes| == 4
  {
    (GetU16(bytes[..2]) as int) * 0x1_0000 + GetU16(bytes[2..])
  }

  function Quad(d3: int, d2: int, d1: int, d0: int): int {
    ((d3 * 0x100 + d2) * 0x100 + d1) * 0x100 + d0
  }

  /** Words are written as their base-256 digits, the most significant first. */
  lemma PutDigits(half: u16, word: u32)
    ensures var b := PutU16(half); Quad(0, 0, b[0], b[1]) == half
    ensures var b := PutU32(word); Quad(b[0], b[1], b[2], b[3]) == word
  {
    assert half == half / 0x100 * 0x100 + half % 0x100;
    assert word == word / 0x1_0000 * 0x1_0000 + word % 0x1_0000;
  }

  /** And read back so. */
  lemma GetDigits(bytes: seq<u8>)
    requires |bytes| == 4
    ensures GetU16(bytes[..2]) == Quad(0, 0, bytes[0], bytes[1])
    ensures GetU32(bytes) == Quad(bytes[0], bytes[1], bytes[2], bytes[3])
  {
    assert bytes[2..][0] == bytes[2] && bytes[2..][1] == bytes[3];
  }

  /** What `to_be` and the writing make of a word on each host. */
  lemma ToBeDigits(host: HostOrder, half: u16, word: u32)
    ensures var b := PutU16(ToBe16(host, half));
            && (host.BigEndian? ==> half == Quad(0, 0, b[0], b[1]))
            && (host.LittleEndian? ==> half == Quad(0, 0, b[1], b[0]))
    ensures var b := PutU32(ToBe32(host, word));
            && (host.BigEndian? ==> word == Quad(b[0], b[1], b[2], b[3]))
            && (host.LittleEndian? ==> word == Quad(b[3], b[2], b[1], b[0]))
  {
    PutDigits(half, word);
    SwapReversesBytes(half, word);
    hide PutU16, PutU32, Swap16, Swap32, Quad;
  }

  /** A little-endian host's `to_be` reverses the digits. */
  lemma SwapReversesBytes(half: u16, word: u32)
    ensures PutU16(Swap16(half)) == [PutU16(half)[1], PutU16(half)[0]]
    ensures var b := PutU32(word); PutU32(Swap32(word)) == [b[3], b[2], b[1], b[0]]
  {
    SwapReversesHalf(half);
    var high, low := word / 0x1_0000, word % 0x1_0000;
    SwapReversesHalf(high);
    SwapReversesHalf(low);
    assert Swap32(word) / 0x1_0000 == Swap16(low) && Swap32(word) % 0x1_0000 == Swap16(high);
  }

  lemma SwapReversesHalf(x: u16)
    ensures PutU16(Swap16(x)) == [PutU16(x)[1], PutU16(x)[0]]
  {
    assert Swap16(x) / 0x100 == x % 0x100 && Swap16(x) % 0x100 == x / 0x100;
  }

  lemma Swap16Involutive(x: u16)
    ensures Swap16(Swap16(x)) == x
  {
    var low, high := x % 0x100, x / 0x100;
    assert Swap16(x) / 0x100 == low && Swap16(x) % 0x100 == high;
  }

  lemma Swap16LowBit(x: u16)
    ensures Swap16(x) % 2 == x / 0x100 % 2
  {
    var high := x % 0x100;
    assert Swap16(x) == 2 * (high * 0x80) + x / 0x100;
  }

  lemma Swap32Involutive(x: u32)
    ensures Swap32(Swap32(x)) == x
  {
    Swap16Involutive(x % 0x1_0000);
    Swap16Involutive(x / 0x1_0000);
    var low, high := Swap16(x % 0x1_0000), Swap16(x / 0x1_0000);
    assert Swap32(x) / 0x1_0000 == low && Swap32(x) % 0x1_0000 == high;
  }

  lemma ToBeInvolutive(host: HostOrder, half: u16, word: u32)
    ensures ToBe16(host, ToBe16(host, half)) == half
    ensures ToBe32(host, ToBe32(host, word)) == word
  {
    Swap16Involutive(half);
    Swap32Involutive(word);
  }

  lemma GetPutU32(x: u32)
    ensures GetU32(PutU32(x)) == x
  {
    assert PutU32(x)[..2] == PutU16(x / 0x1_0000);
    assert PutU32(x)[2..] == PutU16(x % 0x1_0000);
  }

  lemma PutGetU16(bytes: seq<u8>)
    requires |bytes| == 2
    ensures PutU16(GetU16(bytes)) == bytes
  {
  }

  lemma PutGetU32(bytes: seq<u8>)
    requires |bytes| == 4
    ensures PutU32(GetU32(bytes)) == bytes
  {
    var high, low := GetU16(bytes[..2]), GetU16(bytes[2..]);
    assert GetU32(bytes) / 0x1_0000 == high && GetU32(bytes) % 0x1_0000 == low;
    assert PutU16(high) == bytes[..2] && PutU16(low) == bytes[2..];
  }
}
