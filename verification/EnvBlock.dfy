/** The environment block handed to a new process (src/process_launcher.rs): entries in UTF-16
    (section 3.9 of The Unicode Standard, definition D91), each ended by a NUL, and a final NUL. */
module EnvBlock {
  import opened MachineWords
  import opened Errors

  /** A Unicode scalar value: any code point but a surrogate. */
  type Scalar = x: int | 0 <= x < 0xD800 || 0xE000 <= x < 0x11_0000

  type Text = seq<Scalar>

  const NUL: Scalar := 0
  const EQUALS: Scalar := 0x3D

  // --- UTF-16 --------------------------------------------------------------------------------

  function EncodeScalar(c: Scalar): (units: seq<u16>)
    ensures 1 <= |units| <= 2
    ensures 0 in units <==> c == NUL
  {
    if c < 0x1_0000 then [c] else [0xD800 + (c - 0x1_0000) / 0x400, 0xDC00 + (c - 0x1_0000) % 0x400]
  }

  /** One unit up to U+FFFF; beyond, a high and a low surrogate with ten bits each of what exceeds that. */
  lemma ScalarUnits(c: Scalar)
    ensures c < 0x1_0000 ==> EncodeScalar(c) == [c]
    ensures c >= 0x1_0000 ==>
              var units := EncodeScalar(c);
              && |units| == 2 && 0xD800 <= units[0] <= 0xDBFF && 0xDC00 <= units[1] <= 0xDFFF
              && Compose(units[0], units[1]) == c
  {
  }

  function Compose(high: int, low: int): int {
    0x1_0000 + (high - 0xD800) * 1024 + (low - 0xDC00)
  }

  /** `encode_wide`. */
  function EncodeWide(t: Text): seq<u16> {
    if t == [] then [] else EncodeScalar(t[0]) + EncodeWide(t[1..])
  }

  function DecodeWide(units: seq<u16>): Option<Text> {
    if units == [] then Some([])
    else if units[0] < 0xD800 || 0xE000 <= units[0] then
      match DecodeWide(units[1..])
      case None => None
      case Some(rest) => Some([units[0]] + rest)
    else if units[0] < 0xDC00 && |units| >= 2 && 0xDC00 <= units[1] < 0xE000 then
      match DecodeWide(units[2..])
      case None => None
      case Some(rest) => Some([0x1_0000 + (units[0] as int - 0xD800) * 0x400 + (units[1] as int - 0xDC00)] + rest)
    else None
  }

  lemma {:induction false} DecodeEncodeWide(t: Text)
    ensures DecodeWide(EncodeWide(t)) == Some(t)
  {
    if t != [] {
      var head, rest := EncodeScalar(t[0]), EncodeWide(t[1..]);
      DecodeEncodeWide(t[1..]);
      assert (head + rest)[|head|..] == rest;
      assert t == [t[0]] + t[1..];
    }
  }

  lemma {:induction false} EncodeKeepsNul(t: Text)
    ensures 0 in EncodeWide(t) <==> NUL in t
  {
    if t != [] {
      EncodeKeepsNul(t[1..]);
      assert t == [t[0]] + t[1..];
    }
  }

  lemma {:induction false} DecodeKeepsNul(units: seq<u16>)
    requires 0 !in units && DecodeWide(units).Some?
    ensures NUL !in DecodeWide(units).value
  {
    if units != [] {
      if units[0] < 0xD800 || 0xE000 <= units[0] {
        DecodeKeepsNul(units[1..]);
      } else {
        DecodeKeepsNul(units[2..]);
      }
    }
  }

  // --- Building the block --------------------------------------------------------------------

  function Entry(key: Text, value: Text): Text {
    key + [EQUALS] + value
  }

  /** The block for the map's entries in the given order. */
  function Block(env: map<Text, Text>, order: seq<Text>): seq<u16>
    requires forall k :: k in order ==> k in env
  {
    if order == [] then [0]
    else EncodeWide(Entry(order[0], env[order[0]])) + [0] + Block(env, order[1..])
  }

  lemma {:induction false} EncodeAppends(a: Text, b: Text)
    ensures EncodeWide(a + b) == EncodeWide(a) + EncodeWide(b)
  {
    if a == [] {
      assert a + b == b;
    } else {
      EncodeAppends(a[1..], b);
      assert (a + b)[0] == a[0] && (a + b)[1..] == a[1..] + b;
    }
  }

  /** The units of a block: for each entry the key, an equals sign, the value and a NUL, and a NUL at the end. */
  lemma BlockUnits(env: map<Text, Text>, order: seq<Text>)
    requires forall k :: k in order ==> k in env
    ensures order == [] ==> Block(env, order) == [0]
    ensures order != [] ==>
              Block(env, order)
              == EncodeWide(order[0]) + [0x3D] + EncodeWide(env[order[0]]) + [0] + Block(env, order[1..])
  {
    if order != [] {
      var key, value := order[0], env[order[0]];
      EncodeAppends(key + [EQUALS], value);
      EncodeAppends(key, [EQUALS]);
      EqualsUnit();
      hide EncodeWide, EncodeScalar;
    }
  }

  lemma EqualsUnit()
    ensures EncodeWide([EQUALS]) == [0x3D]
  {
    assert [EQUALS][1..] == [];
    assert EncodeWide([EQUALS]) == EncodeScalar(EQUALS) + EncodeWide([]);
  }

  ghost predicate Enumerates(order: seq<Text>, env: map<Text, Text>) {
    && (forall k :: k in order <==> k in env)
    && (forall i, j :: 0 <= i < j < |order| ==> order[i] != order[j])
  }

  /** The entries without the final NUL. */
  function Entries(env: map<Text, Text>, order: seq<Text>): seq<u16>
    requires forall k :: k in order ==> k in env
  {
    if order == [] then []
    else
      var n := |order| - 1;
      Entries(env, order[..n]) + (EncodeWide(Entry(order[n], env[order[n]])) + [0])
  }

  lemma {:induction false} EntriesThenNul(env: map<Text, Text>, first: seq<Text>, second: seq<Text>)
    requires forall k :: k in first + second ==> k in env
    ensures forall k :: (k in first ==> k in env) && (k in second ==> k in env)
    ensures Entries(env, first) + Block(env, second) == Block(env, first + second)
  {
    assert forall k :: k in first || k in second ==> k in first + second;
    if first == [] {
      assert first + second == second;
    } else {
      var n := |first| - 1;
      var tail := [first[n]] + second;
      assert first[..n] + tail == first + second;
      EntriesThenNul(env, first[..n], tail);
      assert tail[1..] == second;
      var last := EncodeWide(Entry(first[n], env[first[n]])) + [0];
      assert Block(env, tail) == last + Block(env, second);
      assert Entries(env, first[..n]) + (last + Block(env, second))
          == (Entries(env, first[..n]) + last) + Block(env, second);
    }
  }

  /** `build_env_block`. The map is iterated in an order of its own choosing, which is reported beside the
      block. */
  method BuildEnvBlock(env: map<Text, Text>) returns (block: seq<u16>, order: seq<Text>)
    ensures Enumerates(order, env)
    ensures block == Block(env, order)
  {
    block, order := [], [];
    var left := env.Keys;
    while left != {}
      invariant left <= env.Keys
      invariant forall k :: k in order <==> k in env.Keys - left
      invariant forall i, j :: 0 <= i < j < |order| ==> order[i] != order[j]
      invariant block == Entries(env, order)
      decreases left
    {
      var k :| k in left;
      assert k !in order;
      left := left - {k};
      var entry := EncodeWide(Entry(k, env[k]));
      assert (order + [k])[..|order|] == order;
      block := block + (entry + [0]);
      order := order + [k];
    }
    EntriesThenNul(env, order, []);
    assert order + [] == order;
    block := block + [0];
  }

  // --- Reading the block ---------------------------------------------------------------------

  /** The position of the first occurrence, or the length if there is none. */
  function Find(xs: seq<int>, x: int): (n: nat)
    ensures n <= |xs|
    ensures x !in xs[..n] && (n < |xs| ==> xs[n] == x)
  {
    if xs == [] || xs[0] == x then 0
    else
      var n := 1 + Find(xs[1..], x);
      assert xs[..n] == [xs[0]] + xs[1..][..n - 1];
      n
  }

  lemma {:induction false} FindIs(xs: seq<int>, x: int, n: nat)
    requires n < |xs| && xs[n] == x && x !in xs[..n]
    ensures Find(xs, x) == n
  {
    if n > 0 {
      assert xs[..n] == [xs[0]] + xs[1..][..n - 1];
      FindIs(xs[1..], x, n - 1);
    }
  }

  /** Entries up to an empty one, split at NULs; each entry split at its first equals sign. */
  function Parse(units: seq<u16>): Option<map<Text, Text>>
    decreases |units|
  {
    var n := Find(units, 0);
    if n == |units| then None
    else if n == 0 then Some(map[])
    else
      match DecodeWide(units[..n])
      case None => None
      case Some(entry) =>
        var e := Find(entry, EQUALS);
        if e == |entry| then None
        else
          match Parse(units[n + 1..])
          case None => None
          case Some(rest) => Some(rest[entry[..e] := entry[e + 1..]])
  }

  /** What the format can carry. */
  predicate Representable(env: map<Text, Text>) {
    forall k :: k in env ==> NUL !in k && EQUALS !in k && NUL !in env[k]
  }

  lemma ParseFirst(key: Text, value: Text, tail: seq<u16>)
    requires NUL !in key && EQUALS !in key && NUL !in value
    ensures Parse(EncodeWide(Entry(key, value)) + [0] + tail)
            == match Parse(tail) case None => None case Some(rest) => Some(rest[key := value])
  {
    var entry := Entry(key, value);
    var wide := EncodeWide(entry);
    var units := wide + [0] + tail;
    EncodeKeepsNul(entry);
    DecodeEncodeWide(entry);
    assert units[..|wide|] == wide && units[|wide| + 1..] == tail;
    FindIs(units, 0, |wide|);
    assert entry[..|key|] == key && entry[|key| + 1..] == value;
    FindIs(entry, EQUALS, |key|);
    assert |wide| > 0;
  }

  lemma {:induction false} ParseBlock(env: map<Text, Text>, order: seq<Text>)
    requires (forall k :: k in order ==> k in env) && Representable(env)
    ensures Parse(Block(env, order)) == Some(map k | k in order :: env[k])
  {
    if order == [] {
      FindIs([0], 0, 0);
    } else {
      var key := order[0];
      ParseBlock(env, order[1..]);
      ParseFirst(key, env[key], Block(env, order[1..]));
      hide Parse, Representable, EncodeWide;
      RestrictHead(env, order);
    }
  }

  lemma RestrictHead(env: map<Text, Text>, order: seq<Text>)
    requires order != [] && forall k :: k in order ==> k in env
    ensures (map k | k in order[1..] :: env[k])[order[0] := env[order[0]]] == (map k | k in order :: env[k])
  {
    assert order == [order[0]] + order[1..];
  }

  /** Whatever is parsed is representable. */
  lemma {:induction false} ParsedIsRepresentable(units: seq<u16>)
    requires Parse(units).Some?
    ensures Representable(Parse(units).value)
    decreases |units|
  {
    var n := Find(units, 0);
    if n != 0 {
      ParsedIsRepresentable(units[n + 1..]);
      DecodeKeepsNul(units[..n]);
      var entry := DecodeWide(units[..n]).value;
      var e := Find(entry, EQUALS);
      assert NUL !in entry[..e] && NUL !in entry[e + 1..];
    }
  }

  /** For every iteration order, reading the block back gives the same map iff no key or value has a NUL
      and no key has an equals sign. */
  lemma BlockRoundTrip(env: map<Text, Text>, order: seq<Text>)
    requires Enumerates(order, env)
    ensures Parse(Block(env, order)) == Some(env) <==> Representable(env)
  {
    if Representable(env) {
      ParseBlock(env, order);
      assert (map k | k in order :: env[k]) == env;
    }
    if Parse(Block(env, order)) == Some(env) {
      ParsedIsRepresentable(Block(env, order));
    }
  }
}
