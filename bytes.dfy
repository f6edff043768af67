/** Node's `Buffer` as the gateway uses it: bytes, 16-bit words, the big-endian integer and
    float readers and writers with the RangeError they raise when an offset or a value does
    not fit, and two's complement spelled out. */
module Bytes {
  import opened Wrappers
  import opened Numbers

  type byte = x: int | 0 <= x < 0x100
  type word = x: int | 0 <= x < 0x1_0000

  const Two16: int := 0x1_0000
  const Two32: int := 0x1_0000_0000

  /** The unsigned big-endian 16-bit value of the bytes at `i` and `i + 1`. */
  function BE16(b: seq<byte>, i: nat): int
    requires i + 2 <= |b|
  {
    b[i] as int * 0x100 + b[i + 1] as int
  }

  /** The unsigned big-endian 32-bit value of the bytes at `i` .. `i + 3`. */
  function BE32(b: seq<byte>, i: nat): int
    requires i + 4 <= |b|
  {
    BE16(b, i) * Two16 + BE16(b, i + 2)
  }

  /** Two's complement reading of a 16-bit pattern. */
  function Signed16(u: int): int
    requires 0 <= u < Two16
  {
    if u < 0x8000 then u else u - Two16
  }

  /** Two's complement reading of a 32-bit pattern. */
  function Signed32(u: int): int
    requires 0 <= u < Two32
  {
    if u < 0x8000_0000 then u else u - Two32
  }

  /** The two big-endian bytes of a 16-bit pattern. */
  function WordBytes(u: int): (r: seq<byte>)
    requires 0 <= u < Two16
    ensures |r| == 2 && BE16(r, 0) == u
  {
    [u / 0x100, u % 0x100]
  }

  /** The four big-endian bytes of a 32-bit pattern. */
  function DWordBytes(u: int): (r: seq<byte>)
    requires 0 <= u < Two32
    ensures |r| == 4 && BE32(r, 0) == u
  {
    WordBytes(u / Two16) + WordBytes(u % Two16)
  }

  /** A zero-filled buffer, as `Buffer.alloc(n)` makes it. */
  function Zeros(n: nat): (r: seq<byte>)
    ensures |r| == n && forall i :: 0 <= i < n ==> r[i] == 0
  {
    seq(n, _ => 0)
  }

  /** The low byte of a number, as a typed-array store or `Buffer.from([v])` keeps it. */
  function Uint8(v: int): byte
  {
    v % 0x100
  }

  /** `buf.readUInt8(off)`. */
  function ReadUInt8(b: seq<byte>, off: nat): (r: Result<int>)
    ensures r.Ok? <==> off < |b|
    ensures r.Ok? ==> r.value == b[off]
    ensures r.Err? ==> r.error == RangeError
  {
    if off < |b| then Ok(b[off]) else Err(RangeError)
  }

  /** `buf.readUInt16BE(off)`. */
  function ReadUInt16BE(b: seq<byte>, off: nat): (r: Result<int>)
    ensures r.Ok? <==> off + 2 <= |b|
    ensures r.Ok? ==> 0 <= r.value < Two16 && r.value == BE16(b, off)
    ensures r.Err? ==> r.error == RangeError
  {
    if off + 2 <= |b| then Ok(BE16(b, off)) else Err(RangeError)
  }

  /** `buf.readInt16BE(off)`: the value in the signed range that is congruent to the pattern. */
  function ReadInt16BE(b: seq<byte>, off: nat): (r: Result<int>)
    ensures r.Ok? <==> off + 2 <= |b|
    ensures r.Ok? ==> -0x8000 <= r.value < 0x8000 && r.value % Two16 == BE16(b, off)
    ensures r.Err? ==> r.error == RangeError
  {
    if off + 2 <= |b| then Ok(Signed16(BE16(b, off))) else Err(RangeError)
  }

  /** `buf.readUInt32BE(off)`. */
  function ReadUInt32BE(b: seq<byte>, off: nat): (r: Result<int>)
    ensures r.Ok? <==> off + 4 <= |b|
    ensures r.Ok? ==> 0 <= r.value < Two32 && r.value == BE32(b, off)
    ensures r.Err? ==> r.error == RangeError
  {
    if off + 4 <= |b| then Ok(BE32(b, off)) else Err(RangeError)
  }

  /** `buf.readInt32BE(off)`: the value in the signed range that is congruent to the pattern. */
  function ReadInt32BE(b: seq<byte>, off: nat): (r: Result<int>)
    ensures r.Ok? <==> off + 4 <= |b|
    ensures r.Ok? ==> -0x8000_0000 <= r.value < 0x8000_0000 && r.value % Two32 == BE32(b, off)
    ensures r.Err? ==> r.error == RangeError
  {
    if off + 4 <= |b| then Ok(Signed32(BE32(b, off))) else Err(RangeError)
  }

  /** `buf.readFloatBE(off)`. */
  function ReadFloatBE(b: seq<byte>, off: nat): (r: Result<Num>)
    ensures r.Ok? <==> off + 4 <= |b|
    ensures r.Err? ==> r.error == RangeError
  {
    if off + 4 <= |b| then Ok(Float32Value(BE32(b, off))) else Err(RangeError)
  }

  /** `b` with `bytes` stored from `off` on. */
  function Put(b: seq<byte>, off: nat, bytes: seq<byte>): (r: seq<byte>)
    requires off + |bytes| <= |b|
    ensures |r| == |b|
    ensures r[off..off + |bytes|] == bytes
    ensures forall i :: 0 <= i < |b| && !(off <= i < off + |bytes|) ==> r[i] == b[i]
  {
    b[..off] + bytes + b[off + |bytes|..]
  }

  /** `buf.writeUInt16BE(v, off)`: RangeError unless `0 <= v <= 0xFFFF` and two bytes fit. */
  function WriteUInt16BE(b: seq<byte>, v: int, off: nat): (r: Result<seq<byte>>)
    ensures r.Ok? <==> 0 <= v < Two16 && off + 2 <= |b|
    ensures r.Ok? ==> |r.value| == |b| && BE16(r.value, off) == v
    ensures r.Ok? ==> forall i :: 0 <= i < |b| && i != off && i != off + 1 ==> r.value[i] == b[i]
    ensures r.Err? ==> r.error == RangeError
  {
    if 0 <= v < Two16 && off + 2 <= |b| then
      var r := Put(b, off, WordBytes(v));
      assert r[off..off + 2] == WordBytes(v);
      Ok(r)
    else Err(RangeError)
  }

  /** `buf.writeInt16BE(v, off)`: RangeError unless `-0x8000 <= v <= 0x7FFF` and two bytes fit;
      the pattern stored is `v` modulo 2^16. */
  function WriteInt16BE(b: seq<byte>, v: int, off: nat): (r: Result<seq<byte>>)
    ensures r.Ok? <==> -0x8000 <= v < 0x8000 && off + 2 <= |b|
    ensures r.Ok? ==> |r.value| == |b| && BE16(r.value, off) == v % Two16
    ensures r.Ok? ==> forall i :: 0 <= i < |b| && i != off && i != off + 1 ==> r.value[i] == b[i]
    ensures r.Err? ==> r.error == RangeError
  {
    if -0x8000 <= v < 0x8000 && off + 2 <= |b| then
      var r := Put(b, off, WordBytes(v % Two16));
      assert r[off..off + 2] == WordBytes(v % Two16);
      Ok(r)
    else Err(RangeError)
  }

  /** `buf.writeInt32BE(v, off)`: RangeError unless `v` is a signed 32-bit value and four bytes
      fit; the pattern stored is `v` modulo 2^32. */
  function WriteInt32BE(b: seq<byte>, v: int, off: nat): (r: Result<seq<byte>>)
    ensures r.Ok? <==> -0x8000_0000 <= v < 0x8000_0000 && off + 4 <= |b|
    ensures r.Ok? ==> |r.value| == |b| && BE32(r.value, off) == v % Two32
    ensures r.Ok? ==> forall i :: 0 <= i < |b| && !(off <= i < off + 4) ==> r.value[i] == b[i]
    ensures r.Err? ==> r.error == RangeError
  {
    if -0x8000_0000 <= v < 0x8000_0000 && off + 4 <= |b| then
      var r := Put(b, off, DWordBytes(v % Two32));
      assert r[off..off + 4] == DWordBytes(v % Two32);
      Ok(r)
    else Err(RangeError)
  }

  /** `buf.writeFloatBE(v, off)` for an integer-valued `v`: no value range check, only the
      four bytes must fit. */
  function WriteFloatBE(b: seq<byte>, v: int, off: nat): (r: Result<seq<byte>>)
    ensures r.Ok? <==> off + 4 <= |b|
    ensures r.Ok? ==> |r.value| == |b| && BE32(r.value, off) == Float32Bits(v)
    ensures r.Err? ==> r.error == RangeError
  {
    if off + 4 <= |b| then
      var r := Put(b, off, DWordBytes(Float32Bits(v)));
      assert r[off..off + 4] == DWordBytes(Float32Bits(v));
      Ok(r)
    else Err(RangeError)
  }

  /** The buffer `parseModbusValue` fills: every register as two big-endian bytes, in order. */
  function WordsToBytes(ws: seq<word>): (b: seq<byte>)
    ensures |b| == 2 * |ws|
    ensures forall k :: 0 <= k < |ws| ==> BE16(b, 2 * k) == ws[k]
  {
    if ws == [] then []
    else
      var rest := WordsToBytes(ws[1..]);
      var b := WordBytes(ws[0]) + rest;
      assert forall k :: 1 <= k < |ws| ==> BE16(b, 2 * k) == BE16(rest, 2 * (k - 1));
      b
  }

  /** A 16-bit signed value written big-endian reads back unchanged. */
  lemma Int16RoundTrip(b: seq<byte>, v: int, off: nat)
    requires -0x8000 <= v < 0x8000 && off + 2 <= |b|
    ensures WriteInt16BE(b, v, off).Ok?
    ensures ReadInt16BE(WriteInt16BE(b, v, off).value, off) == Ok(v)
  {
  }

  /** A 32-bit signed value written big-endian reads back unchanged. */
  lemma Int32RoundTrip(b: seq<byte>, v: int, off: nat)
    requires -0x8000_0000 <= v < 0x8000_0000 && off + 4 <= |b|
    ensures WriteInt32BE(b, v, off).Ok?
    ensures ReadInt32BE(WriteInt32BE(b, v, off).value, off) == Ok(v)
  {
  }

  /** A 16-bit unsigned value written big-endian reads back unchanged. */
  lemma UInt16RoundTrip(b: seq<byte>, v: int, off: nat)
    requires 0 <= v < Two16 && off + 2 <= |b|
    ensures WriteUInt16BE(b, v, off).Ok?
    ensures ReadUInt16BE(WriteUInt16BE(b, v, off).value, off) == Ok(v)
  {
  }

  /** An integer of magnitude below 2^24 written as a float reads back unchanged. */
  lemma FloatRoundTrip(b: seq<byte>, v: int, off: nat)
    requires -0x100_0000 < v < 0x100_0000 && off + 4 <= |b|
    ensures WriteFloatBE(b, v, off).Ok?
    ensures ReadFloatBE(WriteFloatBE(b, v, off).value, off) == Ok(Finite(v as real))
  {
    Float32RoundTrip(v);
  }
}
