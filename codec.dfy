/** The pure half of the device manager (backend/src/services/deviceManager.js): choosing the
    protocol client, splitting point addresses, turning registers and bytes into values, scaling,
    and encoding values for writes. */
module Codec {
  import opened Wrappers
  import opened Numbers
  import opened Bytes
  import opened Text
  import opened Records

  /** The client variant `createClient` builds; a Modbus client carries its link type. */
  datatype ClientKind = ModbusKind(modbusType: string) | SiemensKind | OmronKind

  /** `createClient`'s choice: the protocol is lower-cased, the three Modbus spellings give a
      Modbus client whose type is the text after `modbus_`, `siemens`/`s7` a Siemens client,
      `omron`/`fins` an Omron client, anything else "Unsupported protocol". */
  function SelectClient(protocol: string): (r: Result<ClientKind>)
    ensures r.Ok? && r.value.ModbusKind? ==>
      r.value.modbusType in {"tcp", "rtu", "ascii"} && ToLower(protocol) == "modbus_" + r.value.modbusType
    ensures ToLower(protocol) in {"modbus_tcp", "modbus_rtu", "modbus_ascii"} ==> r.Ok? && r.value.ModbusKind?
    ensures r.Ok? && r.value.SiemensKind? <==> ToLower(protocol) in {"siemens", "s7"}
    ensures r.Ok? && r.value.OmronKind? <==> ToLower(protocol) in {"omron", "fins"}
    ensures r.Err? ==> r.error == UnsupportedProtocol(ToLower(protocol))
  {
    var p := ToLower(protocol);
    if p == "modbus_tcp" || p == "modbus_rtu" || p == "modbus_ascii" then
      ModbusSuffix(p);
      ReplacePrefix(p, "modbus_", "");
      assert ReplaceFirst(p, "modbus_", "") == p[7..];
      Ok(ModbusKind(ReplaceFirst(p, "modbus_", "")))
    else if p == "siemens" || p == "s7" then Ok(SiemensKind)
    else if p == "omron" || p == "fins" then Ok(OmronKind)
    else Err(UnsupportedProtocol(p))
  }

  lemma ModbusSuffix(p: string)
    requires p == "modbus_tcp" || p == "modbus_rtu" || p == "modbus_ascii"
    ensures StartsWith(p, "modbus_") && p == "modbus_" + p[7..] && p[7..] in {"tcp", "rtu", "ascii"}
  {
    if p == "modbus_tcp" {
      assert p[7..] == "tcp";
    } else if p == "modbus_rtu" {
      assert p[7..] == "rtu";
    } else {
      assert p[7..] == "ascii";
    }
  }

  /** `device.timeout || 3000`: a missing or zero timeout becomes 3000 ms. */
  function ClientTimeout(d: Device): (t: int)
    ensures t != 0
    ensures d.timeout.Some? && d.timeout.value != 0 ==> t == d.timeout.value
    ensures d.timeout.None? || d.timeout.value == 0 ==> t == 3000
  {
    OrDefault(d.timeout, 3000)
  }

  /** `getSiemensDataSize`: the byte width of a Siemens data type (case-sensitive); unknown
      types take two bytes. */
  function SiemensDataSize(dataType: string): (n: nat)
    ensures n in {1, 2, 4}
    ensures n == 1 <==> dataType in {"BOOL", "BYTE"}
    ensures n == 4 <==> dataType in {"DINT", "DWORD", "REAL"}
  {
    if dataType == "BOOL" || dataType == "BYTE" then 1
    else if dataType == "DINT" || dataType == "DWORD" || dataType == "REAL" then 4
    else 2
  }

  /** A Siemens address `DB<n>.<off>`: the DB number is `parseInt` of the text before the first
      dot with its first `DB` removed; the offset is `parseInt` of the text between the first and
      the second dot (NaN when there is no dot). */
  function SiemensAddress(address: string): (Option<int>, Option<int>)
  {
    var db := ParseInt(ReplaceFirst(FieldBefore(address, '.'), "DB", ""));
    var offset := match SecondField(address, '.')
      case None => None
      case Some(f) => ParseInt(f);
    (db, offset)
  }

  predicate NotDigit(c: char) { !IsDigit(c) }

  /** An Omron address such as `DM100`, split on its first run of digits: the memory area is the
      text before the run, the address the run's decimal value (NaN when there is no digit). */
  function OmronAddress(address: string): (Option<int>, string)
  {
    var area := Span(address, NotDigit);
    var digits := Span(address[|area|..], IsDigit);
    (if digits == [] then None else Some(Value(digits, 10) as int), area)
  }

  /** The Modbus table a point reads, chosen by substrings of its lower-cased data type. */
  datatype ModbusTable = Coils | DiscreteInputs | InputRegisters | HoldingRegisters

  function ModbusTableOf(dataType: string): ModbusTable
  {
    var t := ToLower(dataType);
    if Contains(t, "coil") then Coils
    else if Contains(t, "discrete") then DiscreteInputs
    else if Contains(t, "input") then InputRegisters
    else HoldingRegisters
  }

  /** The wide numeric types name no Modbus table, so they are read from holding registers. */
  lemma WideTypesReadHoldingRegisters(t: string)
    requires t in {"int32", "uint32", "float", "dword"}
    ensures ModbusTableOf(t) == HoldingRegisters
  {
    assert ToLower(t) == t;
    MissingChar(t, "coil", 0);
    MissingChar(t, "discrete", 2);
    MissingChar(t, "input", 2);
  }

  /** The number of registers a register read requests: two only for `dword`. */
  function ModbusRegisterCount(dataType: string): (n: nat)
    ensures n == 2 <==> ToLower(dataType) == "dword"
    ensures n == 1 || n == 2
  {
    if ToLower(dataType) == "dword" then 2 else 1
  }

  /** `parseModbusValue`: the registers are laid out big-endian, one after the other, in a
      buffer of twice their number of bytes, which is then read according to the data type. */
  function ParseModbusValue(data: seq<word>, dataType: string): (r: Result<Raw>)
    ensures var t := ToLower(dataType);
      && (t == "int16" || t == "uint16" ==> (r.Ok? <==> |data| >= 1))
      && (t == "int16" && |data| >= 1 ==> r == Ok(Int(Signed16(data[0]))))
      && (t == "uint16" && |data| >= 1 ==> r == Ok(Int(data[0])))
      && (t in {"int32", "dword", "uint32", "float"} ==> (r.Ok? <==> |data| >= 2))
      && ((t == "int32" || t == "dword") && |data| >= 2 ==>
            r == Ok(Int(Signed32(data[0] * Two16 + data[1]))))
      && (t == "uint32" && |data| >= 2 ==> r == Ok(Int(data[0] * Two16 + data[1])))
      && (t == "float" && |data| >= 2 ==> r == Ok(Float(Float32Value(data[0] * Two16 + data[1]))))
      && (t !in {"int16", "uint16", "int32", "dword", "uint32", "float"} ==>
            r == Ok(if |data| > 0 then Int(data[0]) else Undefined))
    ensures r.Err? ==> r.error == RangeError
  {
    var buffer := WordsToBytes(data);
    assert |data| >= 2 ==> BE32(buffer, 0) == data[0] * Two16 + data[1];
    var t := ToLower(dataType);
    if t == "int16" then
      match ReadInt16BE(buffer, 0)
      case Ok(v) => Ok(Int(v))
      case Err(e) => Err(e)
    else if t == "uint16" then
      match ReadUInt16BE(buffer, 0)
      case Ok(v) => Ok(Int(v))
      case Err(e) => Err(e)
    else if t == "int32" || t == "dword" then
      match ReadInt32BE(buffer, 0)
      case Ok(v) => Ok(Int(v))
      case Err(e) => Err(e)
    else if t == "uint32" then
      match ReadUInt32BE(buffer, 0)
      case Ok(v) => Ok(Int(v))
      case Err(e) => Err(e)
    else if t == "float" then
      match ReadFloatBE(buffer, 0)
      case Ok(v) => Ok(Float(v))
      case Err(e) => Err(e)
    else
      Ok(if |data| > 0 then Int(data[0]) else Undefined)
  }

  /** The two registers, high word first, in which a device holds a signed 32-bit value. */
  function Int32Registers(v: int): (ws: seq<word>)
    requires -0x8000_0000 <= v < 0x8000_0000
    ensures |ws| == 2 && ws[0] * Two16 + ws[1] == v % Two32
  {
    var u := v % Two32;
    [u / Two16, u % Two16]
  }

  /** Reading the registers that hold a signed 32-bit value as `int32` gives the value back. */
  lemma ModbusInt32RoundTrip(v: int)
    requires -0x8000_0000 <= v < 0x8000_0000
    ensures ParseModbusValue(Int32Registers(v), "int32") == Ok(Int(v))
  {
    var ws := Int32Registers(v);
    assert ToLower("int32") == "int32";
    assert ParseModbusValue(ws, "int32") == Ok(Int(Signed32(v % Two32)));
  }

  /** A signed 16-bit value held as its two's complement register reads back as `int16`. */
  lemma ModbusInt16RoundTrip(v: int)
    requires -0x8000 <= v < 0x8000
    ensures ParseModbusValue([v % Two16], "int16") == Ok(Int(v))
  {
    assert ToLower("int16") == "int16";
    assert ParseModbusValue([v % Two16], "int16") == Ok(Int(Signed16(v % Two16)));
  }

  /** The worked example: registers 0x0001, 0x0002 read as `int32` are 65538. */
  lemma ModbusWordOrderExample()
    ensures ParseModbusValue([0x0001, 0x0002], "int32") == Ok(Int(65538))
  {
    assert ToLower("int32") == "int32";
  }

  /** Only `dword` asks for two registers, so an `int32`, `uint32` or `float` point is read from
      a single register and its 4-byte decode always fails. */
  lemma SingleRegisterWideReadFails(w: word, dataType: string)
    requires ToLower(dataType) in {"int32", "uint32", "float"}
    ensures ModbusRegisterCount(dataType) == 1
    ensures ParseModbusValue([w], dataType) == Err(RangeError)
  {
  }

  /** `scale || 1.0`: a missing or zero scale counts as 1. */
  function Scale(scale: Option<real>): (s: real)
    ensures s != 0.0
    ensures scale.Some? && scale.value != 0.0 ==> s == scale.value
    ensures scale.None? || scale.value == 0.0 ==> s == 1.0
  {
    if scale.Some? && scale.value != 0.0 then scale.value else 1.0
  }

  /** `offset || 0.0`: a missing offset counts as 0 (a zero one is 0 either way). */
  function Offset(offset: Option<real>): (o: real)
    ensures offset.None? ==> o == 0.0
  {
    if offset.Some? then offset.value else 0.0
  }

  /** The JavaScript number a raw reading converts to in arithmetic. */
  function RawNumber(raw: Raw): Num
  {
    match raw
    case Int(i) => Finite(i as real)
    case Bool(b) => Finite(if b then 1.0 else 0.0)
    case Float(n) => n
    case Undefined => NaN
  }

  /** The raw reading an engineering value came from: scaling undone. */
  function Unscaled(v: real, scale: Option<real>, offset: Option<real>): real
  {
    (v - Offset(offset)) / Scale(scale)
  }

  /** `rawValue * (scale || 1.0) + (offset || 0.0)` in JavaScript's number arithmetic: a boolean
      counts as 0 or 1 and `undefined` gives NaN. */
  function ScaledValue(raw: Raw, scale: Option<real>, offset: Option<real>): (r: Num)
    ensures r.NaN? <==> RawNumber(raw).NaN?
    ensures r.Finite? <==> RawNumber(raw).Finite?
    ensures r.Finite? ==> Unscaled(r.r, scale, offset) == RawNumber(raw).r
  {
    var x := RawNumber(raw);
    if x.Finite? then
      var s, o := Scale(scale), Offset(offset);
      assert (x.r * s + o - o) / s == x.r by {
        assert x.r * s + o - o == x.r * s;
        RealMulDiv(x.r, s);
      }
      Finite(x.r * s + o)
    else Affine(x, Scale(scale), Offset(offset))
  }

  /** A zero scale scales like a missing one; with neither scale nor offset a number is passed
      through unchanged, and with an offset only it is shifted by that offset. */
  lemma ZeroScaleIsIdentity(raw: Raw, offset: Option<real>)
    ensures ScaledValue(raw, Some(0.0), offset) == ScaledValue(raw, None, offset)
    ensures RawNumber(raw).Finite? ==> ScaledValue(raw, None, None) == RawNumber(raw)
    ensures RawNumber(raw).Finite? && offset.Some? ==>
      ScaledValue(raw, None, offset) == Finite(RawNumber(raw).r + offset.value)
  {
    assert Scale(Some(0.0)) == Scale(None) == 1.0;
  }

  /** A sample is well formed when its value is null exactly at quality 0 and quality is 0 or 1. */
  predicate WellFormed(s: Sample)
  {
    (s.quality == 0 || s.quality == 1) && (s.value.None? <==> s.quality == 0)
  }

  /** The sample `readDataPoint` returns once the connection check has passed: quality 1 with
      the scaled value after a read that returned, value null and quality 0 after any failure. */
  function SampleOf(read: Result<Raw>, dp: DataPoint, now: int): (s: Sample)
    ensures WellFormed(s) && s.timestamp == now
    ensures s.quality == 1 <==> read.Ok?
    ensures read.Ok? ==> s.value == Some(ScaledValue(read.value, dp.scale, dp.offset))
  {
    match read
    case Ok(raw) => Sample(Some(ScaledValue(raw, dp.scale, dp.offset)), 1, now)
    case Err(_) => Sample(None, 0, now)
  }

  /** The driver call `writeModbusPoint` makes. */
  datatype ModbusWrite = CoilWrite(coilAddress: Option<int>, on: bool)
                       | RegisterWrite(registerAddress: Option<int>, value: int)

  /** A point whose lower-cased type mentions `coil` is written as a coil, switched on exactly
      when the value is not 0; every other point as one holding register. */
  function ModbusWriteRequest(dp: DataPoint, value: int): (w: ModbusWrite)
    ensures w.CoilWrite? <==> Contains(ToLower(dp.dataType), "coil")
    ensures w.CoilWrite? ==> w.coilAddress == ParseInt(dp.address) && (w.on <==> value != 0)
    ensures w.RegisterWrite? ==> w.registerAddress == ParseInt(dp.address) && w.value == value
  {
    var address := ParseInt(dp.address);
    if Contains(ToLower(dp.dataType), "coil") then CoilWrite(address, value != 0)
    else RegisterWrite(address, value)
  }

  /** The buffer `writeSiemensPoint` hands to `writeDB`: a zeroed buffer of the type's size with
      INT, DINT and REAL values written as such and every other type written as an unsigned
      16-bit value at offset 0 (which fails for the 1-byte types). */
  function SiemensWriteBuffer(dataType: string, value: int): (r: Result<seq<byte>>)
    ensures r.Ok? ==> |r.value| == SiemensDataSize(dataType)
    ensures r.Err? ==> r.error == RangeError
    ensures dataType == "INT" ==> (r.Ok? <==> -0x8000 <= value < 0x8000)
    ensures dataType == "DINT" ==> (r.Ok? <==> -0x8000_0000 <= value < 0x8000_0000)
    ensures dataType == "REAL" ==> r.Ok? && BE32(r.value, 0) == Float32Bits(value)
    ensures dataType !in {"INT", "DINT", "REAL", "BOOL", "BYTE"} ==>
      (r.Ok? <==> 0 <= value < Two16) && (r.Ok? ==> BE16(r.value, 0) == value)
  {
    var buffer := Zeros(SiemensDataSize(dataType));
    if dataType == "INT" then WriteInt16BE(buffer, value, 0)
    else if dataType == "DINT" then WriteInt32BE(buffer, value, 0)
    else if dataType == "REAL" then WriteFloatBE(buffer, value, 0)
    else WriteUInt16BE(buffer, value, 0)
  }

  /** A BOOL or BYTE point cannot be written: the 16-bit store does not fit its 1-byte buffer. */
  lemma SiemensNarrowWriteFails(dataType: string, value: int)
    requires dataType == "BOOL" || dataType == "BYTE"
    ensures SiemensWriteBuffer(dataType, value) == Err(RangeError)
  {
  }

  /** A DWORD write stores the value in the high word of its 4-byte buffer, so the DWORD read
      back is the value times 65536. */
  lemma SiemensDWordWriteLandsHigh(value: int)
    requires 0 <= value < Two16
    ensures SiemensWriteBuffer("DWORD", value).Ok?
    ensures BE32(SiemensWriteBuffer("DWORD", value).value, 0) == value * Two16
  {
    var b := SiemensWriteBuffer("DWORD", value).value;
    assert b[2] == 0 && b[3] == 0;
  }

  /** The Siemens address parser inverts the `DB<n>.<off>` spelling. */
  lemma SiemensAddressRoundTrip(db: nat, offset: nat)
    ensures SiemensAddress("DB" + NatToString(db) + "." + NatToString(offset)) == (Some(db), Some(offset))
  {
    var a := NatToString(db);
    var o := NatToString(offset);
    var head := "DB" + a;
    assert "DB" + a + "." + o == head + "." + o;
    assert forall i :: 0 <= i < |head| ==> head[i] != '.' by {
      assert forall i :: 2 <= i < |head| ==> head[i] == a[i - 2];
    }
    DottedFields(head, o);
    assert ReplaceFirst(head, "DB", "") == a by {
      assert StartsWith(head, "DB") && head[2..] == a;
      ReplacePrefix(head, "DB", "");
    }
    ParseIntOfNatToString(db);
    ParseIntOfNatToString(offset);
  }

  /** The text around the first dot of `a.o`, for `a` and `o` without dots. */
  lemma DottedFields(a: string, o: string)
    requires forall i :: 0 <= i < |a| ==> a[i] != '.'
    requires forall i :: 0 <= i < |o| ==> o[i] != '.'
    ensures FieldBefore(a + "." + o, '.') == a
    ensures SecondField(a + "." + o, '.') == Some(o)
  {
    var s := a + "." + o;
    assert s[..|a|] == a && s[|a|] == '.' && s[|a| + 1..] == o;
    FindAt(s, '.', |a|);
  }

  /** `Find` returns the first position of the character. */
  lemma FindAt(s: string, c: char, k: nat)
    requires k < |s| && s[k] == c && c !in s[..k]
    ensures Find(s, c) == Some(k)
  {
    assert c in s;
  }

  /** The Omron address parser inverts the spelling `<area><n>` for an area without digits. */
  lemma OmronAddressRoundTrip(area: string, address: nat)
    requires forall i :: 0 <= i < |area| ==> !IsDigit(area[i])
    ensures OmronAddress(area + NatToString(address)) == (Some(address), area)
  {
    var d := NatToString(address);
    var s := area + d;
    SpanStops(area, d, NotDigit);
    assert s[|area|..] == d;
    SpanAll(d, IsDigit);
    NatToStringValue(address);
  }
}
