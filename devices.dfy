/** The device manager (backend/src/services/deviceManager.js): a registry of connected devices
    and their protocol clients, and the reads and writes it routes through them. */
module Devices {
  import opened Wrappers
  import opened Numbers
  import opened Bytes
  import opened Text
  import opened Records
  import opened Codec
  import M = ModbusProtocol
  import S = SiemensProtocol
  import O = OmronProtocol

  /** A live protocol client. */
  datatype Client = ModbusC(m: M.ModbusClient) | SiemensC(s: S.SiemensClient) | OmronC(o: O.OmronClient)
  {
    function Obj(): object
    {
      match this
      case ModbusC(m) => m
      case SiemensC(s) => s
      case OmronC(o) => o
    }

    /** `client.isConnected()`. */
    predicate IsConnected()
      reads Obj()
    {
      match this
      case ModbusC(m) => m.connected
      case SiemensC(s) => s.connected
      case OmronC(o) => o.connected
    }
  }

  /** What `disconnect` leaves behind: a disconnected client, except an Omron client without a
      transport, whose `disconnect` does nothing. */
  predicate Released(c: Client)
    reads c.Obj()
  {
    c.IsConnected() <==> c.OmronC? && !c.o.hasTransport
  }

  /** The requests a client has handed to its driver or transport, oldest first. */
  datatype Log = ModbusLog(calls: seq<M.Request>) | SiemensLog(requests: seq<S.S7Request>)
               | OmronLog(frames: seq<seq<byte>>)

  ghost function LogOf(c: Client): Log
    reads c.Obj()
  {
    match c
    case ModbusC(m) => ModbusLog(m.sent)
    case SiemensC(s) => SiemensLog(s.sent)
    case OmronC(o) => OmronLog(o.sent)
  }

  /** An Omron link type that creates a transport. */
  predicate HasTransport(d: Device)
  {
    d.connectionType == "tcp" || d.connectionType == "serial"
  }

  /** The client registered for `d` is the one `createClient` builds for it, as `connect` left
      it. */
  ghost predicate Fits(d: Device, c: Client)
    reads c.Obj()
  {
    match SelectClient(d.protocol)
    case Err(_) => false
    case Ok(ModbusKind(t)) => c.ModbusC? && c.m.linkType == t
    case Ok(SiemensKind) => c.SiemensC?
    case Ok(OmronKind) => c.OmronC? && c.o.linkType == d.connectionType && c.o.hasTransport == HasTransport(d)
  }

  /** What `connectDevice` does for a device that is not registered yet: the client's
      construction and its `connect`. */
  function ConnectOutcome(d: Device, snap7Installed: bool, linkOk: bool): (r: Result<bool>)
    ensures r.Ok? ==> SelectClient(d.protocol).Ok? && r.value
    ensures SelectClient(d.protocol).Err? ==> r == Err(SelectClient(d.protocol).error)
    ensures SelectClient(d.protocol).Ok? ==> match SelectClient(d.protocol).value
      case ModbusKind(t) =>
        && (r.Ok? <==> M.KnownType(t) && linkOk)
        && (!M.KnownType(t) ==> r == Err(UnsupportedModbusType(t)))
        && (M.KnownType(t) && !linkOk ==> r == Err(TransportError))
      case SiemensKind =>
        && (r.Ok? <==> snap7Installed && linkOk)
        && (!snap7Installed ==> r == Err(DriverMissing))
        && (snap7Installed && !linkOk ==> r == Err(TransportError))
      case OmronKind =>
        && (r.Ok? <==> !HasTransport(d) || linkOk)
        && (r.Err? ==> r.error == TransportError)
  {
    match SelectClient(d.protocol)
    case Err(e) => Err(e)
    case Ok(ModbusKind(t)) =>
      if !M.KnownType(t) then Err(UnsupportedModbusType(t))
      else if linkOk then Ok(true) else Err(TransportError)
    case Ok(SiemensKind) =>
      if !snap7Installed then Err(DriverMissing)
      else if linkOk then Ok(true) else Err(TransportError)
    case Ok(OmronKind) =>
      if HasTransport(d) && !linkOk then Err(TransportError) else Ok(true)
  }

  /** The raw value of a Modbus point: a coil or discrete input reads one bit as 0 or 1, a
      register point reads one register (two for `dword`) and decodes them. */
  function ModbusRead(dp: DataPoint, link: Link): Result<Raw>
  {
    var t := ToLower(dp.dataType);
    match ModbusTableOf(t)
    case Coils => BitValue(M.Fetch(link.coils, 1))
    case DiscreteInputs => BitValue(M.Fetch(link.coils, 1))
    case InputRegisters => Registers(M.Fetch(link.registers, ModbusRegisterCount(t)), t)
    case HoldingRegisters => Registers(M.Fetch(link.registers, ModbusRegisterCount(t)), t)
  }

  /** The driver call `readModbusPoint` makes for a point: one bit from the coils or the
      discrete inputs, or the point's register count from the input or holding registers, at the
      parsed address. */
  function ModbusReadRequest(dp: DataPoint): (q: M.Request)
    ensures q.address == ParseInt(dp.address)
    ensures q.ReadCoilBits? <==> Contains(ToLower(dp.dataType), "coil")
    ensures q.ReadDiscrete? <==> !Contains(ToLower(dp.dataType), "coil") && Contains(ToLower(dp.dataType), "discrete")
    ensures q.ReadInput? <==>
      !Contains(ToLower(dp.dataType), "coil") && !Contains(ToLower(dp.dataType), "discrete")
      && Contains(ToLower(dp.dataType), "input")
    ensures q.ReadCoilBits? || q.ReadDiscrete? || q.ReadInput? || q.ReadHolding?
    ensures q.ReadCoilBits? || q.ReadDiscrete? ==> q.length == 1
    ensures q.ReadInput? || q.ReadHolding? ==> q.length == ModbusRegisterCount(ToLower(dp.dataType))
  {
    var address := ParseInt(dp.address);
    var t := ToLower(dp.dataType);
    ToLowerIdempotent(dp.dataType);
    match ModbusTableOf(t)
    case Coils => M.ReadCoilBits(address, 1)
    case DiscreteInputs => M.ReadDiscrete(address, 1)
    case InputRegisters => M.ReadInput(address, ModbusRegisterCount(t))
    case HoldingRegisters => M.ReadHolding(address, ModbusRegisterCount(t))
  }

  /** The driver call `writeModbusPoint` makes for a write request. */
  function ModbusWriteCall(w: ModbusWrite): M.Request
  {
    match w
    case CoilWrite(address, on) => M.WriteOneCoil(address, on)
    case RegisterWrite(address, value) => M.WriteOneRegister(address, value)
  }

  /** `data[0] ? 1 : 0` on a one-bit read. */
  function BitValue(bits: Result<seq<bool>>): Result<Raw>
  {
    match bits
    case Err(e) => Err(e)
    case Ok(b) => Ok(Int(if |b| > 0 && b[0] then 1 else 0))
  }

  function Registers(words: Result<seq<word>>, dataType: string): Result<Raw>
  {
    match words
    case Err(e) => Err(e)
    case Ok(ws) => ParseModbusValue(ws, dataType)
  }

  /** The raw value of a Siemens point: the type's size in bytes read from the data block, decoded
      at offset 0. */
  function SiemensRead(dp: DataPoint, link: Link): Result<Raw>
  {
    match S.Fill(link.memory, SiemensDataSize(dp.dataType))
    case Err(e) => Err(e)
    case Ok(buffer) => S.ParseValue(buffer, 0, dp.dataType)
  }

  /** The raw value of an Omron point: the first word of a one-item read (`undefined` when the
      reply holds no word). */
  function OmronRead(d: Device, dp: DataPoint, link: Link): Result<Raw>
  {
    var (address, area) := OmronAddress(dp.address);
    match O.ReadOutcome(O.Fins(area, address, 1, true), HasTransport(d), link.sendOk, link.received)
    case Err(e) => Err(e)
    case Ok(ws) => Ok(if |ws| > 0 then Int(ws[0]) else Undefined)
  }

  /** The raw value `readDataPoint` obtains for a device's point, by its lower-cased protocol. */
  function RawRead(d: Device, dp: DataPoint, link: Link): Result<Raw>
  {
    var p := ToLower(d.protocol);
    if StartsWith(p, "modbus") then ModbusRead(dp, link)
    else if p == "siemens" || p == "s7" then SiemensRead(dp, link)
    else if p == "omron" || p == "fins" then OmronRead(d, dp, link)
    else Ok(Undefined)
  }

  /** `readDataPoint` against a registry: "not connected" for an unregistered id, otherwise a
      sample that is never an error: quality 1 with the scaled value, or null at quality 0. */
  function ReadSpec(registry: map<nat, Device>, id: nat, dp: DataPoint, link: Link, now: int)
    : (r: Result<Sample>)
    ensures r.Err? <==> id !in registry
    ensures r.Err? ==> r.error == DeviceNotConnected(id)
    ensures r.Ok? ==> WellFormed(r.value) && r.value.timestamp == now
    ensures r.Ok? ==> (r.value.quality == 1 <==> RawRead(registry[id], dp, link).Ok?)
  {
    if id !in registry then Err(DeviceNotConnected(id))
    else Ok(SampleOf(RawRead(registry[id], dp, link), dp, now))
  }

  /** A driver-level write: true once the driver accepts. */
  function DriverWrite(writeOk: bool): Result<bool>
  {
    if writeOk then Ok(true) else Err(TransportError)
  }

  /** A Siemens write: the value is first encoded for the point's type, which can fail with
      RangeError before anything reaches the driver. */
  function SiemensWrite(dp: DataPoint, value: int, link: Link): (r: Result<bool>)
    ensures SiemensWriteBuffer(dp.dataType, value).Err? ==> r == Err(RangeError)
    ensures SiemensWriteBuffer(dp.dataType, value).Ok? ==> r == DriverWrite(link.writeOk)
  {
    match SiemensWriteBuffer(dp.dataType, value)
    case Err(e) => Err(e)
    case Ok(_) => DriverWrite(link.writeOk)
  }

  /** An Omron write of the single item `value`. */
  function OmronWrite(d: Device, dp: DataPoint, value: int, link: Link): Result<bool>
  {
    var (address, area) := OmronAddress(dp.address);
    O.WriteOutcome(O.Fins(area, address, 1, false), HasTransport(d), link.sendOk, link.received)
  }

  /** `writeDataPoint` against a registry: "not connected" for an unregistered id; otherwise
      the write of the device's protocol, whose errors are passed on, and true once it is done. */
  function WriteSpec(registry: map<nat, Device>, id: nat, dp: DataPoint, value: int, link: Link)
    : (r: Result<bool>)
    ensures r.Ok? ==> r.value
    ensures id !in registry ==> r == Err(DeviceNotConnected(id))
    ensures id in registry && StartsWith(ToLower(registry[id].protocol), "modbus") ==>
      (r.Ok? <==> link.writeOk) && (r.Err? ==> r.error == TransportError)
    ensures id in registry && ToLower(registry[id].protocol) in {"siemens", "s7"} ==>
      && (r.Ok? <==> SiemensWriteBuffer(dp.dataType, value).Ok? && link.writeOk)
      && (SiemensWriteBuffer(dp.dataType, value).Err? ==> r == Err(RangeError))
      && (SiemensWriteBuffer(dp.dataType, value).Ok? && !link.writeOk ==> r == Err(TransportError))
    ensures id in registry && ToLower(registry[id].protocol) in {"omron", "fins"} ==>
      var (address, area) := OmronAddress(dp.address);
      var reply := O.Reply(O.Fins(area, address, 1, false), HasTransport(registry[id]), link.sendOk, link.received);
      (r.Ok? <==> reply.Ok?) && (r.Err? ==> r.error == reply.error)
    ensures id in registry ==>
      var p := ToLower(registry[id].protocol);
      !StartsWith(p, "modbus") && p !in {"siemens", "s7", "omron", "fins"} ==> r == Ok(true)
  {
    if id !in registry then Err(DeviceNotConnected(id))
    else
      ModbusPrefixExcludes(ToLower(registry[id].protocol));
      ProtocolWrite(registry[id], dp, value, link)
  }

  /** The protocol branch of `writeDataPoint` for a registered device `d`. */
  function ProtocolWrite(d: Device, dp: DataPoint, value: int, link: Link): Result<bool>
  {
    var p := ToLower(d.protocol);
    if StartsWith(p, "modbus") then DriverWrite(link.writeOk)
    else if p == "siemens" || p == "s7" then SiemensWrite(dp, value, link)
    else if p == "omron" || p == "fins" then OmronWrite(d, dp, value, link)
    else Ok(true)
  }

  /** A protocol name starting with `modbus` is none of the other protocols' names. */
  lemma ModbusPrefixExcludes(p: string)
    ensures StartsWith(p, "modbus") ==> p !in {"siemens", "s7", "omron", "fins"}
  {
    if StartsWith(p, "modbus") {
      assert p[0] == p[..6][0] == 'm';
    }
  }

  /** `client.connect()` on a client `createClient` has just built for `d`: the outcome
      `ConnectOutcome` predicts, after which a connected client fits its device. */
  method ConnectClient(c: Client, d: Device, snap7Installed: bool, linkOk: bool) returns (r: Result<bool>)
    requires ConnectOutcome(d, snap7Installed, true).Ok?
    requires match SelectClient(d.protocol).value
      case ModbusKind(t) => c.ModbusC? && c.m.linkType == t
      case SiemensKind => c.SiemensC?
      case OmronKind => c.OmronC? && c.o.linkType == d.connectionType && !c.o.hasTransport
    modifies c.Obj()
    ensures r == ConnectOutcome(d, snap7Installed, linkOk)
    ensures r.Ok? ==> Fits(d, c) && c.IsConnected()
  {
    match c {
      case ModbusC(m) =>
        r := m.Connect(linkOk);
      case SiemensC(s) =>
        r := s.Connect(linkOk);
      case OmronC(o) =>
        r := o.Connect(linkOk);
    }
  }

  /** An `int32`, `uint32` or `float` point on a Modbus device is read from one register only,
      so it never yields a value: its sample is always null at quality 0. */
  lemma WideModbusPointReadsBad(registry: map<nat, Device>, id: nat, dp: DataPoint, link: Link, now: int)
    requires id in registry && StartsWith(ToLower(registry[id].protocol), "modbus")
    requires ToLower(dp.dataType) in {"int32", "uint32", "float"}
    ensures ReadSpec(registry, id, dp, link, now) == Ok(Sample(None, 0, now))
  {
    var t := ToLower(dp.dataType);
    ToLowerIdempotent(dp.dataType);
    WideTypesReadHoldingRegisters(t);
    var words := M.Fetch(link.registers, ModbusRegisterCount(t));
    if words.Ok? {
      SingleRegisterWideReadFails(words.value[0], t);
      assert words.value == [words.value[0]];
    }
  }

  /** A `dword` point on a Modbus device reads two registers, high word first, as a signed
      32-bit value, which is then scaled. */
  lemma DWordPointReadsTwoRegisters(registry: map<nat, Device>, id: nat, dp: DataPoint, link: Link, now: int)
    requires id in registry && StartsWith(ToLower(registry[id].protocol), "modbus")
    requires ToLower(dp.dataType) == "dword"
    requires link.registers.Ok? && |link.registers.value| >= 2
    ensures var ws := link.registers.value;
      ReadSpec(registry, id, dp, link, now)
      == Ok(Sample(Some(ScaledValue(Int(Signed32(ws[0] * Two16 + ws[1])), dp.scale, dp.offset)), 1, now))
  {
    WideTypesReadHoldingRegisters(ToLower(dp.dataType));
  }

  /** A Modbus coil point reads one coil and yields 1 when it is on and 0 when it is off. */
  lemma CoilPointReadsBit(registry: map<nat, Device>, id: nat, dp: DataPoint, link: Link, now: int)
    requires id in registry && StartsWith(ToLower(registry[id].protocol), "modbus")
    requires Contains(ToLower(dp.dataType), "coil")
    requires link.coils.Ok? && |link.coils.value| >= 1
    ensures ReadSpec(registry, id, dp, link, now)
      == Ok(Sample(Some(ScaledValue(Int(if link.coils.value[0] then 1 else 0), dp.scale, dp.offset)), 1, now))
  {
    ToLowerIdempotent(dp.dataType);
  }

  /** The size a Siemens read requests always covers the decoder for the point's type, so a
      Siemens read fails exactly when the driver read fails. */
  lemma SiemensReadSizeFits(dp: DataPoint, link: Link)
    ensures SiemensRead(dp, link).Err? <==> S.Fill(link.memory, SiemensDataSize(dp.dataType)).Err?
  {
  }

  /** What a Siemens INT or DINT point writes, read back from the same data block, is the value
      written. */
  lemma SiemensWriteReadBack(dp: DataPoint, value: int)
    requires dp.dataType == "INT" ==> -0x8000 <= value < 0x8000
    requires dp.dataType == "DINT" ==> -0x8000_0000 <= value < 0x8000_0000
    requires dp.dataType in {"INT", "DINT"}
    ensures SiemensWriteBuffer(dp.dataType, value).Ok?
    ensures forall link: Link | link.memory == SiemensWriteBuffer(dp.dataType, value) ::
      SiemensRead(dp, link) == Ok(Int(value))
  {
    var size := SiemensDataSize(dp.dataType);
    if dp.dataType == "INT" {
      Int16RoundTrip(Zeros(size), value, 0);
    } else {
      Int32RoundTrip(Zeros(size), value, 0);
    }
    var buffer := SiemensWriteBuffer(dp.dataType, value).value;
    assert buffer[..size] == buffer;
  }

  /** An Omron point at a 16-bit address, asked through a transport that answers with a 14-byte
      header and the word, reads that word. */
  lemma OmronPointReadsWord(d: Device, dp: DataPoint, header: seq<byte>, w: word)
    requires HasTransport(d) && |header| == O.ResponseHeader
    requires var (address, _) := OmronAddress(dp.address); 0 <= O.AddressField(address) < Two16
    ensures forall link: Link | link.sendOk && link.received == header + WordsToBytes([w]) ::
      OmronRead(d, dp, link) == Ok(Int(w))
  {
    O.ResponseRoundTrip(header, [w], []);
    assert header + WordsToBytes([w]) + [] == header + WordsToBytes([w]);
  }

  /** The protocol test `readDataPoint` and `writeDataPoint` branch on picks out the client
      variant that `createClient` built for the device. */
  lemma ProtocolSelectsClient(d: Device, c: Client)
    requires Fits(d, c)
    ensures StartsWith(ToLower(d.protocol), "modbus") ==> c.ModbusC?
    ensures ToLower(d.protocol) in {"siemens", "s7"} ==> c.SiemensC?
    ensures ToLower(d.protocol) in {"omron", "fins"} ==> c.OmronC? && c.o.hasTransport == HasTransport(d)
    ensures c.ModbusC? ==> StartsWith(ToLower(d.protocol), "modbus")
    ensures c.SiemensC? ==> ToLower(d.protocol) in {"siemens", "s7"}
    ensures c.OmronC? ==> ToLower(d.protocol) in {"omron", "fins"}
  {
    var p := ToLower(d.protocol);
    if StartsWith(p, "modbus") {
      assert p[0] == "modbus"[0] == 'm';
    }
    if c.ModbusC? {
      assert p == "modbus_" + SelectClient(d.protocol).value.modbusType;
      assert p[..6] == "modbus";
    }
  }

  /** A log after `readDataPoint` on a point of `d`: a Modbus client asks for the point's table,
      address and count; a Siemens client for the type's size at the parsed block and offset; an
      Omron client sends the one-item read frame at the parsed area and address, when it can be
      built and the transport takes it. */
  ghost function AfterRead(before: Log, d: Device, dp: DataPoint, link: Link): Log
  {
    match before
    case ModbusLog(calls) => ModbusLog(calls + [ModbusReadRequest(dp)])
    case SiemensLog(requests) =>
      var (db, offset) := SiemensAddress(dp.address);
      SiemensLog(requests + [S.DBRead(db, offset, SiemensDataSize(dp.dataType))])
    case OmronLog(frames) =>
      var (address, area) := OmronAddress(dp.address);
      var frame := O.Fins(area, address, 1, true);
      OmronLog(if frame.Ok? && HasTransport(d) && link.sendOk then frames + [frame.value] else frames)
  }

  /** A log after `writeDataPoint` of `value` on a point of `d`: a Modbus client makes the coil
      or register write; a Siemens client hands over the encoded buffer at the parsed block and
      offset, unless encoding fails; an Omron client sends the write frame for one item followed
      by its byte, when the frame can be built and the transport takes it. */
  ghost function AfterWrite(before: Log, d: Device, dp: DataPoint, value: int, link: Link): Log
  {
    match before
    case ModbusLog(calls) => ModbusLog(calls + [ModbusWriteCall(ModbusWriteRequest(dp, value))])
    case SiemensLog(requests) =>
      var buffer := SiemensWriteBuffer(dp.dataType, value);
      var (db, offset) := SiemensAddress(dp.address);
      SiemensLog(if buffer.Ok? then requests + [S.DBWrite(db, offset, |buffer.value|, buffer.value)] else requests)
    case OmronLog(frames) =>
      var (address, area) := OmronAddress(dp.address);
      var frame := O.Fins(area, address, 1, false);
      OmronLog(if frame.Ok? && HasTransport(d) && link.sendOk then frames + [frame.value + O.Payload([value])]
               else frames)
  }

  class DeviceManager {
    /** Whether `node-snap7` could be loaded. */
    const snap7Installed: bool
    var devices: map<nat, Device>
    var connections: map<nat, Client>
    ghost var Repr: set<object>

    /** The registry invariant: both maps have the same keys, every device is stored under its
        own id, every client is a distinct object, fits its device and is connected. */
    ghost predicate Valid()
      reads this, Repr
    {
      && this !in Repr
      && devices.Keys == connections.Keys
      && (forall id | id in connections :: connections[id].Obj() in Repr)
      && (forall id, id' | id in connections && id' in connections && id != id' ::
            connections[id].Obj() != connections[id'].Obj())
      && (forall id | id in connections ::
            devices[id].id == id && Fits(devices[id], connections[id]) && connections[id].IsConnected())
    }

    constructor(snap7Installed: bool)
      ensures Valid() && fresh(Repr)
      ensures this.snap7Installed == snap7Installed && devices == map[] && connections == map[]
    {
      this.snap7Installed := snap7Installed;
      devices := map[];
      connections := map[];
      Repr := {};
    }

    /** `createClient`: a fresh, disconnected client of the variant the protocol selects. */
    method CreateClient(d: Device) returns (r: Result<Client>)
      ensures r.Ok? <==> ConnectOutcome(d, snap7Installed, true).Ok?
      ensures r.Err? ==> r == Err(ConnectOutcome(d, snap7Installed, true).error)
      ensures r.Ok? ==> fresh(r.value.Obj()) && !r.value.IsConnected()
      ensures r.Ok? ==> match SelectClient(d.protocol).value
        case ModbusKind(t) =>
          r.value.ModbusC? && r.value.m.linkType == t && r.value.m.slaveId == d.slaveId
          && r.value.m.timeout == ClientTimeout(d)
        case SiemensKind =>
          r.value.SiemensC? && r.value.s.host == d.host && r.value.s.rack == d.rack && r.value.s.slot == d.slot
        case OmronKind =>
          r.value.OmronC? && r.value.o.linkType == d.connectionType && !r.value.o.hasTransport
    {
      match SelectClient(d.protocol)
      case Err(e) =>
        return Err(e);
      case Ok(ModbusKind(t)) =>
        if !M.KnownType(t) {
          // SelectClient only yields the three known Modbus link types.
          assert false;
        }
        var m := new M.ModbusClient(t, d.slaveId, ClientTimeout(d));
        return Ok(ModbusC(m));
      case Ok(SiemensKind) =>
        if !snap7Installed {
          return Err(DriverMissing);
        }
        var s := new S.SiemensClient(d.host, d.rack, d.slot);
        return Ok(SiemensC(s));
      case Ok(OmronKind) =>
        var o := new O.OmronClient(d.connectionType);
        return Ok(OmronC(o));
    }

    /** `connectDevice`: a registered id gets its stored client back and nothing changes;
        otherwise a client is created and connected, and only when both succeed are the device
        and the client registered; on failure both maps are unchanged and the error is passed
        on. */
    method ConnectDevice(d: Device, linkOk: bool) returns (r: Result<Client>)
      requires Valid()
      modifies this
      ensures Valid() && fresh(Repr - old(Repr))
      ensures d.id in old(connections) ==>
        r == Ok(old(connections)[d.id]) && devices == old(devices) && connections == old(connections)
      ensures d.id !in old(connections) ==>
        (r.Ok? <==> ConnectOutcome(d, snap7Installed, linkOk).Ok?)
      ensures d.id !in old(connections) && r.Err? ==>
        r.error == ConnectOutcome(d, snap7Installed, linkOk).error
        && devices == old(devices) && connections == old(connections)
      ensures d.id !in old(connections) && r.Ok? ==>
        devices == old(devices)[d.id := d] && connections == old(connections)[d.id := r.value]
        && fresh(r.value.Obj())
    {
      if d.id in connections {
        return Ok(connections[d.id]);
      }
      var created := CreateClient(d);
      if created.Err? {
        return Err(created.error);
      }
      var client := created.value;
      var outcome := ConnectClient(client, d, snap7Installed, linkOk);
      if outcome.Err? {
        return Err(outcome.error);
      }
      devices := devices[d.id := d];
      connections := connections[d.id := client];
      Repr := Repr + {client.Obj()};
      return Ok(client);
    }

    /** `disconnectDevice`: an unknown id is a no-op; otherwise the client is disconnected and
        the id leaves both maps. Afterwards the client reports disconnected, except an Omron
        client without a transport, whose `disconnect` does nothing. */
    method DisconnectDevice(id: nat)
      requires Valid()
      modifies this, if id in connections then {connections[id].Obj()} else {}
      ensures Valid() && Repr == old(Repr)
      ensures devices == old(devices) - {id} && connections == old(connections) - {id}
      ensures id in old(connections) ==> Released(old(connections)[id])
    {
      if id !in connections {
        return;
      }
      var client := connections[id];
      assert forall j | j in connections && j != id :: connections[j].Obj() != client.Obj();
      match client {
        case ModbusC(m) =>
          m.Disconnect();
        case SiemensC(s) =>
          s.Disconnect();
        case OmronC(o) =>
          o.Disconnect();
      }
      connections := connections - {id};
      devices := devices - {id};
    }

    /** `disconnectAll`: every registered device is disconnected as `disconnectDevice` does it;
        the registry ends empty. */
    method DisconnectAll()
      requires Valid()
      modifies this, Repr
      ensures Valid() && Repr == old(Repr)
      ensures devices == map[] && connections == map[]
      ensures forall id | id in old(connections) :: Released(old(connections)[id])
    {
      ghost var all := connections;
      while connections.Keys != {}
        invariant Valid() && Repr == old(Repr)
        invariant forall j | j in connections :: j in all && connections[j] == all[j]
        invariant forall j | j in all :: all[j].Obj() in Repr
        invariant forall j, j' | j in all && j' in all && j != j' :: all[j].Obj() != all[j'].Obj()
        invariant forall j | j in all && j !in connections :: Released(all[j])
        decreases |connections.Keys|
      {
        DisconnectNext(all);
      }
    }

    /** One step of `disconnectAll`: some registered device is disconnected and unregistered;
        the devices released before stay released. */
    method DisconnectNext(ghost all: map<nat, Client>)
      requires Valid() && connections.Keys != {}
      requires forall j | j in connections :: j in all && connections[j] == all[j]
      requires forall j | j in all :: all[j].Obj() in Repr
      requires forall j, j' | j in all && j' in all && j != j' :: all[j].Obj() != all[j'].Obj()
      requires forall j | j in all && j !in connections :: Released(all[j])
      modifies this, Repr
      ensures Valid() && Repr == old(Repr)
      ensures forall j | j in connections :: j in all && connections[j] == all[j]
      ensures forall j | j in all && j !in connections :: Released(all[j])
      ensures |connections.Keys| < |old(connections).Keys|
    {
      var id :| id in connections.Keys;
      assert connections[id] == all[id];
      DisconnectDevice(id);
      forall j | j in all && j !in connections
        ensures Released(all[j])
      {
        if j != id {
          assert j !in old(connections);
          assert all[j].Obj() != all[id].Obj() && all[j].Obj() in Repr;
          assert old(Released(all[j]));
        }
      }
    }

    /** `isDeviceConnected`: under the registry invariant, exactly the registered ids. */
    function IsDeviceConnected(id: nat): (r: bool)
      requires Valid()
      reads this, Repr
      ensures r <==> id in devices
    {
      id in connections && connections[id].IsConnected()
    }

    /** `readDataPoint`: see `ReadSpec`. */
    method ReadDataPoint(id: nat, dp: DataPoint, link: Link, now: int) returns (r: Result<Sample>)
      requires Valid()
      modifies if id in connections then {connections[id].Obj()} else {}
      ensures Valid()
      ensures r == ReadSpec(devices, id, dp, link, now)
      ensures id in connections ==>
        LogOf(connections[id]) == AfterRead(old(LogOf(connections[id])), devices[id], dp, link)
    {
      if id !in connections || !connections[id].IsConnected() {
        return Err(DeviceNotConnected(id));
      }
      var client := connections[id];
      var device := devices[id];
      var p := ToLower(device.protocol);
      ProtocolSelectsClient(device, client);
      var raw: Result<Raw>;
      if StartsWith(p, "modbus") {
        raw := ReadModbusPoint(client.m, dp, link);
      } else if p == "siemens" || p == "s7" {
        raw := ReadSiemensPoint(client.s, dp, link);
      } else if p == "omron" || p == "fins" {
        raw := ReadOmronPoint(client.o, device, dp, link);
      } else {
        raw := Ok(Undefined);
      }
      return Ok(SampleOf(raw, dp, now));
    }

    /** `readModbusPoint`. */
    method ReadModbusPoint(client: M.ModbusClient, dp: DataPoint, link: Link) returns (r: Result<Raw>)
      requires client.connected
      modifies client
      ensures client.connected
      ensures r == ModbusRead(dp, link)
      ensures client.sent == old(client.sent) + [ModbusReadRequest(dp)]
    {
      var address := ParseInt(dp.address);
      var t := ToLower(dp.dataType);
      var table := ModbusTableOf(t);
      if table == Coils {
        var bits := client.ReadCoils(address, 1, link.coils);
        return BitValue(bits);
      } else if table == DiscreteInputs {
        var bits := client.ReadDiscreteInputs(address, 1, link.coils);
        return BitValue(bits);
      } else if table == InputRegisters {
        var words := client.ReadInputRegisters(address, ModbusRegisterCount(t), link.registers);
        return Registers(words, t);
      } else {
        var words := client.ReadHoldingRegisters(address, ModbusRegisterCount(t), link.registers);
        return Registers(words, t);
      }
    }

    /** `readSiemensPoint`. */
    method ReadSiemensPoint(client: S.SiemensClient, dp: DataPoint, link: Link) returns (r: Result<Raw>)
      requires client.connected
      modifies client
      ensures client.connected
      ensures r == SiemensRead(dp, link)
      ensures var (db, offset) := SiemensAddress(dp.address);
        client.sent == old(client.sent) + [S.DBRead(db, offset, SiemensDataSize(dp.dataType))]
    {
      var (db, offset) := SiemensAddress(dp.address);
      var buffer := client.ReadDB(db, offset, SiemensDataSize(dp.dataType), link.memory);
      if buffer.Err? {
        return Err(buffer.error);
      }
      return S.ParseValue(buffer.value, 0, dp.dataType);
    }

    /** `readOmronPoint`. */
    method ReadOmronPoint(client: O.OmronClient, d: Device, dp: DataPoint, link: Link) returns (r: Result<Raw>)
      requires client.connected && client.hasTransport == HasTransport(d)
      modifies client
      ensures client.connected && client.hasTransport == old(client.hasTransport)
      ensures r == OmronRead(d, dp, link)
      ensures var (address, area) := OmronAddress(dp.address);
        var frame := O.Fins(area, address, 1, true);
        client.sent == if frame.Ok? && client.hasTransport && link.sendOk then old(client.sent) + [frame.value]
                       else old(client.sent)
    {
      var (address, area) := OmronAddress(dp.address);
      var data := client.ReadMemoryArea(area, address, 1, link.sendOk, link.received);
      if data.Err? {
        return Err(data.error);
      }
      return Ok(if |data.value| > 0 then Int(data.value[0]) else Undefined);
    }

    /** `writeDataPoint`: see `WriteSpec`. A Siemens write hands the encoded buffer to the
        driver. */
    method WriteDataPoint(id: nat, dp: DataPoint, value: int, link: Link) returns (r: Result<bool>)
      requires Valid()
      modifies if id in connections then {connections[id].Obj()} else {}
      ensures Valid()
      ensures r == WriteSpec(devices, id, dp, value, link)
      ensures id in connections ==>
        LogOf(connections[id]) == AfterWrite(old(LogOf(connections[id])), devices[id], dp, value, link)
    {
      if id !in connections || !connections[id].IsConnected() {
        return Err(DeviceNotConnected(id));
      }
      r := WriteThrough(connections[id], devices[id], dp, value, link);
    }

    /** The protocol branch of `writeDataPoint`, on the client registered for `d`. */
    method WriteThrough(client: Client, d: Device, dp: DataPoint, value: int, link: Link) returns (r: Result<bool>)
      requires Fits(d, client) && client.IsConnected()
      modifies client.Obj()
      ensures Fits(d, client) && client.IsConnected()
      ensures r == ProtocolWrite(d, dp, value, link)
      ensures LogOf(client) == AfterWrite(old(LogOf(client)), d, dp, value, link)
    {
      var p := ToLower(d.protocol);
      ProtocolSelectsClient(d, client);
      if StartsWith(p, "modbus") {
        r := WriteModbusPoint(client.m, dp, value, link);
      } else if p == "siemens" || p == "s7" {
        r := WriteSiemensPoint(client.s, dp, value, link);
      } else if p == "omron" || p == "fins" {
        r := WriteOmronPoint(client.o, d, dp, value, link);
      } else {
        r := Ok(true);
      }
    }

    /** `writeModbusPoint`: a coil point writes `value != 0` to the coil, any other point writes
        `value` to the holding register. */
    method WriteModbusPoint(client: M.ModbusClient, dp: DataPoint, value: int, link: Link) returns (r: Result<bool>)
      requires client.connected
      modifies client
      ensures client.connected
      ensures r == DriverWrite(link.writeOk)
      ensures client.sent == old(client.sent) + [ModbusWriteCall(ModbusWriteRequest(dp, value))]
    {
      var w := ModbusWriteRequest(dp, value);
      if w.CoilWrite? {
        r := client.WriteCoil(w.coilAddress, w.on, link.writeOk);
      } else {
        r := client.WriteRegister(w.registerAddress, w.value, link.writeOk);
      }
    }

    /** `writeSiemensPoint`: the encoded buffer goes to the data block at the point's address. */
    method WriteSiemensPoint(client: S.SiemensClient, dp: DataPoint, value: int, link: Link) returns (r: Result<bool>)
      requires client.connected
      modifies client
      ensures client.connected
      ensures r == SiemensWrite(dp, value, link)
      ensures SiemensWriteBuffer(dp.dataType, value).Err? ==> client.sent == old(client.sent)
      ensures SiemensWriteBuffer(dp.dataType, value).Ok? ==>
        var buffer := SiemensWriteBuffer(dp.dataType, value).value;
        var (db, offset) := SiemensAddress(dp.address);
        client.sent == old(client.sent) + [S.DBWrite(db, offset, |buffer|, buffer)]
    {
      var (db, offset) := SiemensAddress(dp.address);
      var buffer := SiemensWriteBuffer(dp.dataType, value);
      if buffer.Err? {
        return Err(buffer.error);
      }
      r := client.WriteDB(db, offset, buffer.value, link.writeOk);
    }

    /** `writeOmronPoint`: one item written at the point's area and address. */
    method WriteOmronPoint(client: O.OmronClient, d: Device, dp: DataPoint, value: int, link: Link)
      returns (r: Result<bool>)
      requires client.connected && client.hasTransport == HasTransport(d)
      modifies client
      ensures client.connected && client.hasTransport == old(client.hasTransport)
      ensures r == OmronWrite(d, dp, value, link)
      ensures var (address, area) := OmronAddress(dp.address);
        var frame := O.Fins(area, address, 1, false);
        client.sent == if frame.Ok? && client.hasTransport && link.sendOk
                       then old(client.sent) + [frame.value + O.Payload([value])]
                       else old(client.sent)
    {
      var (address, area) := OmronAddress(dp.address);
      r := client.WriteMemoryArea(area, address, [value], link.sendOk, link.received);
    }
  }
}
