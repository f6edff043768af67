/** The Modbus client (backend/src/protocols/modbus/modbusClient.js): a `connected` flag set by
    `connect` and `disconnect`, and six driver calls that each refuse to run while it is false.
    The `modbus-serial` driver is a parameter: what it finds at the addressed location. */
module ModbusProtocol {
  import opened Wrappers
  import opened Bytes

  /** What the driver returns for a read of `length` items from the addressed location: the
      first `length` items, or an exception when the far end fails or holds fewer. */
  function Fetch<T>(device: Result<seq<T>>, length: nat): (r: Result<seq<T>>)
    ensures r.Ok? <==> device.Ok? && |device.value| >= length
    ensures r.Ok? ==> |r.value| == length && r.value == device.value[..length]
  {
    match device
    case Err(e) => Err(e)
    case Ok(items) => if |items| >= length then Ok(items[..length]) else Err(TransportError)
  }

  /** The link types `connect` knows. */
  predicate KnownType(t: string)
  {
    t == "tcp" || t == "rtu" || t == "ascii"
  }

  const NotConnected := ClientNotConnected("Modbus")

  /** A call handed to the driver: the four reads with their start address and item count, and
      the two single-item writes. */
  datatype Request =
    | ReadHolding(address: Option<int>, length: nat)
    | ReadInput(address: Option<int>, length: nat)
    | ReadCoilBits(address: Option<int>, length: nat)
    | ReadDiscrete(address: Option<int>, length: nat)
    | WriteOneRegister(address: Option<int>, value: int)
    | WriteOneCoil(address: Option<int>, on: bool)

  class ModbusClient {
    const linkType: string
    const slaveId: Option<int>
    const timeout: int
    var connected: bool
    /** The unit id and timeout handed to the driver on the last successful connect. */
    var unitId: Option<int>
    var driverTimeout: Option<int>
    /** The calls handed to the driver, oldest first. */
    ghost var sent: seq<Request>

    constructor(linkType: string, slaveId: Option<int>, timeout: int)
      ensures this.linkType == linkType && this.slaveId == slaveId && this.timeout == timeout
      ensures !connected && unitId.None? && driverTimeout.None? && sent == []
    {
      this.linkType := linkType;
      this.slaveId := slaveId;
      this.timeout := timeout;
      connected := false;
      unitId := None;
      driverTimeout := None;
      sent := [];
    }

    /** `connect`: an unknown link type fails without touching the driver; otherwise the link is
        opened (`linkOk` says whether that works) and, once it is, the unit id (default 1) and the
        timeout (default 3000 ms) are set and `connected` becomes true. On any failure
        `connected` is false and the error is rethrown. */
    method Connect(linkOk: bool) returns (r: Result<bool>)
      modifies this
      ensures !KnownType(linkType) ==> r == Err(UnsupportedModbusType(linkType))
      ensures KnownType(linkType) && !linkOk ==> r == Err(TransportError)
      ensures KnownType(linkType) && linkOk ==> r == Ok(true)
      ensures connected <==> r.Ok?
      ensures r.Ok? ==> unitId == Some(OrDefault(slaveId, 1))
      ensures r.Ok? ==> driverTimeout == Some(OrDefault(Some(timeout), 3000))
      ensures r.Err? ==> unitId == old(unitId) && driverTimeout == old(driverTimeout)
      ensures sent == old(sent)
    {
      if !KnownType(linkType) {
        connected := false;
        return Err(UnsupportedModbusType(linkType));
      }
      if !linkOk {
        connected := false;
        return Err(TransportError);
      }
      unitId := Some(OrDefault(slaveId, 1));
      driverTimeout := Some(OrDefault(Some(timeout), 3000));
      connected := true;
      return Ok(true);
    }

    /** `disconnect`: closes the link only when connected; afterwards `connected` is false. */
    method Disconnect()
      modifies this
      ensures !connected
      ensures unitId == old(unitId) && driverTimeout == old(driverTimeout) && sent == old(sent)
    {
      if connected {
        connected := false;
      }
    }

    /** `readHoldingRegisters`: refused while disconnected, else the driver's answer. */
    method ReadHoldingRegisters(address: Option<int>, length: nat, device: Result<seq<word>>)
      returns (r: Result<seq<word>>)
      modifies this
      ensures connected == old(connected) && unitId == old(unitId) && driverTimeout == old(driverTimeout)
      ensures !connected ==> r == Err(NotConnected) && sent == old(sent)
      ensures connected ==> r == Fetch(device, length) && sent == old(sent) + [ReadHolding(address, length)]
    {
      if !connected {
        return Err(NotConnected);
      }
      sent := sent + [ReadHolding(address, length)];
      r := Fetch(device, length);
    }

    /** `readInputRegisters`: refused while disconnected, else the driver's answer. */
    method ReadInputRegisters(address: Option<int>, length: nat, device: Result<seq<word>>)
      returns (r: Result<seq<word>>)
      modifies this
      ensures connected == old(connected) && unitId == old(unitId) && driverTimeout == old(driverTimeout)
      ensures !connected ==> r == Err(NotConnected) && sent == old(sent)
      ensures connected ==> r == Fetch(device, length) && sent == old(sent) + [ReadInput(address, length)]
    {
      if !connected {
        return Err(NotConnected);
      }
      sent := sent + [ReadInput(address, length)];
      r := Fetch(device, length);
    }

    /** `readCoils`: refused while disconnected, else the driver's answer. */
    method ReadCoils(address: Option<int>, length: nat, device: Result<seq<bool>>)
      returns (r: Result<seq<bool>>)
      modifies this
      ensures connected == old(connected) && unitId == old(unitId) && driverTimeout == old(driverTimeout)
      ensures !connected ==> r == Err(NotConnected) && sent == old(sent)
      ensures connected ==> r == Fetch(device, length) && sent == old(sent) + [ReadCoilBits(address, length)]
    {
      if !connected {
        return Err(NotConnected);
      }
      sent := sent + [ReadCoilBits(address, length)];
      r := Fetch(device, length);
    }

    /** `readDiscreteInputs`: refused while disconnected, else the driver's answer. */
    method ReadDiscreteInputs(address: Option<int>, length: nat, device: Result<seq<bool>>)
      returns (r: Result<seq<bool>>)
      modifies this
      ensures connected == old(connected) && unitId == old(unitId) && driverTimeout == old(driverTimeout)
      ensures !connected ==> r == Err(NotConnected) && sent == old(sent)
      ensures connected ==> r == Fetch(device, length) && sent == old(sent) + [ReadDiscrete(address, length)]
    {
      if !connected {
        return Err(NotConnected);
      }
      sent := sent + [ReadDiscrete(address, length)];
      r := Fetch(device, length);
    }

    /** `writeRegister`: refused while disconnected, else true once the driver accepts. */
    method WriteRegister(address: Option<int>, value: int, writeOk: bool) returns (r: Result<bool>)
      modifies this
      ensures connected == old(connected) && unitId == old(unitId) && driverTimeout == old(driverTimeout)
      ensures !connected ==> r == Err(NotConnected) && sent == old(sent)
      ensures connected ==> r == (if writeOk then Ok(true) else Err(TransportError))
      ensures connected ==> sent == old(sent) + [WriteOneRegister(address, value)]
    {
      if !connected {
        return Err(NotConnected);
      }
      sent := sent + [WriteOneRegister(address, value)];
      r := if writeOk then Ok(true) else Err(TransportError);
    }

    /** `writeCoil`: refused while disconnected, else true once the driver accepts. */
    method WriteCoil(address: Option<int>, on: bool, writeOk: bool) returns (r: Result<bool>)
      modifies this
      ensures connected == old(connected) && unitId == old(unitId) && driverTimeout == old(driverTimeout)
      ensures !connected ==> r == Err(NotConnected) && sent == old(sent)
      ensures connected ==> r == (if writeOk then Ok(true) else Err(TransportError))
      ensures connected ==> sent == old(sent) + [WriteOneCoil(address, on)]
    {
      if !connected {
        return Err(NotConnected);
      }
      sent := sent + [WriteOneCoil(address, on)];
      r := if writeOk then Ok(true) else Err(TransportError);
    }
  }
}
