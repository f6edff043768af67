/** The Siemens S7 client (backend/src/protocols/siemens/siemensClient.js): a `connected` flag
    that gates the three data-block and area calls, and the typed decoding of a byte buffer. The
    `node-snap7` driver is a parameter; the requests handed to it are recorded in `sent`. */
module SiemensProtocol {
  import opened Wrappers
  import opened Numbers
  import opened Bytes
  import opened Records

  /** A request handed to the S7 driver. */
  datatype S7Request =
    | ConnectTo(host: string, rack: int, slot: int)
    | DBRead(db: Option<int>, start: Option<int>, size: nat)
    | DBWrite(db: Option<int>, start: Option<int>, amount: nat, data: seq<byte>)
    | ReadArea(area: int, db: Option<int>, start: Option<int>, amount: nat, wordLen: int)
    | Disconnect

  const NotConnected := ClientNotConnected("Siemens S7")

  /** What a driver read into a fresh buffer of `size` bytes yields: the `size` bytes found from
      the start address on, or an error when the far end fails or the area is shorter. */
  function Fill(device: Result<seq<byte>>, size: nat): (r: Result<seq<byte>>)
    ensures r.Ok? <==> device.Ok? && |device.value| >= size
    ensures r.Ok? ==> |r.value| == size && r.value == device.value[..size]
  {
    match device
    case Err(e) => Err(e)
    case Ok(bytes) => if |bytes| >= size then Ok(bytes[..size]) else Err(TransportError)
  }

  /** `parseValue`: the value of type `dataType` (case-sensitive) stored at `offset`. BOOL is bit
      0 of the byte there (false past the end, where the byte is `undefined`); the integer types
      are big-endian and raise RangeError past the end; an unknown type is the byte there, or
      `undefined` past the end. */
  function ParseValue(buffer: seq<byte>, offset: nat, dataType: string): (r: Result<Raw>)
    ensures dataType == "BOOL" ==> r == Ok(Bool(offset < |buffer| && buffer[offset] % 2 == 1))
    ensures dataType == "BYTE" ==> (r.Ok? <==> offset < |buffer|)
    ensures dataType == "BYTE" && r.Ok? ==> r.value == Int(buffer[offset])
    ensures dataType in {"INT", "WORD"} ==> (r.Ok? <==> offset + 2 <= |buffer|)
    ensures dataType == "INT" && r.Ok? ==> r.value == Int(Signed16(BE16(buffer, offset)))
    ensures dataType == "WORD" && r.Ok? ==> r.value == Int(BE16(buffer, offset))
    ensures dataType in {"DINT", "DWORD", "REAL"} ==> (r.Ok? <==> offset + 4 <= |buffer|)
    ensures dataType == "DINT" && r.Ok? ==> r.value == Int(Signed32(BE32(buffer, offset)))
    ensures dataType == "DWORD" && r.Ok? ==> r.value == Int(BE32(buffer, offset))
    ensures dataType == "REAL" && r.Ok? ==> r.value == Float(Float32Value(BE32(buffer, offset)))
    ensures dataType !in {"BOOL", "BYTE", "INT", "WORD", "DINT", "DWORD", "REAL"} ==>
      r == Ok(if offset < |buffer| then Int(buffer[offset]) else Undefined)
    ensures r.Err? ==> r.error == RangeError
  {
    if dataType == "BOOL" then Ok(Bool(offset < |buffer| && buffer[offset] % 2 == 1))
    else if dataType == "BYTE" then Lift(ReadUInt8(buffer, offset))
    else if dataType == "INT" then Lift(ReadInt16BE(buffer, offset))
    else if dataType == "DINT" then Lift(ReadInt32BE(buffer, offset))
    else if dataType == "REAL" then
      match ReadFloatBE(buffer, offset)
      case Ok(v) => Ok(Float(v))
      case Err(e) => Err(e)
    else if dataType == "WORD" then Lift(ReadUInt16BE(buffer, offset))
    else if dataType == "DWORD" then Lift(ReadUInt32BE(buffer, offset))
    else Ok(if offset < |buffer| then Int(buffer[offset]) else Undefined)
  }

  function Lift(r: Result<int>): Result<Raw>
  {
    match r
    case Ok(v) => Ok(Int(v))
    case Err(e) => Err(e)
  }

  class SiemensClient {
    const host: string
    const rack: Option<int>
    const slot: Option<int>
    var connected: bool
    ghost var sent: seq<S7Request>

    constructor(host: string, rack: Option<int>, slot: Option<int>)
      ensures this.host == host && this.rack == rack && this.slot == slot
      ensures !connected && sent == []
    {
      this.host := host;
      this.rack := rack;
      this.slot := slot;
      connected := false;
      sent := [];
    }

    /** `connect`: asks the driver for the host with rack `rack || 0` and slot `slot || 1`;
        `connected` becomes true exactly when the driver succeeds. */
    method Connect(linkOk: bool) returns (r: Result<bool>)
      modifies this
      ensures sent == old(sent) + [ConnectTo(host, OrDefault(rack, 0), OrDefault(slot, 1))]
      ensures connected == linkOk
      ensures r == if linkOk then Ok(true) else Err(TransportError)
    {
      var rackNo := OrDefault(rack, 0);
      var slotNo := OrDefault(slot, 1);
      sent := sent + [ConnectTo(host, rackNo, slotNo)];
      if linkOk {
        connected := true;
        r := Ok(true);
      } else {
        connected := false;
        r := Err(TransportError);
      }
    }

    /** `disconnect`: acts only while connected; afterwards `connected` is false. */
    method Disconnect()
      modifies this
      ensures !connected
      ensures sent == if old(connected) then old(sent) + [S7Request.Disconnect] else old(sent)
    {
      if connected {
        sent := sent + [S7Request.Disconnect];
        connected := false;
      }
    }

    /** `readDB`: refused while disconnected; else a buffer of exactly `size` bytes. */
    method ReadDB(db: Option<int>, start: Option<int>, size: nat, device: Result<seq<byte>>)
      returns (r: Result<seq<byte>>)
      modifies this
      ensures connected == old(connected)
      ensures !connected ==> r == Err(NotConnected) && sent == old(sent)
      ensures connected ==> r == Fill(device, size) && sent == old(sent) + [DBRead(db, start, size)]
      ensures r.Ok? ==> |r.value| == size
    {
      if !connected {
        return Err(NotConnected);
      }
      sent := sent + [DBRead(db, start, size)];
      r := Fill(device, size);
    }

    /** `writeDB`: refused while disconnected; else hands the whole buffer to the driver. */
    method WriteDB(db: Option<int>, start: Option<int>, buffer: seq<byte>, writeOk: bool)
      returns (r: Result<bool>)
      modifies this
      ensures connected == old(connected)
      ensures !connected ==> r == Err(NotConnected) && sent == old(sent)
      ensures connected ==> sent == old(sent) + [DBWrite(db, start, |buffer|, buffer)]
      ensures connected ==> r == if writeOk then Ok(true) else Err(TransportError)
    {
      if !connected {
        return Err(NotConnected);
      }
      sent := sent + [DBWrite(db, start, |buffer|, buffer)];
      r := if writeOk then Ok(true) else Err(TransportError);
    }

    /** `readArea`: refused while disconnected; else a buffer of exactly `amount` bytes. */
    method ReadArea(area: int, db: Option<int>, start: Option<int>, amount: nat, wordLen: int,
                    device: Result<seq<byte>>)
      returns (r: Result<seq<byte>>)
      modifies this
      ensures connected == old(connected)
      ensures !connected ==> r == Err(NotConnected) && sent == old(sent)
      ensures connected ==> r == Fill(device, amount)
      ensures connected ==> sent == old(sent) + [S7Request.ReadArea(area, db, start, amount, wordLen)]
    {
      if !connected {
        return Err(NotConnected);
      }
      sent := sent + [S7Request.ReadArea(area, db, start, amount, wordLen)];
      r := Fill(device, amount);
    }
  }
}
