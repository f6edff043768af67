/** The configuration rows the engine reads, the raw and scaled values it produces, and what a
    field device does during one operation. */
module Records {
  import opened Wrappers
  import opened Numbers
  import opened Bytes

  /** A row of the `devices` table, reduced to the columns the engine uses. Transport parameters
      (port, serial line settings) only reach the transport and are left out. */
  datatype Device = Device(
    id: nat,
    name: string,
    protocol: string,          // "modbus_tcp", "siemens", "omron", ... in any case
    connectionType: string,    // "tcp", "serial", ...
    host: string,
    slaveId: Option<int>,
    rack: Option<int>,
    slot: Option<int>,
    timeout: Option<int>)

  /** A row of the `data_points` table. */
  datatype DataPoint = DataPoint(
    id: nat,
    deviceId: nat,
    name: string,
    address: string,           // "40001", "DB1.4", "DM100", ...
    dataType: string,          // "int16", "dword", "INT", "REAL", "coil", ...
    scale: Option<real>,
    offset: Option<real>,
    alarmEnabled: bool,
    alarmHigh: Option<real>,
    alarmLow: Option<real>)

  /** What a protocol read hands back before scaling: a number, a JavaScript boolean
      (Siemens BOOL), a float, or `undefined` (an element read past the end of an array). */
  datatype Raw = Int(i: int) | Bool(b: bool) | Float(n: Num) | Undefined

  /** The result of `readDataPoint`: `value` is `None` (null) exactly when `quality` is 0. */
  datatype Sample = Sample(value: Option<Num>, quality: nat, timestamp: int)

  /** What the far end does during one operation. `registers`, `coils` and `memory` are the
      contents the driver library finds from the addressed location on (or its failure);
      `sendOk` says whether a frame could be handed to the transport, `received` is what the
      Omron client's receive buffer holds when its 50 ms poll first sees data (empty: the 2000 ms
      timeout fires first), and `writeOk` whether a driver-level write succeeds. */
  datatype Link = Link(
    registers: Result<seq<word>>,
    coils: Result<seq<bool>>,
    memory: Result<seq<byte>>,
    sendOk: bool,
    received: seq<byte>,
    writeOk: bool)
}
