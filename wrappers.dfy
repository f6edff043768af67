/** Optional values and results: the model's rendering of JavaScript's `null`/`undefined`
    and of the errors the gateway throws or its promises reject with. */
module Wrappers {

  /** `None` stands for `null`, `undefined` or a missing map entry. */
  datatype Option<+T> = None | Some(value: T)

  /** The errors the core raises. Messages that embed a name or an id keep only that part. */
  datatype Error =
    | DeviceNotConnected(deviceId: nat)       // "Device <id> not connected"
    | ClientNotConnected(client: string)      // "<Modbus|Siemens S7|Omron> client not connected"
    | UnsupportedProtocol(protocol: string)   // "Unsupported protocol: <p>"
    | UnsupportedModbusType(modbusType: string)
    | RangeError                              // a Node Buffer offset or value out of range
    | TypeError                               // a call on a null transport handle
    | InvalidResponse                         // an Omron reply shorter than its header
    | ResponseTimeout                         // no Omron reply byte within 2000 ms
    | TransportError                          // the link or the driver library failed
    | StoreError                              // the SQLite store rejected a statement
    | DriverMissing                           // node-snap7 is not installed

  /** A value or the error that replaced it. */
  datatype Result<+T> = Ok(value: T) | Err(error: Error)

  /** JavaScript's `o || d` on an optional number: null, undefined and 0 all give `d`. */
  function OrDefault(o: Option<int>, d: int): int
  {
    if o.Some? && o.value != 0 then o.value else d
  }
}
