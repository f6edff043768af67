# Device polling engine of the industrial gateway, in Dafny

This project models the part of the gateway that talks to PLCs and turns their registers into
stored, alarmed and displayed values:

- the three protocol clients:
  - Modbus (`modbus-serial`), a `connected` flag gating six driver calls;
  - Siemens S7 (`node-snap7`), data-block reads and writes and the typed decoding of a byte
    buffer;
  - Omron FINS, the 34-byte command frame, the memory-area codes, the send / wait / parse cycle
    and the response parser.
- the device manager: a registry of connected devices and their clients, which chooses a client
  by protocol name, splits point addresses, decodes registers, applies scale and offset, and
  encodes values for writes;
- the data collector: the start/stop flag with its timer, and the collection pass. The pass
  polls every enabled point of every enabled device, appends the sample to the history table
  (with the 90-day retention sweep), checks it against the point's thresholds in the alarm
  table, and emits it;
- the front end's store: the newest-first alarm list capped at 100, and the real-time map keyed
  by device and point, with its active-alarm count;
- the front end's choice of start-up locale.

Stateful code is modelled as classes:
- `ModbusClient`, `SiemensClient` and `OmronClient`;
- `DeviceManager`, whose `devices` and `connections` maps are fields;
- `DataCollector`, whose history table, alarm table and event log are sequences held as fields;
- `AppStore`.

Each method is proved against a pure specification function:
- `ReadSpec` and `WriteSpec` for the device manager;
- `Pass` for a collection pass;
- `CheckAlarm` for the alarm evaluation;
- `Fins` and `ResponseWords` for the Omron frame and its parser;
- `DeviceEntries` for the store's device query.

Lemmas about those functions then state what the system promises:
- the alarm table never holds two active alarms for one point and type;
- only good readings reach the history table;
- the parsers invert their encoders;
- the registry invariant holds across connect and disconnect.

Each protocol client keeps a ghost log, `sent`, of the requests it hands to its driver or
transport. The device manager's reads and writes state which request they add
(`AfterRead`, `AfterWrite`): the table, block or area, the address, the count and the value.

What the field devices, the transports, the database and the clock answer is a parameter:
- `Link` for one device operation;
- `Field` for one pass;
- `now` for the clock.

Files:
- `wrappers.dfy`, `numbers.dfy`, `bytes.dfy`, `text.dfy`: the JavaScript semantics the code leans
  on:
  - `||` defaults;
  - NaN and infinities;
  - Node `Buffer` reads and writes with their range errors;
  - `toLowerCase`, `includes`, `split` and `parseInt`.
- `records.dfy`: the device and data-point rows, raw readings and samples.
- `modbus_client.dfy`, `siemens_client.dfy`, `omron_client.dfy`: the protocol clients.
- `codec.dfy`: the pure part of the device manager.
- `devices.dfy`: the device manager.
- `alarms.dfy`: the alarm evaluation.
- `data_collector.dfy`: the collector.
- `app_store.dfy`: the front-end store.
- `locale.dfy`: the locale choice.

Where the code and its description differ, the model follows the code:
- An Omron write sends one byte per item after the frame (`Buffer.from(data)`), not one word.
- The `value` column of `history_data` is `REAL NOT NULL`, so a quality-0 sample, whose value
  is null, is never stored. A NaN value is not stored either, and the insert error is swallowed.
- Only `dword` asks Modbus for two registers. `int32`, `uint32` and `float` points read a single
  register, so their 4-byte decode always fails and they always yield quality 0
  (`WideModbusPointReadsBad`).
- A failed data-points query aborts the whole pass rather than skipping the device.
- A Siemens BOOL or BYTE point cannot be written: a 16-bit store into a 1-byte buffer. A DWORD
  write lands in the high word.
- A device whose protocol starts with `modbus` but is none of the three Modbus names never gets
  a client, so it never reaches the `modbus` branch of a read.

## Model

| member | source | states |
|---|---|---|
| Codec.SelectClient | backend/src/services/deviceManager.js:29-46 | Modbus exactly for the three lower-cased `modbus_*` names, with the link type after the prefix; Siemens iff `siemens`/`s7`; Omron iff `omron`/`fins`; otherwise "Unsupported protocol" naming the lower-cased protocol |
| Codec.ClientTimeout | backend/src/services/deviceManager.js:26 | the device timeout unless missing or 0, then 3000 ms; never 0 |
| Codec.SiemensDataSize | backend/src/services/deviceManager.js:177-188 | 1 byte iff BOOL/BYTE, 4 iff DINT/DWORD/REAL, 2 for everything else |
| Codec.WideTypesReadHoldingRegisters | backend/src/services/deviceManager.js:128-138 | `int32`, `uint32`, `float` and `dword` contain no table name, so they are read from holding registers |
| Codec.ModbusRegisterCount | backend/src/services/deviceManager.js:135-137 | two registers exactly for `dword`, otherwise one |
| Codec.ParseModbusValue | backend/src/services/deviceManager.js:143-164 | per lower-cased type: int16/uint16 decode the first register and fail with RangeError on no data; int32/dword/uint32/float decode the first two registers, high word first, and fail with fewer than two; other types give the first register or `undefined` |
| Codec.ModbusInt32RoundTrip | backend/src/services/deviceManager.js:143-156 | decoding the two registers holding any signed 32-bit value as `int32` gives the value back |
| Codec.ModbusInt16RoundTrip | backend/src/services/deviceManager.js:143-151 | decoding the two's-complement register of any signed 16-bit value as `int16` gives it back |
| Codec.ModbusWordOrderExample | backend/src/services/deviceManager.js:143-156 | registers 0x0001, 0x0002 read as `int32` are 65538 (high word first) |
| Codec.SingleRegisterWideReadFails | backend/src/services/deviceManager.js:134-160 | an `int32`/`uint32`/`float` point requests one register, and decoding one register as those types is a RangeError |
| Codec.Scale | backend/src/services/deviceManager.js:106 | `scale \|\| 1.0`: a missing or zero scale is 1, otherwise the scale; never 0 |
| Codec.Offset | backend/src/services/deviceManager.js:106 | `offset \|\| 0.0`: a missing offset is 0 |
| Codec.ScaledValue | backend/src/services/deviceManager.js:106 | NaN iff the raw value is NaN/undefined, finite iff it is finite, and undoing scale and offset gives the raw number back |
| Codec.ZeroScaleIsIdentity | backend/src/services/deviceManager.js:106 | a zero scale gives the same value as no scale; with neither scale nor offset a number passes through unchanged, with an offset only it is shifted by it |
| Codec.SampleOf | backend/src/services/deviceManager.js:105-120 | quality 1 with the scaled value iff the protocol read returned, else null at quality 0; well formed, stamped `now` |
| Codec.ModbusWriteRequest | backend/src/services/deviceManager.js:225-234 | a coil write iff the lower-cased type mentions `coil`, switched on iff value ≠ 0; otherwise a register write of the value; both at `parseInt(address)` |
| Codec.SiemensWriteBuffer | backend/src/services/deviceManager.js:236-258 | a buffer of the type's size; INT and DINT succeed exactly in their signed ranges, REAL always with the float's bits; other 2-byte-or-more types store an unsigned 16-bit value, valid iff 0 ≤ v < 65536; errors are RangeError |
| Codec.SiemensNarrowWriteFails | backend/src/services/deviceManager.js:241-255 | BOOL and BYTE writes always fail with RangeError |
| Codec.SiemensDWordWriteLandsHigh | backend/src/services/deviceManager.js:241-255 | a DWORD write of v reads back as v·65536 |
| Codec.SiemensAddressRoundTrip | backend/src/services/deviceManager.js:166-170 | the address `DB<n>.<off>` parses back to n and off |
| Codec.OmronAddressRoundTrip | backend/src/services/deviceManager.js:190-193 | the address `<area><n>`, with no digit in the area, splits back into the area and n |
| ModbusProtocol.Fetch | backend/src/protocols/modbus/modbusClient.js:63-74 | a driver read succeeds iff the far end answers with at least `length` items, and then returns exactly the first `length` |
| ModbusProtocol.ModbusClient.constructor | backend/src/protocols/modbus/modbusClient.js:4-10 | keeps the link type, unit id and timeout; starts disconnected with no driver call made |
| ModbusProtocol.ModbusClient.Connect | backend/src/protocols/modbus/modbusClient.js:12-53 | unknown link type: "Unsupported Modbus type"; a failing link: the transport error; otherwise connected with unit id `slaveId \|\| 1` and timeout `timeout \|\| 3000`; `connected` iff success; no read or write call is made |
| ModbusProtocol.ModbusClient.Disconnect | backend/src/protocols/modbus/modbusClient.js:55-61 | afterwards disconnected; the driver settings and the call log untouched |
| ModbusProtocol.ModbusClient.ReadHoldingRegisters | backend/src/protocols/modbus/modbusClient.js:63-74 | "not connected" with no driver call while disconnected; else one holding-register read at the given address and length is handed to the driver, and its answer returned |
| ModbusProtocol.ModbusClient.ReadInputRegisters | backend/src/protocols/modbus/modbusClient.js:76-87 | "not connected" with no driver call while disconnected; else one input-register read at the given address and length is handed to the driver, and its answer returned |
| ModbusProtocol.ModbusClient.ReadCoils | backend/src/protocols/modbus/modbusClient.js:89-100 | "not connected" with no driver call while disconnected; else one coil read at the given address and length is handed to the driver, and its answer returned |
| ModbusProtocol.ModbusClient.ReadDiscreteInputs | backend/src/protocols/modbus/modbusClient.js:102-113 | "not connected" with no driver call while disconnected; else one discrete-input read at the given address and length is handed to the driver, and its answer returned |
| ModbusProtocol.ModbusClient.WriteRegister | backend/src/protocols/modbus/modbusClient.js:115-126 | "not connected" with no driver call while disconnected; else one register write of the value at the address, true iff the driver accepts |
| ModbusProtocol.ModbusClient.WriteCoil | backend/src/protocols/modbus/modbusClient.js:128-139 | "not connected" with no driver call while disconnected; else one coil write of the state at the address, true iff the driver accepts |
| SiemensProtocol.Fill | backend/src/protocols/siemens/siemensClient.js:60-68 | a read into a fresh buffer of `size` bytes succeeds iff the far end holds that many, and returns exactly those bytes |
| SiemensProtocol.ParseValue | backend/src/protocols/siemens/siemensClient.js:114-133 | BOOL is bit 0 of the byte (false past the end); BYTE/INT/WORD/DINT/DWORD/REAL decode big-endian and fail with RangeError exactly when the bytes run out; other types give the byte or `undefined` |
| SiemensProtocol.SiemensClient.constructor | backend/src/protocols/siemens/siemensClient.js:11-18 | keeps host, rack and slot; starts disconnected with nothing sent |
| SiemensProtocol.SiemensClient.Connect | backend/src/protocols/siemens/siemensClient.js:20-42 | asks the driver for the host with rack `rack \|\| 0` and slot `slot \|\| 1`; connected iff the driver succeeds |
| SiemensProtocol.SiemensClient.Disconnect | backend/src/protocols/siemens/siemensClient.js:44-53 | a driver disconnect only when connected; afterwards disconnected |
| SiemensProtocol.SiemensClient.ReadDB | backend/src/protocols/siemens/siemensClient.js:55-73 | "not connected" with nothing sent while disconnected; else one DB read request and exactly `size` bytes or the driver error |
| SiemensProtocol.SiemensClient.WriteDB | backend/src/protocols/siemens/siemensClient.js:75-92 | "not connected" while disconnected; else the whole buffer with its length handed to the driver, true iff it accepts |
| SiemensProtocol.SiemensClient.ReadArea | backend/src/protocols/siemens/siemensClient.js:94-112 | as ReadDB, for an area read of `amount` bytes |
| OmronProtocol.AreaCode | backend/src/protocols/omron/omronClient.js:116-126 | one of the six codes; 0x82 (DM) exactly for DM and unknown names |
| OmronProtocol.AreaCodeInjective | backend/src/protocols/omron/omronClient.js:116-126 | the six named areas get six distinct codes |
| OmronProtocol.FinsFrame | backend/src/protocols/omron/omronClient.js:85-114 | 34 bytes: `FINS`, command 01 01 (read) or 01 02 (write), the area code, then address and count big-endian at 13 and 15, zero elsewhere |
| OmronProtocol.Fins | backend/src/protocols/omron/omronClient.js:85-114 | a frame iff address (NaN as 0) and count fit in 16 bits, else RangeError |
| OmronProtocol.DM100Frame | backend/src/protocols/omron/omronClient.js:85-114 | the frame reading one word at DM100 |
| OmronProtocol.Words | backend/src/protocols/omron/omronClient.js:208-212 | one big-endian word per complete byte pair |
| OmronProtocol.Payload | backend/src/protocols/omron/omronClient.js:154 | one byte per data item, its low byte |
| OmronProtocol.Reply | backend/src/protocols/omron/omronClient.js:168-198 | a reply iff the frame was built, a transport exists, it took the frame and bytes arrived before the timeout; the reply is those bytes |
| OmronProtocol.ResponseWords | backend/src/protocols/omron/omronClient.js:200-215 | "Invalid response" iff shorter than 14 bytes; else ⌊(n−14)/2⌋ words, the k-th big-endian at 14+2k |
| OmronProtocol.ResponseRoundTrip | backend/src/protocols/omron/omronClient.js:200-215 | a 14-byte header followed by the bytes of some words, and at most one stray byte, parses back to those words |
| OmronProtocol.ReadOutcome | backend/src/protocols/omron/omronClient.js:128-145 | a read yields words iff a reply came and it holds the 14-byte header; the reply's failure otherwise, in its order; the words are `ResponseWords` of the reply |
| OmronProtocol.WriteOutcome | backend/src/protocols/omron/omronClient.js:147-166 | a write succeeds, with `true`, iff a reply came; otherwise the reply's failure |
| OmronProtocol.WriteFrameLayout | backend/src/protocols/omron/omronClient.js:147-155 | a write frame is the 34-byte header with code 02 counting the items, then one byte per item |
| OmronProtocol.OmronClient.constructor | backend/src/protocols/omron/omronClient.js:6-12 | no transport, disconnected, empty receive buffer |
| OmronProtocol.OmronClient.Connect | backend/src/protocols/omron/omronClient.js:14-29 | tcp/serial create a transport and connect iff it opens; other link types create none and report connected |
| OmronProtocol.OmronClient.Disconnect | backend/src/protocols/omron/omronClient.js:73-83 | disconnects only when there is a transport; a client without one stays connected |
| OmronProtocol.OmronClient.BuildFinsCommand | backend/src/protocols/omron/omronClient.js:85-114 | the array filled field by field equals `Fins` |
| OmronProtocol.OmronClient.ParseResponse | backend/src/protocols/omron/omronClient.js:200-215 | the loop's result equals `ResponseWords` |
| OmronProtocol.OmronClient.SendAndWait | backend/src/protocols/omron/omronClient.js:135-138 | equals `Reply`; the receive buffer is emptied before sending and then holds what arrived; the accepted frame is logged |
| OmronProtocol.OmronClient.ReadMemoryArea | backend/src/protocols/omron/omronClient.js:128-145 | "not connected" while disconnected; a frame RangeError leaves the receive buffer and the log untouched; else the read frame exchanged and logged, the reply parsed into words (`ReadOutcome`) |
| OmronProtocol.OmronClient.WriteMemoryArea | backend/src/protocols/omron/omronClient.js:147-166 | "not connected" while disconnected; a frame RangeError leaves the receive buffer and the log untouched; else the write frame plus payload exchanged and logged; any reply is success (`WriteOutcome`) |
| Devices.ConnectOutcome | backend/src/services/deviceManager.js:49-68 | an unsupported protocol fails with its error; a Modbus device connects iff its link type is known and the link opens; a Siemens device iff `node-snap7` is installed and the link opens (DriverMissing otherwise); an Omron device iff it has no transport or the link opens; a failing link is the transport error |
| Devices.ModbusReadRequest | backend/src/services/deviceManager.js:123-139 | the read `readModbusPoint` asks for: coils iff the lower-cased type mentions `coil`, else discrete inputs iff `discrete`, else input registers iff `input`, else holding registers; one bit, or the type's register count; at `parseInt(address)` |
| Devices.ConnectClient | backend/src/services/deviceManager.js:56-57 | the client's `connect` yields `ConnectOutcome`, after which it is connected and fits the device |
| Devices.ReadSpec | backend/src/services/deviceManager.js:85-121 | "not connected" iff the id is not registered; else a well-formed sample stamped `now`, quality 1 iff the protocol read succeeds |
| Devices.SiemensWrite | backend/src/services/deviceManager.js:236-258 | an encoding RangeError before the driver is reached, else the driver's answer |
| Devices.WriteSpec | backend/src/services/deviceManager.js:199-223 | "not connected" for an unregistered id; a Modbus write succeeds iff the driver accepts; a Siemens write iff the value encodes and the driver accepts, RangeError first; an Omron write iff its one-item frame gets a reply, failing as the reply fails; any other protocol returns `true` |
| Devices.WideModbusPointReadsBad | backend/src/services/deviceManager.js:123-164 | on a Modbus device an `int32`/`uint32`/`float` point always reads null at quality 0 |
| Devices.DWordPointReadsTwoRegisters | backend/src/services/deviceManager.js:134-156 | a `dword` point reads two registers as a signed 32-bit value, then scales it |
| Devices.CoilPointReadsBit | backend/src/services/deviceManager.js:128-130 | a coil point reads 1 when the coil is on and 0 when it is off, then scales it |
| Devices.SiemensReadSizeFits | backend/src/services/deviceManager.js:166-188 | the requested size always covers the decoder, so a Siemens point fails exactly when the driver read fails |
| Devices.SiemensWriteReadBack | backend/src/services/deviceManager.js:236-258 | an INT or DINT value written and read back from the same block is the value |
| Devices.OmronPointReadsWord | backend/src/services/deviceManager.js:190-197 | an Omron point whose device replies with a header and one word reads that word |
| Devices.ProtocolSelectsClient | backend/src/services/deviceManager.js:97-102 | the protocol test of a read or write picks the client variant `createClient` built for the device |
| Devices.DeviceManager.constructor | backend/src/services/deviceManager.js:7-10 | both maps empty; the registry invariant holds |
| Devices.DeviceManager.CreateClient | backend/src/services/deviceManager.js:12-47 | a fresh, disconnected client of the selected variant with the device's settings, or the protocol's error; Siemens fails when `node-snap7` is missing |
| Devices.DeviceManager.ConnectDevice | backend/src/services/deviceManager.js:49-68 | a registered id returns its client with nothing changed; else success iff `ConnectOutcome` succeeds, registering device and fresh client; a failure leaves both maps unchanged; the invariant is kept |
| Devices.DeviceManager.DisconnectDevice | backend/src/services/deviceManager.js:70-83 | the id leaves both maps; its client is disconnected, except an Omron client without a transport; the invariant is kept |
| Devices.DeviceManager.DisconnectAll | backend/src/services/deviceManager.js:277-283 | every registered client is left as `disconnectDevice` leaves it (disconnected, except an Omron client without a transport); the registry ends empty; the invariant is kept |
| Devices.DeviceManager.DisconnectNext | backend/src/services/deviceManager.js:279-281 | one registered device is disconnected and unregistered; clients released earlier stay released |
| Devices.DeviceManager.IsDeviceConnected | backend/src/services/deviceManager.js:272-275 | true exactly for registered ids |
| Devices.DeviceManager.ReadDataPoint | backend/src/services/deviceManager.js:85-121 | equals `ReadSpec` on the registry; the client's log grows by the read `AfterRead` names; the invariant is kept |
| Devices.DeviceManager.ReadModbusPoint | backend/src/services/deviceManager.js:123-141 | the value `ModbusRead` gives, after handing the driver exactly `ModbusReadRequest` of the point |
| Devices.DeviceManager.ReadSiemensPoint | backend/src/services/deviceManager.js:166-175 | the type's size read from the parsed block and offset (one logged DB read) and decoded at offset 0, as `SiemensRead` |
| Devices.DeviceManager.ReadOmronPoint | backend/src/services/deviceManager.js:190-197 | the first word of a one-item read, as `OmronRead`; the read frame for the parsed area and address is what the transport gets |
| Devices.DeviceManager.WriteDataPoint | backend/src/services/deviceManager.js:199-223 | equals `WriteSpec`; the client's log grows by the write `AfterWrite` names; the invariant is kept |
| Devices.DeviceManager.WriteThrough | backend/src/services/deviceManager.js:208-218 | the protocol branch of a write on a connected client that fits its device: `ProtocolWrite`, the write `AfterWrite` names logged, the client still connected and fitting |
| Devices.DeviceManager.WriteModbusPoint | backend/src/services/deviceManager.js:225-234 | the driver gets exactly the coil or register write `ModbusWriteRequest` chooses (`value !== 0` for a coil, `parseInt(address)`); true iff it accepts |
| Devices.DeviceManager.WriteSiemensPoint | backend/src/services/deviceManager.js:236-258 | a RangeError with nothing sent, or one DB write of the encoded buffer |
| Devices.DeviceManager.WriteOmronPoint | backend/src/services/deviceManager.js:260-266 | the transport gets the write frame for one item at the parsed area and address followed by the value's byte, when the frame builds and the transport takes it; the outcome is `OmronWrite` |
| Alarms.Classify | backend/src/services/dataCollector.js:114-123 | HIGH iff strictly above the high threshold; LOW iff not HIGH and strictly below the low threshold; with that threshold |
| Alarms.ClassifyEdges | backend/src/services/dataCollector.js:117-123 | NaN crosses nothing; a value equal to a threshold does not cross it |
| Alarms.HighWins | backend/src/services/dataCollector.js:117-123 | a value above high and below low is HIGH |
| Alarms.ClearActiveSpec | backend/src/services/dataCollector.js:153-159 | no active alarm of the point is left; every other row is unchanged, none added or removed |
| Alarms.CheckAlarm | backend/src/services/dataCollector.js:109-160 | nothing when alarms are off or the value is null; a crossing inserts an active WARNING row and fires an event iff none is active for that point and type; a normal value clears all the point's active rows; a store failure changes nothing |
| Alarms.CheckAlarmKeepsInvariant | backend/src/services/dataCollector.js:125-159 | every check keeps at most one active alarm per point and type |
| Alarms.Feed | backend/src/services/dataCollector.js:109-160 | any sequence of checks keeps that invariant |
| Alarms.RepeatedCrossingRaisesOnce | backend/src/services/dataCollector.js:109-159 | readings 50, 150, 160 against a high threshold of 100 raise one alarm, at 150; a further 90 clears it |
| Alarms.HighSurvivesDropBelowLow | backend/src/services/dataCollector.js:117-159 | a drop from HIGH straight below the low threshold leaves the HIGH alarm active beside a new LOW one |
| Collector.Cutoff | backend/src/services/dataCollector.js:162-170 | the retention cutoff lies before now |
| Collector.KeepRecent | backend/src/services/dataCollector.js:167-170 | every row not older than the cutoff survives as many times as it was stored, every older one goes |
| Collector.RetentionBoundary | backend/src/services/dataCollector.js:162-170 | the window is exactly 90 days: a row stamped 7 776 000 000 ms before now survives the sweep with all its copies, one stamped a millisecond earlier is removed |
| Collector.KeepRecentAppend | backend/src/services/dataCollector.js:167-170 | the sweep of a concatenation is the concatenation of the sweeps, so kept rows keep their order |
| Collector.KeepRecentIdempotent | backend/src/services/dataCollector.js:162-178 | sweeping twice is sweeping once; nothing old means nothing removed |
| Collector.SaveHistory | backend/src/services/dataCollector.js:95-107 | an unstorable sample (null or NaN, `backend/src/models/database.js` line 85) or a failed insert changes nothing; else the row is appended and, if the sweep runs, the result is the swept old history followed by the new row when it is recent |
| Collector.SaveHistoryOnlyGood | backend/src/models/database.js:81-90 | only quality-1, non-NaN rows are ever stored |
| Collector.PointStepSound | backend/src/services/dataCollector.js:66-88 | one point keeps the tables sound and the registry unchanged |
| Collector.PointsPassSound | backend/src/services/dataCollector.js:66-88 | so do all the points of a device |
| Collector.DevicesPassSound | backend/src/services/dataCollector.js:41-93 | a whole pass keeps the tables sound and never removes a registered device |
| Collector.SkippedDevice | backend/src/services/dataCollector.js:50-56 | a device that fails to connect contributes nothing; the pass goes on |
| Collector.PointAnnounced | backend/src/services/dataCollector.js:68-83 | a point whose alarm check succeeds stores first, then emits its sample last, even at quality 0 |
| Collector.DataCollector.constructor | backend/src/services/dataCollector.js:8-12 | not running, no timer, empty tables |
| Collector.DataCollector.Start | backend/src/services/dataCollector.js:14-30 | a no-op while running; else running, timer armed, and one pass done |
| Collector.DataCollector.Stop | backend/src/services/dataCollector.js:32-39 | not running, timer disarmed, tables untouched |
| Collector.DataCollector.SaveHistoryData | backend/src/services/dataCollector.js:95-107 | the history becomes `SaveHistory` of the old one |
| Collector.DataCollector.CleanOldData | backend/src/services/dataCollector.js:162-178 | a sweep keeps the recent rows; a failing one changes nothing |
| Collector.DataCollector.CheckAlarmFor | backend/src/services/dataCollector.js:109-160 | applies `CheckAlarm` to the alarm table and emits its event |
| Collector.DataCollector.CollectData | backend/src/services/dataCollector.js:41-93 | the new tables are `Pass` of the old ones; the invariants are kept |
| Collector.DataCollector.CollectDevice | backend/src/services/dataCollector.js:48-89 | one device of the pass, as `DeviceStep` |
| Collector.DataCollector.CollectPoints | backend/src/services/dataCollector.js:66-88 | the points of one device in order, as `PointsPass`; the registry is untouched |
| Collector.DataCollector.CollectPoint | backend/src/services/dataCollector.js:66-88 | one point of the pass, as `PointStep` |
| Collector.DataCollector.Record | backend/src/services/dataCollector.js:70-83 | store, check, emit, as `Recorded` |
| Store.RealtimeKeyInjective | frontend/src/store/index.js:24 | different device/point pairs get different keys |
| Store.WithAlarm | frontend/src/store/index.js:29-34 | the new alarm first, then the older ones in order, at most 100 |
| Store.AddAllKeepsNewest | frontend/src/store/index.js:29-34 | after any run of alarms the list is the newest 100 seen, newest first |
| Store.CountActiveAppend | frontend/src/store/index.js:53-55 | the active count adds up over a split list |
| Store.CountActiveIsSize | frontend/src/store/index.js:53-55 | the count is the number of positions holding an `active` alarm |
| Store.AddAlarmCount | frontend/src/store/index.js:29-34 | adding an alarm raises the count by its own activity, less that of the alarm pushed off |
| Store.DeviceEntries | frontend/src/store/index.js:42-50 | an entry is listed iff some key holds it and it belongs to the device |
| Store.AppStore.constructor | frontend/src/store/index.js:9-12 | empty list and map |
| Store.AppStore.UpdateRealtimeData | frontend/src/store/index.js:23-26 | the entry replaces its key's; a new key goes last in key order |
| Store.AppStore.AddAlarm | frontend/src/store/index.js:29-34 | the list becomes `WithAlarm` of the old one |
| Store.AppStore.GetDeviceRealtimeData | frontend/src/store/index.js:42-50 | the device's entries in key order, and exactly the stored entries of the device |
| Store.AppStore.ActiveAlarmCount | frontend/src/store/index.js:53-55 | the number of alarms whose status is `active`; zero iff none is |
| Locale.GetDefaultLocale | frontend/src/i18n/index.js:7-25 | a non-empty saved locale wins; else the browser language decides; a TypeError when neither language property is set; any locale picked from the browser is `FromLanguage` of `language` when non-empty, else of `userLanguage` |
| Locale.FromLanguage | frontend/src/i18n/index.js:14-24 | zh-TW iff `zh-TW`/`zh-HK`; en-US iff it starts with `en`; zh-CN otherwise |
| Locale.BrowserDecides | frontend/src/i18n/index.js:14-24 | without a saved locale (or with an empty one), a non-empty `language` decides, else `userLanguage`, else a TypeError; whenever either is present the result is one of the three translations |
| Locale.SavedWins | frontend/src/i18n/index.js:8-11 | a saved locale is returned as is |

## Left out

- Transports and driver libraries (`net`, `serialport`, `modbus-serial`, `node-snap7`) are not
  modelled. What they answer is a parameter (`Link`, and the `linkOk`, `writeOk` and `device`
  arguments).
- Transport settings (ports, serial line parameters) are not modelled: they only reach the
  drivers.
- Socket `close` events are not modelled.
- Asynchrony is left out. `setInterval` is a `timerArmed` flag, and timer-driven passes are
  calls of `CollectData`. The period (`DATA_COLLECTION_INTERVAL`, 5000 ms by default) is
  therefore not modelled. Passes are not modelled overlapping, nor is `Promise.all` running
  disconnects concurrently in `disconnectAll`.
- Omron's 50 ms polling is left out: `received` is what the buffer holds when it is first
  non-empty.
- The clock and ISO timestamps are left out. Time is an integer `now` in milliseconds, and a
  pass uses one `now` for its samples and its retention sweeps.
- The local-date arithmetic of the retention cutoff (`setDate`, daylight saving) is not
  modelled. The cutoff is `now` minus 90 whole days.
- Logging, the text of alarm messages and the `EventEmitter` are left out. Emitted events are
  appended to an event list.
- SQL is not modelled. Each table is a sequence of rows, and whether a statement succeeds is a
  parameter. Alarm rows keep no id, ack time or user. Acknowledgement (`acknowledged`) happens
  outside the collector and is only a status value.
- Floating point is not modelled. Scaling uses exact reals, and a float32 read or write is
  abstracted by `Float32Value` / `Float32Bits`.
- Write values are integers: non-integer JavaScript numbers are not modelled.
- `toLowerCase` is ASCII-only.
- Lookups that would hit `Object.prototype` keys (`constructor`, `toString`) in the size and
  area-code tables are not modelled.
- `getConnection`, `setDevices` and `setWsConnected` are trivial getters and setters of state
  nothing else in the model reads, and are left out.
- Devices.DeviceManager.DisconnectAll: disconnects the devices one at a time in an arbitrary
  key order, not all at once in the `Map`'s insertion order.
- A driver `disconnect` that throws is not modelled: `disconnectDevice` would then keep the
  device registered.
- The REST controllers, the WebSocket server and the Vue components are not part of this model.
