# Modbus device driver: connection configuration and client adapter

This project models two parts of a Modbus (TCP, RTU and ASCII) device driver and proves properties about them:

- **The connection-info builder.** It turns a map from protocol name to string properties into a typed `ConnectionInfo`, or into an error. UnitID is an unsigned 8-bit number and Port an unsigned 16-bit number. BaudRate, DataBits and StopBits are integers. Parity is one of N, O, E. The builder's own source is not part of this model. Its contracts state what `internal/driver/config_test.go` checks, and they read numeric texts as Go's base-10 `strconv` parsers do. Each of the eight Go test cases is a lemma.
- **The client adapter (`internal/driver/modbusclient.go`).** This is the `ModbusClient` class. It holds a protocol name, three handler records (TCP, RTU, ASCII) and the bound transport client. The model covers which handler `OpenConnection` and `CloseConnection` use, which transport operation `GetValue` and `SetValue` issue, and how `NewDeviceClient` builds the handlers.

The transport library is foreign code. It appears only as the calls made to it: every call is appended to the client's `transcript`. What the library returns (response bytes and error) is an extra parameter of each method. The contracts say that exactly one call was recorded, with which arguments, through which handler, and that its result and error come back unchanged.

Modules:

- `Common`: `byte`, `uint16`, `Option` and `Result`.
- `Decimal`: parsing and `%d` formatting of decimal numerals.
- `Text`: `strings.Split`, `strings.Contains` and last-index search.
- `Config`: the builder.
- `ConfigTests`: the Go test cases.
- `Client`: the adapter.

Notes on how the model reads the source:

- `NewDeviceClient` never assigns `ModbusProtocol` (modbusclient.go:129-166). The model reproduces this: a freshly built client has an empty protocol name, so `OpenConnection` selects the ASCII handler whatever the descriptor says (`Client.OpenAsBuilt`). The code that assigns the name, if any, is not part of this model. `Client.OpenThenClose` shows the intended open/close round trip once a caller has assigned the name.
- A discrete-input write is issued as `WriteMultipleCoils`. An input-register write is issued as `WriteMultipleRegisters`. Those operations address the coils and the holding registers. `Client.WriteRequest` states this through `Request.Target`, which gives the data space each Modbus function code addresses.
- Which protocol wins when several entries are present is not visible in the modelled files, so `Config.CreateConnectionInfo` requires exactly one.

## Model

| member | source | states |
|---|---|---|
| `Client.SelectHandler` | internal/driver/modbusclient.go:36-48 | TCP iff the protocol name is ProtocolTCP, RTU iff it is ProtocolRTU, ASCII for every other name |
| `Client.ModbusClient.constructor` | internal/driver/modbusclient.go:130 | `new(ModbusClient)`: empty protocol name, zero handlers, no bound client, empty transcript |
| `Client.ModbusClient.OpenConnection` | internal/driver/modbusclient.go:33-51 | exactly one `Connect` is recorded, on the selected handler; the client is bound to that handler even when `Connect` fails; `Connect`'s error is returned unchanged; handlers and protocol untouched |
| `Client.ModbusClient.CloseConnection` | internal/driver/modbusclient.go:53-63 | exactly one `Close` is recorded, on the handler selected by the same three-way rule; its error is returned unchanged; nothing else changes |
| `Client.ReadRequest` | internal/driver/modbusclient.go:72-84 | a read exists iff the table name is one of the four; it is a read (never a write) of the data space the table names, at the command's starting address, for the command's length |
| `Client.ModbusClient.GetValue` | internal/driver/modbusclient.go:65-93 | a known table records exactly one read (the one `ReadRequest` gives) through the bound client and returns the library's response and error unchanged; an unknown table records nothing and returns an empty (nil) response with no error |
| `Client.WriteRequest` | internal/driver/modbusclient.go:102-119 | a write exists iff the table name is known; it starts at the command's address; it targets the coils for the bit tables (so discrete inputs are written as coils) and the holding registers for the register tables; it is a single-register write iff the table is HOLDING_REGISTERS and the length is 1, and then its value re-encodes to the first two bytes; otherwise it carries the command's length and the whole value |
| `Client.ModbusClient.SetValue` | internal/driver/modbusclient.go:95-127 | a known table records exactly one write (the one `WriteRequest` gives) and returns the library's error unchanged, discarding its result bytes; an unknown table records nothing and returns no error |
| `Client.PutOfBigEndian` | internal/driver/modbusclient.go:114 | the single-register value is the big-endian reading of the first two bytes: re-encoding it gives back exactly those two bytes |
| `Client.BigEndianOfPut` | internal/driver/modbusclient.go:114 | reading back the big-endian encoding of a register value gives the value |
| `Client.TcpAddressSplits` | internal/driver/modbusclient.go:137 | the `"%s:%d"` dial address splits at its last colon into the configured address and the port's decimal text |
| `Client.SerialDevice` | internal/driver/modbusclient.go:142-143 | the device path is a prefix of the address that holds no comma and is either the whole address or ends where the address's first comma stands |
| `Client.NewDeviceClient` | internal/driver/modbusclient.go:129-166 | never fails; the selected handler gets address `Address:Port` (TCP) or the device path (serial), the slave id copied from the unit id, idle timeout 0 and, for serial, the copied baud rate, data bits, stop bits and parity; the other two handlers keep their zero values; the protocol name stays empty and no client is bound |
| `Client.ConfiguredDialAddress` | internal/driver/modbusclient.go:137 | for a valid TCP configuration whose port text has no leading zeros, the dial address is the configured Address text, a colon and the configured Port text |
| `Client.OpenThenClose` | internal/driver/modbusclient.go:33-63 | building a client, assigning its protocol name from the descriptor, then opening and closing it records exactly one `Connect` and one `Close`, both on the handler the descriptor selects, and passes both errors back unchanged |
| `Client.OpenAsBuilt` | internal/driver/modbusclient.go:129-166 | opening a client exactly as `NewDeviceClient` returns it connects the ASCII handler, whatever the descriptor's protocol |
| `Text.Split` | internal/driver/modbusclient.go:142 | `strings.Split` with a one-character separator: at least one piece, no piece contains the separator, and joining the pieces with the separator gives back the input |
| `Decimal.FormatNat` | internal/driver/modbusclient.go:137 | `%d` of a natural number is a canonical decimal numeral (no superfluous leading zero) whose value is the number |
| `Decimal.FormatInt` | internal/driver/modbusclient.go:137 | `%d` of an integer is the one text `%d` prints: a minus sign exactly when the integer is negative, then the canonical numeral of its magnitude (no plus sign, no superfluous leading zero); it denotes the integer and holds no colon or comma |
| `Decimal.ParseFormatInt` | internal/driver/modbusclient.go:137 | parsing the `%d` text of an integer gives back the integer |
| `Decimal.FormatOfValue` | internal/driver/modbusclient.go:137 | printing the value of a canonical numeral gives back the numeral |
| `Decimal.ParseNat` | internal/driver/config_test.go:27-29 | the digits of a numeral, which `ParseInt` reads after an optional sign: succeeds iff the text is one or more decimal digits, and then yields their value |
| `Decimal.ParseInt` | internal/driver/config_test.go:27-29 | signed parsing succeeds iff the text is digits with an optional leading sign, and then yields the signed value |
| `Decimal.ParseUint` | internal/driver/config_test.go:106-125 | bounded unsigned parsing succeeds iff the text is one or more digits with a value below the limit, and yields that value; it is a range error iff the leading run of digits already reaches the limit, whatever follows; every other text is a syntax error |
| `Config.ParseUnsigned` | internal/driver/config_test.go:106-125 | an unsigned property succeeds iff it is a numeral below its width's limit (256 for UnitID, 65536 for Port), with that value; a failure is a range error exactly when the leading digits reach the limit, and a syntax error otherwise |
| `Config.ParseSigned` | internal/driver/config_test.go:39-41 | an integer property succeeds iff it is a signed numeral, with its value; a failure names the property as not a number |
| `Config.TcpConnectionInfo` | internal/driver/config_test.go:148-205 | success iff Port fits 0..65535 and UnitID fits 0..255; the result has protocol TCP, the Address unchanged and both numbers at their decimal values; every error truthfully names Port or UnitID and what is wrong with it |
| `Config.SerialConnectionInfo` | internal/driver/config_test.go:16-146 | success iff UnitID fits 0..255, BaudRate, DataBits and StopBits are integers, and Parity is N, O or E; the result reproduces every field; every error truthfully names the property at fault, and a parity error carries the fixed parity message |
| `Config.CreateConnectionInfo` | internal/driver/config_test.go:23-34 | with exactly one protocol entry, a TCP entry is built by the TCP rules and an RTU or ASCII entry by the serial rules, under its own protocol name |
| `Config.OutOfRangeMessage` | internal/driver/config_test.go:122 | the text of every range error contains "value out of range" |
| `Config.OnlyRangeFault` | internal/driver/config_test.go:106-125 | when the only faulty property is an oversized unsigned one, the error is the range error for that property |
| `ConfigTests.AsciiDataBits7` | internal/driver/config_test.go:16-44 | the ASCII configuration with DataBits "7" is accepted: protocol ASCII, address unchanged, unit id 255, 19200 baud, 7 data bits, 1 stop bit, parity N |
| `ConfigTests.RtuUnitId255` | internal/driver/config_test.go:46-74 | the RTU configuration with DataBits "8" is accepted and reproduces every field, with unit id 255 |
| `ConfigTests.RtuUnitId0` | internal/driver/config_test.go:76-104 | UnitID "0" is accepted and yields 0 |
| `ConfigTests.UnitIdRangeBeforeSyntax` | internal/driver/config_test.go:106-125 | UnitID "256x" is a range error, not a syntax error, because its leading digits already reach 256 |
| `ConfigTests.RtuUnitIdOutOfRange` | internal/driver/config_test.go:106-125 | RTU UnitID "256" is rejected with an error containing "value out of range" |
| `ConfigTests.RtuInvalidParity` | internal/driver/config_test.go:127-146 | Parity "invalid-parity" is rejected with the text "invalid parity value, it should be N(None) or O(Odd) or E(Even)" |
| `ConfigTests.TcpAccepted` | internal/driver/config_test.go:148-169 | Address "0.0.0.0", Port "502", UnitID "255" yields protocol TCP, the address unchanged, port 502 and unit id 255 |
| `ConfigTests.TcpUnitIdOutOfRange` | internal/driver/config_test.go:171-187 | TCP UnitID "256" is rejected with an error containing "value out of range" |
| `ConfigTests.TcpPortOutOfRange` | internal/driver/config_test.go:189-205 | Port "65536" is rejected with an error containing "value out of range" |

## Left out

- The transport library (goburrow/modbus): framing, CRC, sockets, serial ports and what `Connect`, `Close` and the read and write operations do inside. It is foreign code. Each call is recorded, and its answer is a method parameter.
- The handlers' `Logger` and `Timeout` fields, and the library's own defaults for fields the adapter then overwrites. These are I/O settings or library internals. Every other handler field the adapter sets is modelled.
- Logging (`driver.Logger.Info`/`Error`, `log.New`). It is I/O with no effect on results.
- The `commandInfo.(*CommandInfo)` type assertion and its panic on a wrong dynamic type. The command is a typed parameter here.
- The panics the Go code would raise become preconditions instead. A read or write on a known table before any `OpenConnection` calls a method on a nil client. A one-register holding write with fewer than two value bytes makes `binary.BigEndian.Uint16` panic.
- Aliasing between the bound client and the handler field it points to. The model records only which handler the client is bound to.
- Go's distinction between a nil slice and an empty one. A nil response is the empty sequence.
- The builder's source file is not part of this model. Its constants are placeholders: the protocol names `modbus-tcp`, `modbus-rtu`, `modbus-ascii` and the primary table names. The properties depend only on these names being distinct. The property keys are the identifiers the test file uses (`Address`, `Port`, `UnitID`, `BaudRate`, `DataBits`, `StopBits`, `Parity`), spelled as their own names, since the constants' values are defined outside this model.
- The builder behaviour that the tests do not fix is left unspecified:
  - which protocol wins when several entries are present, and the error when none is;
  - the order in which properties are checked;
  - the full text of a parse error (only "value out of range" and the parity text are fixed);
  - the zero values of the serial fields in a TCP result, and of the port in a serial result.
- Config.ParseUnsigned: reads UnitID and Port as `strconv.ParseUint` does in base 10, including its digit-by-digit range check. A leading sign is a syntax error, so Port "-1" is reported as not a number rather than out of range. Leading zeros are read as decimal, and base prefixes such as "0x" are syntax errors. This choice is made because the builder's source is not part of this model, and the tests fix only the out-of-range cases.
- Config.TcpConnectionInfo: a missing property reads as "", as a Go map read gives. A missing Address is accepted as the empty address, and a missing Port or UnitID is reported as not a number. The builder's source is not part of this model, and no test fixes the missing-key case.
- Config.SerialConnectionInfo: a missing property reads as "" in the same way. A missing Address is accepted, a missing numeric property is reported as not a number, and a missing Parity is an invalid parity. The reason is the same.
- Config.ParseSigned: does not model the 64-bit range limit of Go's integer parsing (texts beyond it are accepted here), because integers are unbounded in this model and no test reaches that limit.
- Concurrency and timeouts. The adapter has none of its own, and its idle timeout is the constant 0.
