/**
 * The connection-info builder: from a map of protocol name to string
 * properties, a typed `ConnectionInfo` or a configuration error. Numeric
 * properties are read as Go's base-10 `strconv` parsers read them.
 */
module Config {
  import opened Common
  import opened Decimal
  import opened Text

  /** Protocol names (keys of the protocol map and values of `ConnectionInfo.protocol`). */
  const ProtocolTCP: string := "modbus-tcp"
  const ProtocolRTU: string := "modbus-rtu"
  const ProtocolASCII: string := "modbus-ascii"

  /** Property names inside one protocol's properties. */
  const AddressKey: string := "Address"
  const PortKey: string := "Port"
  const UnitIdKey: string := "UnitID"
  const BaudRateKey: string := "BaudRate"
  const DataBitsKey: string := "DataBits"
  const StopBitsKey: string := "StopBits"
  const ParityKey: string := "Parity"

  /** The unsigned properties and the first value each cannot hold (uint16, uint8). */
  const UnsignedLimits: map<string, nat> := map[PortKey := 0x1_0000, UnitIdKey := 0x100]

  /** The numeric properties of each protocol family. */
  const TcpNumericKeys: set<string> := {PortKey, UnitIdKey}
  const SerialNumericKeys: set<string> := {UnitIdKey, BaudRateKey, DataBitsKey, StopBitsKey}

  /** N(None), O(Odd), E(Even). */
  const ValidParities: set<string> := {"N", "O", "E"}

  const ParityMessage: string := "invalid parity value, it should be N(None) or O(Odd) or E(Even)"
  const RangeMessage: string := "value out of range"
  const SyntaxMessage: string := "invalid syntax"

  type ProtocolProperties = map<string, string>

  /** The typed connection descriptor; fields a protocol does not use stay zero. */
  datatype ConnectionInfo = ConnectionInfo(
    protocol: string,
    address: string,
    port: int,
    unitId: byte,
    baudRate: int,
    dataBits: int,
    stopBits: int,
    parity: string)

  datatype ConfigError =
    | NotANumber(field: string, text: string)
    | OutOfRange(field: string, text: string)
    | InvalidParity(text: string)

  /**
   * A representative text for an error. Only two parts of it are fixed: the
   * words "value out of range" in a range error, and the whole parity message.
   */
  function Message(e: ConfigError): string {
    match e
    case NotANumber(field, text) => field + ": parsing \"" + text + "\": " + SyntaxMessage
    case OutOfRange(field, text) => field + ": parsing \"" + text + "\": " + RangeMessage
    case InvalidParity(_) => ParityMessage
  }

  /** A Go map read: the property's text, or "" when it is absent. */
  function Prop(props: ProtocolProperties, key: string): string {
    if key in props then props[key] else ""
  }

  /** The caller configures exactly one of the three protocols. */
  predicate OneProtocol(protocols: map<string, ProtocolProperties>) {
    var tcp, rtu, ascii := ProtocolTCP in protocols, ProtocolRTU in protocols, ProtocolASCII in protocols;
    (tcp && !rtu && !ascii) || (!tcp && rtu && !ascii) || (!tcp && !rtu && ascii)
  }

  /** `text` is an unsigned numeral whose value fits below `limit`. */
  predicate UnsignedBelow(text: string, limit: nat) {
    IsDecimal(text) && Value(text) < limit
  }

  /** `strconv.ParseUint` reports `text` out of range: its leading digits already reach `limit`. */
  predicate Overflows(text: string, limit: nat) {
    Value(DigitPrefix(text)) >= limit
  }

  /** For an all-digit text, overflowing is having a value at or above the limit. */
  lemma DecimalOverflows(text: string, limit: nat)
    requires IsDecimal(text)
    ensures Overflows(text, limit) <==> Value(text) >= limit
  {
  }

  predicate ValidTcpProperties(props: ProtocolProperties) {
    && UnsignedBelow(Prop(props, PortKey), UnsignedLimits[PortKey])
    && UnsignedBelow(Prop(props, UnitIdKey), UnsignedLimits[UnitIdKey])
  }

  predicate ValidSerialProperties(props: ProtocolProperties) {
    && UnsignedBelow(Prop(props, UnitIdKey), UnsignedLimits[UnitIdKey])
    && IsSignedDecimal(Prop(props, BaudRateKey))
    && IsSignedDecimal(Prop(props, DataBitsKey))
    && IsSignedDecimal(Prop(props, StopBitsKey))
    && Prop(props, ParityKey) in ValidParities
  }

  /** `e` truthfully names a property among `numeric` (or the parity) and what is wrong with it. */
  predicate Explains(props: ProtocolProperties, numeric: set<string>, e: ConfigError) {
    match e
    case NotANumber(field, text) =>
      && field in numeric && text == Prop(props, field)
      && (if field in UnsignedLimits then !IsDecimal(text) && !Overflows(text, UnsignedLimits[field])
          else !IsSignedDecimal(text))
    case OutOfRange(field, text) =>
      && field in numeric && field in UnsignedLimits && text == Prop(props, field)
      && Overflows(text, UnsignedLimits[field])
    case InvalidParity(text) =>
      && numeric == SerialNumericKeys
      && text == Prop(props, ParityKey) && text !in ValidParities
  }

  /**
   * An unsigned property of the given width, parsed as `strconv.ParseUint`
   * does in base 10: a range error once the leading digits reach the limit,
   * even when a non-digit follows them.
   */
  function ParseUnsigned(props: ProtocolProperties, key: string): (r: Result<nat, ConfigError>)
    requires key in UnsignedLimits
    ensures r.Ok? <==> UnsignedBelow(Prop(props, key), UnsignedLimits[key])
    ensures r.Ok? ==> r.value == Value(Prop(props, key))
    ensures r.Err? ==> Explains(props, {key}, r.error)
  {
    var text := Prop(props, key);
    match ParseUint(text, UnsignedLimits[key])
    case Parsed(v) => Ok(v)
    case SyntaxError => Err(NotANumber(key, text))
    case RangeError => Err(OutOfRange(key, text))
  }

  /** A signed integer property, parsed as `strconv.Atoi` does. */
  function ParseSigned(props: ProtocolProperties, key: string): (r: Result<int, ConfigError>)
    requires key !in UnsignedLimits
    ensures r.Ok? <==> IsSignedDecimal(Prop(props, key))
    ensures r.Ok? ==> r.value == SignedValue(Prop(props, key))
    ensures r.Err? ==> Explains(props, {key}, r.error)
  {
    var text := Prop(props, key);
    match ParseInt(text)
    case None => Err(NotANumber(key, text))
    case Some(v) => Ok(v)
  }

  /** TCP: address, port (uint16) and unit id (uint8). */
  function TcpConnectionInfo(props: ProtocolProperties): (r: Result<ConnectionInfo, ConfigError>)
    ensures r.Ok? <==> ValidTcpProperties(props)
    ensures r.Ok? ==>
      && r.value.protocol == ProtocolTCP
      && r.value.address == Prop(props, AddressKey)
      && r.value.port == Value(Prop(props, PortKey))
      && r.value.unitId as int == Value(Prop(props, UnitIdKey))
    ensures r.Err? ==> Explains(props, TcpNumericKeys, r.error)
  {
    var port :- ParseUnsigned(props, PortKey);
    var unitId :- ParseUnsigned(props, UnitIdKey);
    Ok(ConnectionInfo(ProtocolTCP, Prop(props, AddressKey), port, unitId as byte, 0, 0, 0, ""))
  }

  /** RTU and ASCII: address, unit id (uint8), baud rate, data bits, stop bits, parity. */
  function SerialConnectionInfo(protocol: string, props: ProtocolProperties): (r: Result<ConnectionInfo, ConfigError>)
    ensures r.Ok? <==> ValidSerialProperties(props)
    ensures r.Ok? ==>
      && r.value.protocol == protocol
      && r.value.address == Prop(props, AddressKey)
      && r.value.unitId as int == Value(Prop(props, UnitIdKey))
      && r.value.baudRate == SignedValue(Prop(props, BaudRateKey))
      && r.value.dataBits == SignedValue(Prop(props, DataBitsKey))
      && r.value.stopBits == SignedValue(Prop(props, StopBitsKey))
      && r.value.parity == Prop(props, ParityKey)
    ensures r.Err? ==> Explains(props, SerialNumericKeys, r.error)
  {
    var unitId :- ParseUnsigned(props, UnitIdKey);
    var baudRate :- ParseSigned(props, BaudRateKey);
    var dataBits :- ParseSigned(props, DataBitsKey);
    var stopBits :- ParseSigned(props, StopBitsKey);
    var parity := Prop(props, ParityKey);
    if parity !in ValidParities then
      Err(InvalidParity(parity))
    else
      Ok(ConnectionInfo(protocol, Prop(props, AddressKey), 0, unitId as byte, baudRate, dataBits, stopBits, parity))
  }

  /** `createConnectionInfo`: dispatch on the one configured protocol. */
  function CreateConnectionInfo(protocols: map<string, ProtocolProperties>): (r: Result<ConnectionInfo, ConfigError>)
    requires OneProtocol(protocols)
    ensures ProtocolTCP in protocols ==>
      r == TcpConnectionInfo(protocols[ProtocolTCP])
    ensures ProtocolRTU in protocols ==>
      r == SerialConnectionInfo(ProtocolRTU, protocols[ProtocolRTU])
    ensures ProtocolASCII in protocols ==>
      r == SerialConnectionInfo(ProtocolASCII, protocols[ProtocolASCII])
  {
    if ProtocolTCP in protocols then TcpConnectionInfo(protocols[ProtocolTCP])
    else if ProtocolRTU in protocols then SerialConnectionInfo(ProtocolRTU, protocols[ProtocolRTU])
    else SerialConnectionInfo(ProtocolASCII, protocols[ProtocolASCII])
  }

  /** Every out-of-range error's text reads "value out of range". */
  lemma OutOfRangeMessage(e: ConfigError)
    requires e.OutOfRange?
    ensures Contains(Message(e), RangeMessage)
  {
    ContainsSuffix(e.field + ": parsing \"" + e.text + "\": ", RangeMessage);
  }

  /** A rejected configuration whose only fault is one oversized unsigned property reports exactly that. */
  lemma OnlyRangeFault(props: ProtocolProperties, numeric: set<string>, key: string, e: ConfigError)
    requires Explains(props, numeric, e)
    requires key in numeric && key in UnsignedLimits
    requires Overflows(Prop(props, key), UnsignedLimits[key])
    requires forall k :: k in numeric && k != key ==>
      if k in UnsignedLimits then UnsignedBelow(Prop(props, k), UnsignedLimits[k])
      else IsSignedDecimal(Prop(props, k))
    requires numeric == SerialNumericKeys ==> Prop(props, ParityKey) in ValidParities
    ensures e == OutOfRange(key, Prop(props, key))
    ensures Contains(Message(e), RangeMessage)
  {
    match e
    case NotANumber(field, text) =>
      assert false;
    case OutOfRange(field, text) =>
      assert field == key;
      OutOfRangeMessage(e);
    case InvalidParity(text) =>
      assert false;
  }
}
