/**
 * The eight cases of internal/driver/config_test.go, each a lemma about
 * `CreateConnectionInfo` that follows from its contract.
 */
module ConfigTests {
  import opened Common
  import opened Decimal
  import opened Text
  import opened Config

  const SerialDevicePath: string := "/dev/USB0tty"

  /** The numerals the tests use, read as decimal. */
  lemma SmallNumerals()
    ensures IsCanonical("0") && Value("0") == 0
    ensures IsCanonical("1") && Value("1") == 1
    ensures IsCanonical("7") && Value("7") == 7
    ensures IsCanonical("8") && Value("8") == 8
    ensures IsCanonical("255") && Value("255") == 255
    ensures IsCanonical("256") && Value("256") == 256
  {
    assert FormatNat(0) == "0" && FormatNat(1) == "1";
    assert FormatNat(7) == "7" && FormatNat(8) == "8";
    assert FormatNat(255) == "255" && FormatNat(256) == "256";
  }

  lemma LargeNumerals()
    ensures IsCanonical("502") && Value("502") == 502
    ensures IsCanonical("19200") && Value("19200") == 19200
  {
    assert FormatNat(502) == "502";
    assert FormatNat(19200) == "19200";
  }

  lemma PortLimitNumeral()
    ensures IsCanonical("65536") && Value("65536") == 65536
  {
    assert FormatNat(65536) == "65536";
  }

  function SerialProps(unitId: string, dataBits: string, parity: string): ProtocolProperties {
    map[
      AddressKey := SerialDevicePath,
      UnitIdKey := unitId,
      BaudRateKey := "19200",
      DataBitsKey := dataBits,
      StopBitsKey := "1",
      ParityKey := parity]
  }

  lemma SerialPropsRead(unitId: string, dataBits: string, parity: string)
    ensures var props := SerialProps(unitId, dataBits, parity);
      && Prop(props, AddressKey) == SerialDevicePath
      && Prop(props, UnitIdKey) == unitId
      && Prop(props, BaudRateKey) == "19200"
      && Prop(props, DataBitsKey) == dataBits
      && Prop(props, StopBitsKey) == "1"
      && Prop(props, ParityKey) == parity
  {
  }

  function TcpProps(port: string, unitId: string): ProtocolProperties {
    map[AddressKey := "0.0.0.0", PortKey := port, UnitIdKey := unitId]
  }

  /** A map holding only a TCP entry is built by the TCP rules. */
  lemma OnlyTcp(props: ProtocolProperties)
    ensures OneProtocol(map[ProtocolTCP := props])
    ensures CreateConnectionInfo(map[ProtocolTCP := props]) == TcpConnectionInfo(props)
  {
  }

  /** A map holding only an RTU or only an ASCII entry is built by the serial rules. */
  lemma OnlySerial(protocol: string, props: ProtocolProperties)
    requires protocol == ProtocolRTU || protocol == ProtocolASCII
    ensures OneProtocol(map[protocol := props])
    ensures CreateConnectionInfo(map[protocol := props]) == SerialConnectionInfo(protocol, props)
  {
  }

  /** A serial configuration whose numbers read as written is accepted and reproduced. */
  lemma SerialAccepted(protocol: string, unitId: string, dataBits: string, u: nat, d: nat)
    requires protocol == ProtocolRTU || protocol == ProtocolASCII
    requires IsDecimal(unitId) && Value(unitId) == u < 0x100
    requires IsDecimal(dataBits) && Value(dataBits) == d
    ensures var r := CreateConnectionInfo(map[protocol := SerialProps(unitId, dataBits, "N")]);
      && r.Ok?
      && r.value.protocol == protocol
      && r.value.address == SerialDevicePath
      && r.value.unitId as int == u
      && r.value.baudRate == 19200
      && r.value.dataBits == d
      && r.value.stopBits == 1
      && r.value.parity == "N"
  {
    var props := SerialProps(unitId, dataBits, "N");
    SerialPropsRead(unitId, dataBits, "N");
    OnlySerial(protocol, props);
    SmallNumerals();
    LargeNumerals();
  }

  /** TestCreateASCIIConnectionInfo_dataBits7. */
  lemma AsciiDataBits7()
    ensures var r := CreateConnectionInfo(map[ProtocolASCII := SerialProps("255", "7", "N")]);
      && r.Ok?
      && r.value.protocol == ProtocolASCII
      && r.value.address == SerialDevicePath
      && r.value.unitId == 255
      && r.value.baudRate == 19200
      && r.value.dataBits == 7
      && r.value.stopBits == 1
      && r.value.parity == "N"
  {
    SmallNumerals();
    SerialAccepted(ProtocolASCII, "255", "7", 255, 7);
  }

  /** TestCreateRTUConnectionInfo_unitID255. */
  lemma RtuUnitId255()
    ensures var r := CreateConnectionInfo(map[ProtocolRTU := SerialProps("255", "8", "N")]);
      && r.Ok?
      && r.value.protocol == ProtocolRTU
      && r.value.address == SerialDevicePath
      && r.value.unitId == 255
      && r.value.baudRate == 19200
      && r.value.dataBits == 8
      && r.value.stopBits == 1
      && r.value.parity == "N"
  {
    SmallNumerals();
    SerialAccepted(ProtocolRTU, "255", "8", 255, 8);
  }

  /** TestCreateConnectionInfo_unitID0: zero is a unit id, not a missing one. */
  lemma RtuUnitId0()
    ensures var r := CreateConnectionInfo(map[ProtocolRTU := SerialProps("0", "8", "N")]);
      && r.Ok?
      && r.value.protocol == ProtocolRTU
      && r.value.address == SerialDevicePath
      && r.value.unitId == 0
      && r.value.baudRate == 19200
      && r.value.dataBits == 8
      && r.value.stopBits == 1
      && r.value.parity == "N"
  {
    SmallNumerals();
    SerialAccepted(ProtocolRTU, "0", "8", 0, 8);
  }

  /** With the serial texts of the range test, the unit id is the only property at fault. */
  lemma SerialUnitIdFault(props: ProtocolProperties, e: ConfigError)
    requires Explains(props, SerialNumericKeys, e)
    requires Prop(props, UnitIdKey) == "256" && Prop(props, BaudRateKey) == "19200"
    requires Prop(props, DataBitsKey) == "8" && Prop(props, StopBitsKey) == "1"
    requires Prop(props, ParityKey) == "N"
    ensures e == OutOfRange(UnitIdKey, "256")
  {
    SmallNumerals();
    LargeNumerals();
    OnlyRangeFault(props, SerialNumericKeys, UnitIdKey, e);
  }

  /** A unit id whose leading digits already reach 256 is out of range, whatever follows them. */
  lemma UnitIdRangeBeforeSyntax()
    ensures ParseUnsigned(map[UnitIdKey := "256x"], UnitIdKey) == Err(OutOfRange(UnitIdKey, "256x"))
  {
    assert DigitPrefix("256x") == "256";
    SmallNumerals();
  }

  /** TestCreateConnectionInfo_unitIdOutOfRange. */
  lemma RtuUnitIdOutOfRange()
    ensures var r := CreateConnectionInfo(map[ProtocolRTU := SerialProps("256", "8", "N")]);
      r.Err? && Contains(Message(r.error), RangeMessage)
  {
    var props := SerialProps("256", "8", "N");
    SerialPropsRead("256", "8", "N");
    var r := SerialConnectionInfo(ProtocolRTU, props);
    OnlySerial(ProtocolRTU, props);
    assert r.Err? by {
      SmallNumerals();
      LargeNumerals();
    }
    SerialUnitIdFault(props, r.error);
    OutOfRangeMessage(r.error);
  }

  /** TestCreateConnectionInfo_invalidParity. */
  lemma RtuInvalidParity()
    ensures var r := CreateConnectionInfo(map[ProtocolRTU := SerialProps("1", "8", "invalid-parity")]);
      r.Err? && Contains(Message(r.error), ParityMessage)
  {
    var props := SerialProps("1", "8", "invalid-parity");
    SerialPropsRead("1", "8", "invalid-parity");
    var r := SerialConnectionInfo(ProtocolRTU, props);
    OnlySerial(ProtocolRTU, props);
    assert r.Err?;
    assert r.error.InvalidParity? by {
      SmallNumerals();
      LargeNumerals();
    }
    assert ParityMessage <= Message(r.error);
  }

  /** TestCreateTCPConnectionInfo. */
  lemma TcpAccepted()
    ensures var r := CreateConnectionInfo(map[ProtocolTCP := TcpProps("502", "255")]);
      && r.Ok?
      && r.value.protocol == ProtocolTCP
      && r.value.address == "0.0.0.0"
      && r.value.port == 502
      && r.value.unitId == 255
  {
    var props := TcpProps("502", "255");
    SmallNumerals();
    LargeNumerals();
    assert Prop(props, PortKey) == "502" && Prop(props, UnitIdKey) == "255";
  }

  /** With a port and a unit id of which exactly one is oversized, that one is reported. */
  lemma TcpRangeFault(props: ProtocolProperties, e: ConfigError, port: nat, unitId: nat)
    requires Explains(props, TcpNumericKeys, e)
    requires IsDecimal(Prop(props, PortKey)) && Value(Prop(props, PortKey)) == port
    requires IsDecimal(Prop(props, UnitIdKey)) && Value(Prop(props, UnitIdKey)) == unitId
    requires (port >= 0x1_0000) != (unitId >= 0x100)
    ensures port >= 0x1_0000 ==> e == OutOfRange(PortKey, Prop(props, PortKey))
    ensures unitId >= 0x100 ==> e == OutOfRange(UnitIdKey, Prop(props, UnitIdKey))
  {
    DecimalOverflows(Prop(props, PortKey), UnsignedLimits[PortKey]);
    DecimalOverflows(Prop(props, UnitIdKey), UnsignedLimits[UnitIdKey]);
    if port >= 0x1_0000 {
      OnlyRangeFault(props, TcpNumericKeys, PortKey, e);
    } else {
      OnlyRangeFault(props, TcpNumericKeys, UnitIdKey, e);
    }
  }

  /** TestCreateTCPConnectionInfo_unitIdOutOfRange. */
  lemma TcpUnitIdOutOfRange()
    ensures var r := CreateConnectionInfo(map[ProtocolTCP := TcpProps("502", "256")]);
      r.Err? && Contains(Message(r.error), RangeMessage)
  {
    var props := TcpProps("502", "256");
    var r := TcpConnectionInfo(props);
    OnlyTcp(props);
    SmallNumerals();
    LargeNumerals();
    assert Prop(props, PortKey) == "502" && Prop(props, UnitIdKey) == "256";
    TcpRangeFault(props, r.error, 502, 256);
    OutOfRangeMessage(r.error);
  }

  /** TestCreateTCPConnectionInfo_portOutOfRange. */
  lemma TcpPortOutOfRange()
    ensures var r := CreateConnectionInfo(map[ProtocolTCP := TcpProps("65536", "1")]);
      r.Err? && Contains(Message(r.error), RangeMessage)
  {
    var props := TcpProps("65536", "1");
    var r := TcpConnectionInfo(props);
    OnlyTcp(props);
    SmallNumerals();
    PortLimitNumeral();
    assert Prop(props, PortKey) == "65536" && Prop(props, UnitIdKey) == "1";
    TcpRangeFault(props, r.error, 65536, 1);
    OutOfRangeMessage(r.error);
  }
}
