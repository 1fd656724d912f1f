/**
 * The Modbus client adapter of internal/driver/modbusclient.go: which of the
 * three protocol handlers it connects and closes, which transport operation
 * each read or write command becomes, and how the handlers are built from a
 * `ConnectionInfo`. The transport library itself is represented only by the
 * calls made to it, recorded in the client's transcript, and by the results
 * and errors it hands back, which are parameters here.
 */
module Client {
  import opened Common
  import opened Decimal
  import opened Text
  import opened Config

  // ---------------------------------------------------------------------------
  // Commands and transport requests
  // ---------------------------------------------------------------------------

  /** Primary table names a command may carry. */
  const DiscretesInput: string := "DISCRETES_INPUT"
  const Coils: string := "COILS"
  const InputRegisters: string := "INPUT_REGISTERS"
  const HoldingRegisters: string := "HOLDING_REGISTERS"

  /** The part of a command descriptor the adapter reads. */
  datatype CommandInfo = CommandInfo(primaryTable: string, startingAddress: uint16, length: uint16)

  /** The four Modbus data spaces. */
  datatype DataSpace = DiscreteInputSpace | CoilSpace | InputRegisterSpace | HoldingRegisterSpace {
    /** Single-bit spaces, as opposed to 16-bit register spaces. */
    predicate IsBits() {
      DiscreteInputSpace? || CoilSpace?
    }
  }

  /** The data space a primary table name denotes, if it denotes one. */
  function SpaceNamed(table: string): Option<DataSpace> {
    if table == DiscretesInput then Some(DiscreteInputSpace)
    else if table == Coils then Some(CoilSpace)
    else if table == InputRegisters then Some(InputRegisterSpace)
    else if table == HoldingRegisters then Some(HoldingRegisterSpace)
    else None
  }

  /** One operation of the transport client, with its arguments. */
  datatype Request =
    | ReadDiscreteInputs(address: uint16, quantity: uint16)
    | ReadCoils(address: uint16, quantity: uint16)
    | ReadInputRegisters(address: uint16, quantity: uint16)
    | ReadHoldingRegisters(address: uint16, quantity: uint16)
    | WriteMultipleCoils(address: uint16, quantity: uint16, value: seq<byte>)
    | WriteMultipleRegisters(address: uint16, quantity: uint16, value: seq<byte>)
    | WriteSingleRegister(address: uint16, registerValue: uint16)
  {
    predicate IsWrite() {
      WriteMultipleCoils? || WriteMultipleRegisters? || WriteSingleRegister?
    }

    /** The data space the operation addresses (Modbus function codes 1-4, 6, 15, 16). */
    function Target(): DataSpace {
      match this
      case ReadDiscreteInputs(_, _) => DiscreteInputSpace
      case ReadCoils(_, _) => CoilSpace
      case ReadInputRegisters(_, _) => InputRegisterSpace
      case ReadHoldingRegisters(_, _) => HoldingRegisterSpace
      case WriteMultipleCoils(_, _, _) => CoilSpace
      case WriteMultipleRegisters(_, _, _) => HoldingRegisterSpace
      case WriteSingleRegister(_, _) => HoldingRegisterSpace
    }
  }

  /** `binary.BigEndian.Uint16`: the first two bytes, most significant first. */
  function BigEndianUint16(b: seq<byte>): uint16
    requires |b| >= 2
  {
    (b[0] as int * 0x100 + b[1] as int) as uint16
  }

  /** `binary.BigEndian.PutUint16`: the two bytes of a register, most significant first. */
  function PutUint16(v: uint16): (b: seq<byte>)
    ensures |b| == 2
  {
    [(v as int / 0x100) as byte, (v as int % 0x100) as byte]
  }

  lemma BigEndianOfPut(v: uint16)
    ensures BigEndianUint16(PutUint16(v)) == v
  {
  }

  /** Decoding looks at exactly the first two bytes and loses nothing of them. */
  lemma PutOfBigEndian(b: seq<byte>)
    requires |b| >= 2
    ensures PutUint16(BigEndianUint16(b)) == b[..2]
  {
  }

  /** The transport read that `GetValue` issues for a command, if any. */
  function ReadRequest(command: CommandInfo): (r: Option<Request>)
    ensures r.Some? <==> SpaceNamed(command.primaryTable).Some?
    ensures r.Some? ==>
      && !r.value.IsWrite()
      && r.value.Target() == SpaceNamed(command.primaryTable).value
      && r.value.address == command.startingAddress
      && r.value.quantity == command.length
  {
    var table, a, n := command.primaryTable, command.startingAddress, command.length;
    if table == DiscretesInput then Some(ReadDiscreteInputs(a, n))
    else if table == Coils then Some(ReadCoils(a, n))
    else if table == InputRegisters then Some(ReadInputRegisters(a, n))
    else if table == HoldingRegisters then Some(ReadHoldingRegisters(a, n))
    else None
  }

  /** What `SetValue` demands of its caller: a one-register write carries at least two bytes. */
  predicate WritableWith(command: CommandInfo, value: seq<byte>) {
    command.primaryTable == HoldingRegisters && command.length == 1 ==> |value| >= 2
  }

  /**
   * The transport write that `SetValue` issues for a command, if any. Writes to
   * a bit space go to the coils and writes to a register space go to the
   * holding registers, whichever table the command names.
   */
  function WriteRequest(command: CommandInfo, value: seq<byte>): (r: Option<Request>)
    requires WritableWith(command, value)
    ensures r.Some? <==> SpaceNamed(command.primaryTable).Some?
    ensures r.Some? ==>
      && r.value.IsWrite()
      && r.value.address == command.startingAddress
      && r.value.Target() == (if SpaceNamed(command.primaryTable).value.IsBits() then CoilSpace else HoldingRegisterSpace)
    ensures r.Some? ==>
      (r.value.WriteSingleRegister? <==> command.primaryTable == HoldingRegisters && command.length == 1)
    ensures r.Some? && r.value.WriteSingleRegister? ==>
      PutUint16(r.value.registerValue) == value[..2]
    ensures r.Some? && !r.value.WriteSingleRegister? ==>
      r.value.quantity == command.length && r.value.value == value
  {
    var table, a, n := command.primaryTable, command.startingAddress, command.length;
    if table == DiscretesInput then Some(WriteMultipleCoils(a, n, value))
    else if table == Coils then Some(WriteMultipleCoils(a, n, value))
    else if table == InputRegisters then Some(WriteMultipleRegisters(a, n, value))
    else if table == HoldingRegisters then
      if n == 1 then
        PutOfBigEndian(value);
        Some(WriteSingleRegister(a, BigEndianUint16(value)))
      else
        Some(WriteMultipleRegisters(a, n, value))
    else None
  }

  // ---------------------------------------------------------------------------
  // Handlers
  // ---------------------------------------------------------------------------

  datatype HandlerKind = Tcp | Rtu | Ascii

  /** The three-way rule every connection operation applies to the protocol name. */
  function SelectHandler(protocol: string): (k: HandlerKind)
    ensures k == Tcp <==> protocol == ProtocolTCP
    ensures k == Rtu <==> protocol == ProtocolRTU
    ensures k == Ascii <==> protocol != ProtocolTCP && protocol != ProtocolRTU
  {
    if protocol == ProtocolTCP then Tcp else if protocol == ProtocolRTU then Rtu else Ascii
  }

  /** The settings of a TCP handler that the adapter sets. */
  datatype TcpHandler = TcpHandler(address: string, slaveId: byte, idleTimeout: int)

  /** The settings of an RTU or ASCII handler that the adapter sets. */
  datatype SerialHandler = SerialHandler(
    address: string,
    slaveId: byte,
    idleTimeout: int,
    baudRate: int,
    dataBits: int,
    stopBits: int,
    parity: string)

  /** Handlers as Go's zero value leaves them. */
  const ZeroTcpHandler: TcpHandler := TcpHandler("", 0, 0)
  const ZeroSerialHandler: SerialHandler := SerialHandler("", 0, 0, 0, 0, 0, "")

  /** The `"%s:%d"` dial address of a TCP device. */
  function TcpAddress(address: string, port: int): string {
    address + ":" + FormatInt(port)
  }

  /** A dial address split at its last colon into host and port text. */
  function SplitAtLastColon(hostPort: string): Option<(string, string)> {
    match LastIndex(hostPort, ':')
    case None => None
    case Some(i) => Some((hostPort[..i], hostPort[i + 1..]))
  }

  /** The dial address splits back into the configured address and port. */
  lemma TcpAddressSplits(address: string, port: int)
    ensures SplitAtLastColon(TcpAddress(address, port)) == Some((address, FormatInt(port)))
  {
    var s := TcpAddress(address, port);
    var digits := FormatInt(port);
    assert s[|address|] == ':';
    assert s[|address| + 1..] == digits;
    var r := LastIndex(s, ':');
    assert r.Some?;
    assert s[..r.value] == address;
  }

  /** The serial device path: the part of the address before its first comma. */
  function SerialDevice(address: string): (path: string)
    ensures path <= address && ',' !in path
    ensures path == address || address[|path|] == ','
  {
    var parts := Split(address, ',');
    JoinHead(parts, ',');
    parts[0]
  }

  /** The serial handler configured from a connection descriptor. */
  function SerialHandlerFor(info: ConnectionInfo): SerialHandler {
    SerialHandler(SerialDevice(info.address), info.unitId, 0, info.baudRate, info.dataBits, info.stopBits, info.parity)
  }

  // ---------------------------------------------------------------------------
  // The client
  // ---------------------------------------------------------------------------

  /** A call made to the transport library, through the handler it went to. */
  datatype Event =
    | Connected(handler: HandlerKind)
    | Closed(handler: HandlerKind)
    | Sent(handler: HandlerKind, request: Request)

  /** Every request goes through a handler that was connected before it. */
  ghost predicate ConnectedBeforeSent(transcript: seq<Event>) {
    forall i :: 0 <= i < |transcript| && transcript[i].Sent? ==>
      Connected(transcript[i].handler) in transcript[..i]
  }

  class ModbusClient {
    /** The protocol name that selects the handler; callers assign it. */
    var protocol: string
    var tcpHandler: TcpHandler
    var rtuHandler: SerialHandler
    var asciiHandler: SerialHandler
    /** The transport client, bound to one handler by `OpenConnection`. */
    var client: Option<HandlerKind>
    /** Every call made to the transport library, oldest first. */
    var transcript: seq<Event>

    ghost predicate Valid()
      reads this
    {
      && (client.Some? ==> Connected(client.value) in transcript)
      && ConnectedBeforeSent(transcript)
    }

    /** `new(ModbusClient)`: every field at its zero value. */
    constructor ()
      ensures Valid()
      ensures protocol == "" && client == None && transcript == []
      ensures tcpHandler == ZeroTcpHandler
      ensures rtuHandler == ZeroSerialHandler && asciiHandler == ZeroSerialHandler
    {
      protocol := "";
      tcpHandler := ZeroTcpHandler;
      rtuHandler := ZeroSerialHandler;
      asciiHandler := ZeroSerialHandler;
      client := None;
      transcript := [];
    }

    /**
     * Connects the handler the protocol selects and binds the client to it,
     * whether or not the connection succeeded; `connectError` is what the
     * library's `Connect` returns.
     */
    method OpenConnection(connectError: Option<string>) returns (err: Option<string>)
      requires Valid()
      modifies this`client, this`transcript
      ensures Valid()
      ensures client == Some(SelectHandler(protocol))
      ensures transcript == old(transcript) + [Connected(SelectHandler(protocol))]
      ensures err == connectError
    {
      var kind: HandlerKind;
      if protocol == ProtocolTCP {
        kind := Tcp;
      } else if protocol == ProtocolRTU {
        kind := Rtu;
      } else {
        kind := Ascii;
      }
      transcript := transcript + [Connected(kind)];
      err := connectError;
      client := Some(kind);
      assert transcript[..|old(transcript)|] == old(transcript);
    }

    /** Closes the handler the protocol selects; `closeError` is what its `Close` returns. */
    method CloseConnection(closeError: Option<string>) returns (err: Option<string>)
      requires Valid()
      modifies this`transcript
      ensures Valid()
      ensures transcript == old(transcript) + [Closed(SelectHandler(protocol))]
      ensures err == closeError
    {
      var kind: HandlerKind;
      if protocol == ProtocolTCP {
        kind := Tcp;
      } else if protocol == ProtocolRTU {
        kind := Rtu;
      } else {
        kind := Ascii;
      }
      transcript := transcript + [Closed(kind)];
      err := closeError;
      assert transcript[..|old(transcript)|] == old(transcript);
    }

    /** One call on the bound transport client; the library answers `reply` and `replyError`. */
    method Send(request: Request, reply: seq<byte>, replyError: Option<string>)
      returns (response: seq<byte>, err: Option<string>)
      requires Valid() && client.Some?
      modifies this`transcript
      ensures Valid()
      ensures transcript == old(transcript) + [Sent(client.value, request)]
      ensures response == reply && err == replyError
    {
      transcript := transcript + [Sent(client.value, request)];
      response, err := reply, replyError;
      assert transcript[..|old(transcript)|] == old(transcript);
    }

    /**
     * Reads the range a command names. An unknown table makes no call and
     * answers nothing, without an error.
     */
    method GetValue(command: CommandInfo, reply: seq<byte>, replyError: Option<string>)
      returns (response: seq<byte>, err: Option<string>)
      requires Valid()
      requires SpaceNamed(command.primaryTable).Some? ==> client.Some?
      modifies this`transcript
      ensures Valid()
      ensures ReadRequest(command).Some? ==>
        && transcript == old(transcript) + [Sent(client.value, ReadRequest(command).value)]
        && response == reply && err == replyError
      ensures ReadRequest(command).None? ==>
        transcript == old(transcript) && response == [] && err == None
    {
      var table, a, n := command.primaryTable, command.startingAddress, command.length;
      response, err := [], None;
      if table == DiscretesInput {
        response, err := Send(ReadDiscreteInputs(a, n), reply, replyError);
      } else if table == Coils {
        response, err := Send(ReadCoils(a, n), reply, replyError);
      } else if table == InputRegisters {
        response, err := Send(ReadInputRegisters(a, n), reply, replyError);
      } else if table == HoldingRegisters {
        response, err := Send(ReadHoldingRegisters(a, n), reply, replyError);
      }
      if err.Some? {
        return response, err;
      }
      return response, None;
    }

    /**
     * Writes `value` to the range a command names; the library's result bytes
     * are discarded. An unknown table makes no call and reports no error.
     */
    method SetValue(command: CommandInfo, value: seq<byte>, reply: seq<byte>, replyError: Option<string>)
      returns (err: Option<string>)
      requires Valid()
      requires SpaceNamed(command.primaryTable).Some? ==> client.Some?
      requires WritableWith(command, value)
      modifies this`transcript
      ensures Valid()
      ensures WriteRequest(command, value).Some? ==>
        && transcript == old(transcript) + [Sent(client.value, WriteRequest(command, value).value)]
        && err == replyError
      ensures WriteRequest(command, value).None? ==>
        transcript == old(transcript) && err == None
    {
      var table, a, n := command.primaryTable, command.startingAddress, command.length;
      var result: seq<byte> := [];
      err := None;
      if table == DiscretesInput {
        result, err := Send(WriteMultipleCoils(a, n, value), reply, replyError);
      } else if table == Coils {
        result, err := Send(WriteMultipleCoils(a, n, value), reply, replyError);
      } else if table == InputRegisters {
        result, err := Send(WriteMultipleRegisters(a, n, value), reply, replyError);
      } else if table == HoldingRegisters {
        if n == 1 {
          result, err := Send(WriteSingleRegister(a, BigEndianUint16(value)), reply, replyError);
        } else {
          result, err := Send(WriteMultipleRegisters(a, n, value), reply, replyError);
        }
      }
      if err.Some? {
        return err;
      }
      return None;
    }
  }

  /**
   * `NewDeviceClient`: builds the handler the descriptor's protocol selects and
   * leaves the other two at their zero values. It never fails, and it does not
   * set the client's protocol name.
   */
  method NewDeviceClient(info: ConnectionInfo) returns (c: ModbusClient, err: Option<string>)
    ensures fresh(c) && c.Valid()
    ensures err == None
    ensures c.protocol == "" && c.client == None && c.transcript == []
    ensures c.tcpHandler ==
      if SelectHandler(info.protocol) == Tcp then TcpHandler(TcpAddress(info.address, info.port), info.unitId, 0)
      else ZeroTcpHandler
    ensures c.rtuHandler ==
      if SelectHandler(info.protocol) == Rtu then SerialHandlerFor(info) else ZeroSerialHandler
    ensures c.asciiHandler ==
      if SelectHandler(info.protocol) == Ascii then SerialHandlerFor(info) else ZeroSerialHandler
  {
    c := new ModbusClient();
    var tcp, rtu, ascii := ZeroTcpHandler, ZeroSerialHandler, ZeroSerialHandler;
    if info.protocol == ProtocolTCP {
      tcp := ZeroTcpHandler.(address := TcpAddress(info.address, info.port));
      tcp := tcp.(slaveId := info.unitId);
      tcp := tcp.(idleTimeout := 0);
    } else if info.protocol == ProtocolRTU {
      var serialParams := Split(info.address, ',');
      rtu := ZeroSerialHandler.(address := serialParams[0]);
      rtu := rtu.(slaveId := info.unitId);
      rtu := rtu.(idleTimeout := 0);
      rtu := rtu.(baudRate := info.baudRate);
      rtu := rtu.(dataBits := info.dataBits);
      rtu := rtu.(stopBits := info.stopBits);
      rtu := rtu.(parity := info.parity);
    } else {
      var serialParams := Split(info.address, ',');
      ascii := ZeroSerialHandler.(address := serialParams[0]);
      ascii := ascii.(slaveId := info.unitId);
      ascii := ascii.(idleTimeout := 0);
      ascii := ascii.(baudRate := info.baudRate);
      ascii := ascii.(dataBits := info.dataBits);
      ascii := ascii.(stopBits := info.stopBits);
      ascii := ascii.(parity := info.parity);
    }
    c.tcpHandler := tcp;
    c.rtuHandler := rtu;
    c.asciiHandler := ascii;
    err := None;
  }

  /** A valid TCP configuration whose port is written as `%d` writes it dials "Address:Port" verbatim. */
  lemma ConfiguredDialAddress(props: ProtocolProperties)
    requires ValidTcpProperties(props) && IsCanonical(Prop(props, PortKey))
    ensures var r := TcpConnectionInfo(props);
      && r.Ok?
      && TcpAddress(r.value.address, r.value.port) == Prop(props, AddressKey) + ":" + Prop(props, PortKey)
  {
    FormatOfValue(Prop(props, PortKey));
  }

  /**
   * A client built from a descriptor, given the descriptor's protocol name,
   * connected and then closed: one `Connect` and one `Close`, both on the
   * handler the descriptor's protocol selects, each error passed back as is.
   */
  method OpenThenClose(info: ConnectionInfo, connectError: Option<string>, closeError: Option<string>)
    returns (transcript: seq<Event>, openErr: Option<string>, closeErr: Option<string>)
    ensures transcript == [Connected(SelectHandler(info.protocol)), Closed(SelectHandler(info.protocol))]
    ensures openErr == connectError && closeErr == closeError
  {
    var c, _ := NewDeviceClient(info);
    c.protocol := info.protocol;
    openErr := c.OpenConnection(connectError);
    closeErr := c.CloseConnection(closeError);
    transcript := c.transcript;
  }

  /**
   * A client used exactly as `NewDeviceClient` returns it connects the ASCII
   * handler, whatever protocol the descriptor names, because its protocol
   * name is still empty.
   */
  method OpenAsBuilt(info: ConnectionInfo, connectError: Option<string>)
    returns (transcript: seq<Event>, openErr: Option<string>)
    ensures transcript == [Connected(Ascii)]
    ensures openErr == connectError
  {
    var c, _ := NewDeviceClient(info);
    openErr := c.OpenConnection(connectError);
    transcript := c.transcript;
  }
}
