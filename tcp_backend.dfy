/**
 * The backend's TCP commands (src-tauri/src/tcp.rs): a one-shot sender, a single inbound server
 * with one process-wide buffer, and a registry of client connections, each with its own buffer.
 *
 * The process-wide state (`CONNECTIONS`, `RECEIVED_MESSAGES`, `SERVER_HANDLE`) is the class
 * `TcpState`; every command is also given as a function on the value `Backend`, which the class's
 * methods are proved to follow and about which the lemmas at the end speak. Socket operations,
 * clocks and UUIDs are parameters: `IoResult` says whether a connect, bind, write or flush succeeded.
 */
module TcpBackend {
  import opened Wrappers
  import opened TcpTypes
  import opened LineProtocol

  /** Rust's `u16`: the type of every port the backend is given. */
  type Port = p: int | 0 <= p < 0x1_0000

  datatype TcpMessage = TcpMessage(host: string, port: Port, message: string)
  datatype ServerConfig = ServerConfig(host: string, port: Port)
  datatype ConnectionRequest = ConnectionRequest(host: string, port: Port)
  datatype MessageOnConnection = MessageOnConnection(connectionId: string, message: string)

  /** Outcome of one socket operation; `reason` is the I/O error's text. */
  datatype IoResult = IoOk | IoErr(reason: string)

  datatype TcpError =
    | ConnectionFailed(detail: string)
    | SendFailed(detail: string)
    | InvalidAddress(detail: string)
    | ServerStartFailed(detail: string)
    | ConnectionNotFound(detail: string)

  const ConnectionFailedPrefix := "Connection failed: "
  const SendFailedPrefix := "Send failed: "
  const InvalidAddressPrefix := "Invalid address: "
  const ServerStartFailedPrefix := "Server start failed: "
  const ConnectionNotFoundPrefix := "Connection not found: "

  /** `impl Display for TcpError`; it is also how an error is serialised to the frontend. */
  function Display(e: TcpError): (r: string)
    ensures |r| > |e.detail| && r[|r| - |e.detail|..] == e.detail
  {
    match e
    case ConnectionFailed(d) => ConnectionFailedPrefix + d
    case SendFailed(d) => SendFailedPrefix + d
    case InvalidAddress(d) => InvalidAddressPrefix + d
    case ServerStartFailed(d) => ServerStartFailedPrefix + d
    case ConnectionNotFound(d) => ConnectionNotFoundPrefix + d
  }

  /** Reads an error back from its display text: the inverse of `Display`. */
  function ParseError(s: string): Option<TcpError>
  {
    if ConnectionFailedPrefix <= s then Some(ConnectionFailed(s[|ConnectionFailedPrefix|..]))
    else if SendFailedPrefix <= s then Some(SendFailed(s[|SendFailedPrefix|..]))
    else if InvalidAddressPrefix <= s then Some(InvalidAddress(s[|InvalidAddressPrefix|..]))
    else if ServerStartFailedPrefix <= s then Some(ServerStartFailed(s[|ServerStartFailedPrefix|..]))
    else if ConnectionNotFoundPrefix <= s then Some(ConnectionNotFound(s[|ConnectionNotFoundPrefix|..]))
    else None
  }

  /** The display text of an error determines the error: no two errors print alike. */
  lemma DisplayRoundTrip(e: TcpError)
    ensures ParseError(Display(e)) == Some(e)
  {
    var s := Display(e);
    match e
    case ConnectionFailed(d) =>
      assert s[|ConnectionFailedPrefix|..] == d;
    case SendFailed(d) =>
      assert s[0] != ConnectionFailedPrefix[0];
      assert s[|SendFailedPrefix|..] == d;
    case InvalidAddress(d) =>
      assert s[0] != ConnectionFailedPrefix[0] && s[0] != SendFailedPrefix[0];
      assert s[|InvalidAddressPrefix|..] == d;
    case ServerStartFailed(d) =>
      assert s[0] != ConnectionFailedPrefix[0] && s[2] != SendFailedPrefix[2];
      assert s[0] != InvalidAddressPrefix[0];
      assert s[|ServerStartFailedPrefix|..] == d;
    case ConnectionNotFound(d) =>
      assert s[11] != ConnectionFailedPrefix[11];
      assert s[0] != SendFailedPrefix[0] && s[0] != InvalidAddressPrefix[0];
      assert s[0] != ServerStartFailedPrefix[0];
      assert s[|ConnectionNotFoundPrefix|..] == d;
  }

  lemma DisplayInjective(e1: TcpError, e2: TcpError)
    ensures Display(e1) == Display(e2) <==> e1 == e2
  {
    DisplayRoundTrip(e1);
    DisplayRoundTrip(e2);
  }

  function DigitChar(d: nat): (c: char)
    requires d < 10
    ensures '0' <= c <= '9' && c as int - '0' as int == d
  {
    ['0', '1', '2', '3', '4', '5', '6', '7', '8', '9'][d]
  }

  /**
   * The decimal text `format!("{}", n)` prints for a non-negative integer: digits only, and a
   * leading '0' only for zero itself.
   */
  function DecimalString(n: nat): (r: string)
    ensures r != []
    ensures forall i :: 0 <= i < |r| ==> '0' <= r[i] <= '9'
    ensures r[0] == '0' <==> n == 0
  {
    if n < 10 then [DigitChar(n)] else DecimalString(n / 10) + [DigitChar(n % 10)]
  }

  /** The number a string of decimal digits denotes, read left to right. */
  function DigitsValue(s: string): int
  {
    if s == [] then 0 else 10 * DigitsValue(s[..|s| - 1]) + (s[|s| - 1] as int - '0' as int)
  }

  /** The digits `DecimalString` prints spell `n` back. */
  lemma {:induction false} DecimalStringValue(n: nat)
    ensures DigitsValue(DecimalString(n)) == n
  {
    var r := DecimalString(n);
    if n < 10 {
      assert r[..0] == [];
    } else {
      DecimalStringValue(n / 10);
      assert r[..|r| - 1] == DecimalString(n / 10);
    }
  }

  /** So two ports never print the same text. */
  lemma DecimalStringInjective(m: nat, n: nat)
    ensures DecimalString(m) == DecimalString(n) <==> m == n
  {
    DecimalStringValue(m);
    DecimalStringValue(n);
  }

  /** `format!("{}:{}", host, port)`. */
  function Address(host: string, port: Port): (r: string)
    ensures |r| > |host| + 1 && r[..|host|] == host && r[|host|] == ':' && r[|host| + 1..] == DecimalString(port)
  {
    host + ":" + DecimalString(port)
  }

  /** The address guard of every command that connects or binds: an empty host or port 0. */
  predicate AddressRejected(host: string, port: Port)
  {
    host == [] || port == 0
  }

  const InvalidAddressError := InvalidAddress("Host and port must be valid")

  /** What a command wrote to a socket (if anything) and what it answered. */
  datatype Transmission<+T> = Transmission(written: Option<string>, reply: Result<T, TcpError>)

  /**
   * `send_tcp_message`: check the address, connect, write the message with a carriage return, shut
   * the stream down and report success. Nothing is read back. A failed shutdown is only logged, so
   * its outcome is not a parameter.
   */
  function SendTcpMessage(m: TcpMessage, connect: IoResult, write: IoResult): (r: Transmission<string>)
    ensures AddressRejected(m.host, m.port) ==> r == Transmission(None, Err(InvalidAddressError))
    ensures r.written.Some? <==> !AddressRejected(m.host, m.port) && connect.IoOk?
    ensures r.written.Some? ==> r.written.value == OneShotFrame(m.message)
    ensures r.reply.Ok? <==> !AddressRejected(m.host, m.port) && connect.IoOk? && write.IoOk?
    ensures !AddressRejected(m.host, m.port) && connect.IoErr? ==> r.reply.Err? && r.reply.error.ConnectionFailed?
    ensures r.written.Some? && write.IoErr? ==> r.reply.Err? && r.reply.error.SendFailed?
  {
    var address := Address(m.host, m.port);
    if AddressRejected(m.host, m.port) then
      Transmission(None, Err(InvalidAddressError))
    else if connect.IoErr? then
      Transmission(None, Err(ConnectionFailed("Failed to connect to " + address + ": " + connect.reason)))
    else
      var frame := OneShotFrame(m.message);
      if write.IoErr? then
        Transmission(Some(frame), Err(SendFailed("Failed to send message: " + write.reason)))
      else
        Transmission(Some(frame), Ok("Message sent successfully to " + m.host + ":" + DecimalString(m.port)))
  }

  // ---------------------------------------------------------------------------------------------
  // The process-wide state as a value, and every command as a function on it.

  /**
   * `connections` is `CONNECTIONS` (id to that connection's buffer), `received` is
   * `RECEIVED_MESSAGES`, and `serverRunning` says whether `SERVER_HANDLE` holds a task.
   */
  datatype Backend = Backend(connections: map<string, seq<ReceivedMessage>>, received: seq<ReceivedMessage>, serverRunning: bool)

  /** Before any command: every `OnceLock` initialises to an empty map, buffer or handle. */
  const Initial := Backend(map[], [], false)

  /** The state after a command, and the command's answer. */
  datatype Step<+R> = Step(next: Backend, reply: R)

  /** The address a connection's inbound messages are stamped with. */
  function ConnectionAddr(id: string): string
  {
    "Connection " + id
  }

  function NotFound(id: string): TcpError
  {
    ConnectionNotFound("Connection with ID " + id + " not found")
  }

  predicate StoredMessages(ms: seq<ReceivedMessage>)
  {
    forall k :: 0 <= k < |ms| ==> ms[k].message != []
  }

  predicate ConnectionBuffer(id: string, ms: seq<ReceivedMessage>)
  {
    StoredMessages(ms) && forall k :: 0 <= k < |ms| ==> ms[k].clientAddr == ConnectionAddr(id)
  }

  /** The invariant every command keeps: no stored message is empty and each connection's buffer holds only its own lines. */
  predicate Consistent(b: Backend)
  {
    && StoredMessages(b.received)
    && forall id :: id in b.connections ==> ConnectionBuffer(id, b.connections[id])
  }

  /** `stop_tcp_server`: abort and forget the server task if there is one; never an error. */
  function StopServer(b: Backend): (r: Step<Result<string, TcpError>>)
    ensures r.next.connections == b.connections && r.next.received == b.received && !r.next.serverRunning
    ensures r.reply.Ok?
  {
    Step(b.(serverRunning := false), Ok(if b.serverRunning then "TCP server stopped" else "No server was running"))
  }

  /**
   * `start_tcp_server`: check the address, stop any running server, clear the global buffer, then
   * bind. A running server is replaced, not refused.
   */
  function StartServer(b: Backend, config: ServerConfig, bind: IoResult): (r: Step<Result<string, TcpError>>)
    ensures AddressRejected(config.host, config.port) ==> r == Step(b, Err(InvalidAddressError))
    ensures r.reply.Ok? <==> !AddressRejected(config.host, config.port) && bind.IoOk?
    ensures !AddressRejected(config.host, config.port) ==>
      r.next.connections == b.connections && r.next.received == [] && (r.next.serverRunning <==> bind.IoOk?)
  {
    var address := Address(config.host, config.port);
    if AddressRejected(config.host, config.port) then Step(b, Err(InvalidAddressError))
    else
      var cleared := StopServer(b).next.(received := []);
      if bind.IoErr? then Step(cleared, Err(ServerStartFailed("Failed to bind to " + address + ": " + bind.reason)))
      else Step(cleared.(serverRunning := true), Ok("TCP server started on " + address))
  }

  /** `get_received_messages`: the whole global buffer. */
  function ReceivedSnapshot(b: Backend): Result<ReceiveResult, TcpError>
  {
    Ok(ReceiveResult(true, b.received, None))
  }

  /**
   * `connect_tcp`: check the address, connect, and register the connection under `id` (the UUID the
   * command generates) with an empty buffer. `connectedAt` is the local time it formats.
   */
  function Connect(b: Backend, req: ConnectionRequest, connect: IoResult, id: string, connectedAt: string): (r: Step<Result<ConnectionResult, TcpError>>)
    ensures r.reply.Ok? <==> !AddressRejected(req.host, req.port) && connect.IoOk?
    ensures r.reply.Err? ==> r.next == b
    ensures r.reply.Ok? ==>
      r.next.connections == b.connections[id := []] && r.next.received == b.received && r.next.serverRunning == b.serverRunning
  {
    var address := Address(req.host, req.port);
    if AddressRejected(req.host, req.port) then Step(b, Err(InvalidAddressError))
    else if connect.IoErr? then Step(b, Err(ConnectionFailed("Failed to connect to " + address + ": " + connect.reason)))
    else
      var connection := Connection(id, req.host, req.port, true, connectedAt);
      Step(b.(connections := b.connections[id := []]), Ok(ConnectionResult(true, Some(connection), None)))
  }

  /** `disconnect_tcp`: remove a known connection together with its buffer; an unknown id is an error. */
  function Disconnect(b: Backend, id: string): (r: Step<Result<string, TcpError>>)
    ensures r.reply.Ok? <==> id in b.connections
    ensures id in b.connections ==> r.next.connections == b.connections - {id}
    ensures id !in b.connections ==> r == Step(b, Err(NotFound(id)))
    ensures r.next.received == b.received && r.next.serverRunning == b.serverRunning
  {
    if id in b.connections then Step(b.(connections := b.connections - {id}), Ok("Connection closed successfully"))
    else Step(b, Err(NotFound(id)))
  }

  /**
   * `send_tcp_message_on_connection`: write the message and a line feed on a known connection, then
   * flush. Write and flush failures are answered as an unsuccessful record, not as an error.
   */
  function SendOnConnection(b: Backend, req: MessageOnConnection, write: IoResult, flush: IoResult, timestamp: string): (r: Transmission<SendRecord>)
    ensures r.written.Some? <==> req.connectionId in b.connections
    ensures r.written.None? ==> r.reply == Err(NotFound(req.connectionId))
    ensures r.written.Some? ==>
      r.written.value == ConnectionFrame(req.message) && r.reply.Ok?
      && (r.reply.value.success <==> write.IoOk? && flush.IoOk?) && r.reply.value.timestamp == Some(timestamp)
  {
    if req.connectionId !in b.connections then Transmission(None, Err(NotFound(req.connectionId)))
    else
      var frame := ConnectionFrame(req.message);
      if write.IoErr? then
        Transmission(Some(frame), Ok(SendRecord(false, "Failed to send message: " + write.reason, Some(timestamp), Some("Send failed: " + write.reason))))
      else if flush.IoErr? then
        Transmission(Some(frame), Ok(SendRecord(false, "Failed to flush message: " + flush.reason, Some(timestamp), Some("Flush failed: " + flush.reason))))
      else
        Transmission(Some(frame), Ok(SendRecord(true, "Message sent successfully", Some(timestamp), None)))
  }

  /** `get_received_messages_from_connection`: the whole buffer of a known connection. */
  function ConnectionSnapshot(b: Backend, id: string): Result<ReceiveResult, TcpError>
  {
    if id in b.connections then Ok(ReceiveResult(true, b.connections[id], None)) else Err(NotFound(id))
  }

  /** One pass of `handle_tcp_client`'s loop: keep the cleaned line, if non-empty, at the end of the global buffer. */
  function ServerLine(b: Backend, line: string, timestamp: string, clientAddr: string): (r: Backend)
    ensures r.connections == b.connections && r.serverRunning == b.serverRunning
    ensures b.received <= r.received && |r.received| <= |b.received| + 1
    ensures |r.received| == |b.received| + 1 <==> CleanLine(line) != []
  {
    var m := CleanLine(line);
    if m == [] then b else b.(received := b.received + [ReceivedMessage(m, timestamp, clientAddr)])
  }

  /**
   * One pass of `handle_connection_receiver`'s loop. The loop's task is aborted when the connection
   * is removed, so a line for an id no longer registered is lost.
   */
  function ConnectionLine(b: Backend, id: string, line: string, timestamp: string): (r: Backend)
    ensures r.received == b.received && r.serverRunning == b.serverRunning
    ensures r.connections.Keys == b.connections.Keys
    ensures forall other :: other in b.connections && other != id ==> r.connections[other] == b.connections[other]
  {
    var m := CleanLine(line);
    if m == [] || id !in b.connections then b
    else b.(connections := b.connections[id := b.connections[id] + [ReceivedMessage(m, timestamp, ConnectionAddr(id))]])
  }

  /** The whole server-side read loop over one client's stream; the `n`-th line read is stamped `clock(n)`. */
  function ServeStream(b: Backend, input: string, clientAddr: string, clock: nat -> string, n: nat): (r: Backend)
    ensures r.connections == b.connections && r.serverRunning == b.serverRunning
    ensures b.received <= r.received
    decreases |input|
  {
    if input == [] then b
    else
      var (line, rest) := ReadLine(input);
      ServeStream(ServerLine(b, line, clock(n), clientAddr), rest, clientAddr, clock, n + 1)
  }

  /** The whole read loop of one client connection. */
  function ReceiveStream(b: Backend, id: string, input: string, clock: nat -> string, n: nat): (r: Backend)
    ensures r.received == b.received && r.serverRunning == b.serverRunning
    ensures r.connections.Keys == b.connections.Keys
    decreases |input|
  {
    if input == [] then b
    else
      var (line, rest) := ReadLine(input);
      ReceiveStream(ConnectionLine(b, id, line, clock(n)), id, rest, clock, n + 1)
  }

  // ---------------------------------------------------------------------------------------------
  // The state itself, updated in place.

  class TcpState {
    var connections: map<string, seq<ReceivedMessage>>
    var received: seq<ReceivedMessage>
    var serverRunning: bool

    function Model(): Backend
      reads this
    {
      Backend(connections, received, serverRunning)
    }

    ghost predicate Valid()
      reads this
    {
      Consistent(Model())
    }

    constructor ()
      ensures Valid() && Model() == Initial
    {
      connections, received, serverRunning := map[], [], false;
    }

    method StopTcpServer() returns (reply: Result<string, TcpError>)
      requires Valid()
      modifies this`serverRunning
      ensures Valid()
      ensures Step(Model(), reply) == StopServer(old(Model()))
    {
      if serverRunning {
        serverRunning := false;
        reply := Ok("TCP server stopped");
      } else {
        reply := Ok("No server was running");
      }
    }

    method StartTcpServer(config: ServerConfig, bind: IoResult) returns (reply: Result<string, TcpError>)
      requires Valid()
      modifies this
      ensures Valid()
      ensures Step(Model(), reply) == StartServer(old(Model()), config, bind)
    {
      var address := Address(config.host, config.port);
      if config.host == [] || config.port == 0 {
        return Err(InvalidAddressError);
      }
      var stopped := StopTcpServer();
      received := [];
      if bind.IoErr? {
        return Err(ServerStartFailed("Failed to bind to " + address + ": " + bind.reason));
      }
      serverRunning := true;
      reply := Ok("TCP server started on " + address);
    }

    method GetReceivedMessages() returns (reply: Result<ReceiveResult, TcpError>)
      ensures reply == ReceivedSnapshot(Model())
      ensures reply.Ok? && reply.value.success && reply.value.messages == received
    {
      reply := Ok(ReceiveResult(true, received, None));
    }

    method ConnectTcp(req: ConnectionRequest, connect: IoResult, id: string, connectedAt: string)
      returns (reply: Result<ConnectionResult, TcpError>)
      requires Valid()
      modifies this`connections
      ensures Valid()
      ensures Step(Model(), reply) == Connect(old(Model()), req, connect, id, connectedAt)
    {
      var address := Address(req.host, req.port);
      if req.host == [] || req.port == 0 {
        return Err(InvalidAddressError);
      }
      if connect.IoErr? {
        return Err(ConnectionFailed("Failed to connect to " + address + ": " + connect.reason));
      }
      var connection := Connection(id, req.host, req.port, true, connectedAt);
      connections := connections[id := []];
      reply := Ok(ConnectionResult(true, Some(connection), None));
    }

    method DisconnectTcp(id: string) returns (reply: Result<string, TcpError>)
      requires Valid()
      modifies this`connections
      ensures Valid()
      ensures Step(Model(), reply) == Disconnect(old(Model()), id)
    {
      if id in connections {
        connections := connections - {id};
        reply := Ok("Connection closed successfully");
      } else {
        reply := Err(NotFound(id));
      }
    }

    method SendTcpMessageOnConnection(req: MessageOnConnection, write: IoResult, flush: IoResult, timestamp: string)
      returns (written: Option<string>, reply: Result<SendRecord, TcpError>)
      ensures Transmission(written, reply) == SendOnConnection(Model(), req, write, flush, timestamp)
      ensures written.Some? <==> req.connectionId in connections
      ensures written.Some? ==> written.value == ConnectionFrame(req.message) && reply.Ok?
    {
      if req.connectionId !in connections {
        return None, Err(NotFound(req.connectionId));
      }
      var frame := ConnectionFrame(req.message);
      written := Some(frame);
      if write.IoErr? {
        reply := Ok(SendRecord(false, "Failed to send message: " + write.reason, Some(timestamp), Some("Send failed: " + write.reason)));
      } else if flush.IoErr? {
        reply := Ok(SendRecord(false, "Failed to flush message: " + flush.reason, Some(timestamp), Some("Flush failed: " + flush.reason)));
      } else {
        reply := Ok(SendRecord(true, "Message sent successfully", Some(timestamp), None));
      }
    }

    method GetReceivedMessagesFromConnection(id: string) returns (reply: Result<ReceiveResult, TcpError>)
      ensures reply == ConnectionSnapshot(Model(), id)
      ensures reply.Ok? <==> id in connections
      ensures reply.Ok? ==> reply.value.messages == connections[id]
    {
      if id in connections {
        reply := Ok(ReceiveResult(true, connections[id], None));
      } else {
        reply := Err(NotFound(id));
      }
    }

    /** The body of one pass of `handle_tcp_client`'s loop. */
    method DeliverServerLine(line: string, timestamp: string, clientAddr: string)
      requires Valid()
      modifies this`received
      ensures Valid()
      ensures Model() == ServerLine(old(Model()), line, timestamp, clientAddr)
    {
      var message := CleanLine(line);
      if message != [] {
        received := received + [ReceivedMessage(message, timestamp, clientAddr)];
      }
    }

    /** The body of one pass of `handle_connection_receiver`'s loop. */
    method DeliverConnectionLine(id: string, line: string, timestamp: string)
      requires Valid()
      modifies this`connections
      ensures Valid()
      ensures Model() == ConnectionLine(old(Model()), id, line, timestamp)
    {
      var message := CleanLine(line);
      if message != [] && id in connections {
        connections := connections[id := connections[id] + [ReceivedMessage(message, timestamp, ConnectionAddr(id))]];
      }
    }

    /**
     * `handle_tcp_client`: read one line at a time until the stream ends. `input` is what arrived
     * before the loop ended; a read error that cuts a line short is not modelled.
     */
    method HandleTcpClient(input: string, clientAddr: string, clock: nat -> string)
      requires Valid()
      modifies this`received
      ensures Valid()
      ensures Model() == ServeStream(old(Model()), input, clientAddr, clock, 0)
    {
      var rest := input;
      var n := 0;
      while true
        invariant Valid()
        invariant ServeStream(Model(), rest, clientAddr, clock, n) == ServeStream(old(Model()), input, clientAddr, clock, 0)
        decreases |rest|
      {
        var (line, remaining) := ReadLine(rest);
        if |line| == 0 {
          break;
        }
        assert rest != [];
        assert ServeStream(Model(), rest, clientAddr, clock, n)
            == ServeStream(ServerLine(Model(), line, clock(n), clientAddr), remaining, clientAddr, clock, n + 1);
        DeliverServerLine(line, clock(n), clientAddr);
        rest := remaining;
        n := n + 1;
      }
    }

    /** `handle_connection_receiver`: the same loop, storing into the connection's own buffer. */
    method HandleConnectionReceiver(id: string, input: string, clock: nat -> string)
      requires Valid()
      modifies this`connections
      ensures Valid()
      ensures Model() == ReceiveStream(old(Model()), id, input, clock, 0)
    {
      var rest := input;
      var n := 0;
      while true
        invariant Valid()
        invariant ReceiveStream(Model(), id, rest, clock, n) == ReceiveStream(old(Model()), id, input, clock, 0)
        decreases |rest|
      {
        var (line, remaining) := ReadLine(rest);
        if |line| == 0 {
          break;
        }
        assert rest != [];
        assert ReceiveStream(Model(), id, rest, clock, n)
            == ReceiveStream(ConnectionLine(Model(), id, line, clock(n)), id, remaining, clock, n + 1);
        DeliverConnectionLine(id, line, clock(n));
        rest := remaining;
        n := n + 1;
      }
    }
  }
}
