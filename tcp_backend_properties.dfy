/** What the backend's commands promise, stated over the `Backend` value they act on. */
module TcpBackendProperties {
  import opened Wrappers
  import opened TcpTypes
  import opened LineProtocol
  import opened TcpBackend

  /** An empty host or port 0 is refused before any connect or bind, and nothing changes. */
  lemma RejectedAddressTouchesNothing(b: Backend, host: string, port: Port, message: string,
                                      bind: IoResult, connect: IoResult, write: IoResult,
                                      id: string, connectedAt: string)
    requires AddressRejected(host, port)
    ensures SendTcpMessage(TcpMessage(host, port, message), connect, write) == Transmission(None, Err(InvalidAddressError))
    ensures StartServer(b, ServerConfig(host, port), bind) == Step(b, Err(InvalidAddressError))
    ensures Connect(b, ConnectionRequest(host, port), connect, id, connectedAt) == Step(b, Err(InvalidAddressError))
  {
  }

  /**
   * A valid start always drops the previous server and empties the global buffer before binding; the
   * server then runs exactly when the bind succeeded. Connections are not touched.
   */
  lemma StartResetsServer(b: Backend, config: ServerConfig, bind: IoResult)
    requires !AddressRejected(config.host, config.port)
    ensures var s := StartServer(b, config, bind);
      && s.next.received == []
      && s.next.connections == b.connections
      && (s.next.serverRunning <==> bind.IoOk?)
      && (s.reply.Ok? <==> bind.IoOk?)
      && (s.reply.Ok? ==> s.reply.value == "TCP server started on " + Address(config.host, config.port))
      && (s.reply.Err? ==> s.reply.error.ServerStartFailed?)
  {
  }

  /** Stop never fails, never leaves a server, and says whether there was one. */
  lemma StopReports(b: Backend)
    ensures var s := StopServer(b);
      && !s.next.serverRunning
      && s.next.connections == b.connections && s.next.received == b.received
      && (s.reply == Ok("TCP server stopped") <==> b.serverRunning)
      && (s.reply == Ok("No server was running") <==> !b.serverRunning)
  {
  }

  /** A second stop is a no-op that reports no server. */
  lemma StopIsIdempotent(b: Backend)
    ensures var once := StopServer(b).next;
      StopServer(once) == Step(once, Ok("No server was running"))
  {
  }

  /** A successful connect adds exactly one entry, with an empty buffer, and changes nothing else. */
  lemma ConnectRegistersFreshEntry(b: Backend, req: ConnectionRequest, id: string, connectedAt: string)
    requires !AddressRejected(req.host, req.port) && id !in b.connections
    ensures var s := Connect(b, req, IoOk, id, connectedAt);
      && s.next.connections.Keys == b.connections.Keys + {id}
      && |s.next.connections| == |b.connections| + 1
      && s.next.connections[id] == []
      && (forall other :: other in b.connections ==> s.next.connections[other] == b.connections[other])
      && s.next.received == b.received && s.next.serverRunning == b.serverRunning
      && s.reply == Ok(ConnectionResult(true, Some(Connection(id, req.host, req.port, true, connectedAt)), None))
  {
    var s := Connect(b, req, IoOk, id, connectedAt);
    assert s.next.connections.Keys == b.connections.Keys + {id};
  }

  /** A failed connect changes nothing and reports a connection failure. */
  lemma FailedConnectTouchesNothing(b: Backend, req: ConnectionRequest, reason: string, id: string, connectedAt: string)
    ensures var s := Connect(b, req, IoErr(reason), id, connectedAt);
      s.next == b && s.reply.Err? && (s.reply.error.ConnectionFailed? || s.reply.error == InvalidAddressError)
  {
  }

  /** Two connects to the same address under two fresh ids give two entries. */
  lemma TwoConnectsTwoEntries(b: Backend, req: ConnectionRequest, id1: string, id2: string, at1: string, at2: string)
    requires !AddressRejected(req.host, req.port)
    requires id1 !in b.connections && id2 !in b.connections && id1 != id2
    ensures var b2 := Connect(Connect(b, req, IoOk, id1, at1).next, req, IoOk, id2, at2).next;
      && b2.connections.Keys == b.connections.Keys + {id1, id2}
      && |b2.connections| == |b.connections| + 2
  {
    var m1 := b.connections[id1 := []];
    var m2 := m1[id2 := []];
    assert Connect(b, req, IoOk, id1, at1).next == b.(connections := m1);
    assert Connect(b.(connections := m1), req, IoOk, id2, at2).next == b.(connections := m2);
    assert m2.Keys == b.connections.Keys + {id1, id2};
  }

  /** Disconnecting a known id removes it with its buffer; afterwards its buffer cannot be drained. */
  lemma DisconnectRemovesKnown(b: Backend, id: string)
    requires id in b.connections
    ensures var s := Disconnect(b, id);
      && s.reply == Ok("Connection closed successfully")
      && s.next.connections == b.connections - {id}
      && s.next.received == b.received && s.next.serverRunning == b.serverRunning
      && ConnectionSnapshot(s.next, id) == Err(NotFound(id))
  {
  }

  /** Disconnecting an unknown id is an error and changes nothing. */
  lemma DisconnectUnknownFails(b: Backend, id: string)
    requires id !in b.connections
    ensures Disconnect(b, id) == Step(b, Err(ConnectionNotFound("Connection with ID " + id + " not found")))
  {
  }

  /** So a second disconnect of the same id always fails. */
  lemma SecondDisconnectFails(b: Backend, id: string)
    ensures var once := Disconnect(b, id).next;
      Disconnect(once, id) == Step(once, Err(NotFound(id)))
  {
    if id in b.connections {
      DisconnectRemovesKnown(b, id);
    }
  }

  /** Connecting under a fresh id and disconnecting it restores the state exactly. */
  lemma ConnectThenDisconnect(b: Backend, req: ConnectionRequest, id: string, connectedAt: string)
    requires !AddressRejected(req.host, req.port) && id !in b.connections
    ensures Disconnect(Connect(b, req, IoOk, id, connectedAt).next, id).next == b
  {
    var m := Connect(b, req, IoOk, id, connectedAt).next.connections;
    assert m - {id} == b.connections;
  }

  /**
   * Send-on-connection writes `message + "\n"` only on a known connection, reports write and flush
   * failures as an unsuccessful record, and an unknown id as an error.
   */
  lemma SendOnConnectionOutcome(b: Backend, req: MessageOnConnection, write: IoResult, flush: IoResult, timestamp: string)
    ensures var t := SendOnConnection(b, req, write, flush, timestamp);
      && (t.written.Some? <==> req.connectionId in b.connections)
      && (t.written.Some? ==> t.written.value == ConnectionFrame(req.message))
      && (t.reply.Err? <==> req.connectionId !in b.connections)
      && (t.reply.Err? ==> t.reply.error == NotFound(req.connectionId))
      && (t.reply.Ok? ==> (t.reply.value.success <==> write.IoOk? && flush.IoOk?))
      && (t.reply.Ok? ==> t.reply.value.timestamp == Some(timestamp))
  {
  }

  /** A single-line message sent on a connection is stored intact by a peer running the same read loop. */
  lemma SendOnConnectionDelivers(b: Backend, req: MessageOnConnection, write: IoResult, flush: IoResult, timestamp: string)
    requires req.connectionId in b.connections && IsSingleLine(req.message)
    ensures var t := SendOnConnection(b, req, write, flush, timestamp);
      t.written.Some? && ReceivedLines(t.written.value) == [req.message]
  {
    var t := SendOnConnection(b, req, write, flush, timestamp);
    ConnectionStreamRoundTrip([req.message]);
    assert ConnectionStream([req.message]) == ConnectionFrame(req.message) + [];
    assert ConnectionFrame(req.message) + [] == t.written.value;
  }

  /** A one-shot send of a single-line message without a trailing '\r' reaches such a peer intact. */
  lemma OneShotDelivers(m: TcpMessage, write: IoResult)
    requires !AddressRejected(m.host, m.port)
    requires IsSingleLine(m.message) && m.message[|m.message| - 1] != '\r'
    ensures var t := SendTcpMessage(m, IoOk, write);
      t.written.Some? && ReceivedLines(t.written.value) == [m.message]
  {
    OneShotReceivedIntact(m.message);
  }

  /** What one line adds to a buffer: its cleaned text, unless that is empty. */
  function Kept(line: string, timestamp: string, clientAddr: string): seq<ReceivedMessage>
  {
    var m := CleanLine(line);
    if m == [] then [] else [ReceivedMessage(m, timestamp, clientAddr)]
  }

  /** What a whole stream adds to a buffer, the `n`-th line read being stamped `clock(n)`. */
  function StreamMessages(input: string, clientAddr: string, clock: nat -> string, n: nat): seq<ReceivedMessage>
    decreases |input|
  {
    if input == [] then []
    else
      var (line, rest) := ReadLine(input);
      Kept(line, clock(n), clientAddr) + StreamMessages(rest, clientAddr, clock, n + 1)
  }

  lemma TextsAppend(a: seq<ReceivedMessage>, c: seq<ReceivedMessage>)
    ensures Texts(a + c) == Texts(a) + Texts(c)
  {
  }

  /** The messages a stream adds are its received lines, all stamped with one address. */
  lemma {:induction false} StreamMessagesAreReceivedLines(input: string, clientAddr: string, clock: nat -> string, n: nat)
    ensures Texts(StreamMessages(input, clientAddr, clock, n)) == ReceivedLines(input)
    ensures forall k :: 0 <= k < |StreamMessages(input, clientAddr, clock, n)| ==>
      StreamMessages(input, clientAddr, clock, n)[k].clientAddr == clientAddr
    decreases |input|
  {
    if input != [] {
      var (line, rest) := ReadLine(input);
      var kept := Kept(line, clock(n), clientAddr);
      var tail := StreamMessages(rest, clientAddr, clock, n + 1);
      StreamMessagesAreReceivedLines(rest, clientAddr, clock, n + 1);
      TextsAppend(kept, tail);
      assert StreamMessages(input, clientAddr, clock, n) == kept + tail;
      var m := CleanLine(line);
      assert Texts(kept) == (if m == [] then [] else [m]);
      assert ReceivedLines(input) == (if m == [] then [] else [m]) + ReceivedLines(rest);
    }
  }

  /** One line read by the server only appends to the global buffer. */
  lemma ServerLineIsAppend(b: Backend, line: string, timestamp: string, clientAddr: string)
    ensures ServerLine(b, line, timestamp, clientAddr) == b.(received := b.received + Kept(line, timestamp, clientAddr))
  {
    if Kept(line, timestamp, clientAddr) == [] {
      assert b.received + [] == b.received;
    }
  }

  lemma ReceivedTwice(b: Backend, x: seq<ReceivedMessage>, y: seq<ReceivedMessage>)
    ensures b.(received := b.received + x).(received := b.received + x + y) == b.(received := b.received + (x + y))
  {
    assert b.received + x + y == b.received + (x + y);
  }

  /** The server's read loop only appends to the global buffer. */
  lemma {:induction false} ServeStreamIsAppend(b: Backend, input: string, clientAddr: string, clock: nat -> string, n: nat)
    ensures ServeStream(b, input, clientAddr, clock, n) == b.(received := b.received + StreamMessages(input, clientAddr, clock, n))
    decreases |input|
  {
    if input == [] {
      assert b.received + [] == b.received;
    } else {
      var (line, rest) := ReadLine(input);
      var kept := Kept(line, clock(n), clientAddr);
      var tail := StreamMessages(rest, clientAddr, clock, n + 1);
      ServerLineIsAppend(b, line, clock(n), clientAddr);
      var b1 := ServerLine(b, line, clock(n), clientAddr);
      ServeStreamIsAppend(b1, rest, clientAddr, clock, n + 1);
      assert StreamMessages(input, clientAddr, clock, n) == kept + tail;
      ReceivedTwice(b, kept, tail);
    }
  }

  /**
   * The server's read loop appends, at the end of the global buffer and in receipt order, exactly the
   * non-empty cleaned lines of the client's stream, each stamped with that client's address.
   */
  lemma ServeStreamAppends(b: Backend, input: string, clientAddr: string, clock: nat -> string, n: nat)
    ensures var r := ServeStream(b, input, clientAddr, clock, n);
      && r.connections == b.connections && r.serverRunning == b.serverRunning
      && |b.received| <= |r.received|
      && r.received[..|b.received|] == b.received
      && Texts(r.received) == Texts(b.received) + ReceivedLines(input)
      && forall k :: |b.received| <= k < |r.received| ==> r.received[k].clientAddr == clientAddr
  {
    var added := StreamMessages(input, clientAddr, clock, n);
    ServeStreamIsAppend(b, input, clientAddr, clock, n);
    StreamMessagesAreReceivedLines(input, clientAddr, clock, n);
    TextsAppend(b.received, added);
    var r := b.received + added;
    assert r[..|b.received|] == b.received;
    forall k | |b.received| <= k < |r| ensures r[k].clientAddr == clientAddr {
      assert r[k] == added[k - |b.received|];
    }
  }

  lemma ConnectionLineIsAppend(b: Backend, id: string, line: string, timestamp: string)
    requires id in b.connections
    ensures ConnectionLine(b, id, line, timestamp)
      == b.(connections := b.connections[id := b.connections[id] + Kept(line, timestamp, ConnectionAddr(id))])
  {
    if Kept(line, timestamp, ConnectionAddr(id)) == [] {
      assert b.connections[id] + [] == b.connections[id];
      assert b.connections[id := b.connections[id]] == b.connections;
    }
  }

  lemma AppendTwice(m: map<string, seq<ReceivedMessage>>, id: string, x: seq<ReceivedMessage>, y: seq<ReceivedMessage>)
    requires id in m
    ensures m[id := m[id] + x][id := m[id] + x + y] == m[id := m[id] + (x + y)]
  {
    assert m[id] + x + y == m[id] + (x + y);
  }

  /** A connection's read loop only appends to that connection's own buffer. */
  lemma {:induction false} ReceiveStreamIsAppend(b: Backend, id: string, input: string, clock: nat -> string, n: nat)
    requires id in b.connections
    ensures ReceiveStream(b, id, input, clock, n)
      == b.(connections := b.connections[id := b.connections[id] + StreamMessages(input, ConnectionAddr(id), clock, n)])
    decreases |input|
  {
    if input == [] {
      assert b.connections[id] + [] == b.connections[id];
      assert b.connections[id := b.connections[id]] == b.connections;
    } else {
      var (line, rest) := ReadLine(input);
      var kept := Kept(line, clock(n), ConnectionAddr(id));
      var tail := StreamMessages(rest, ConnectionAddr(id), clock, n + 1);
      ConnectionLineIsAppend(b, id, line, clock(n));
      var b1 := ConnectionLine(b, id, line, clock(n));
      ReceiveStreamIsAppend(b1, id, rest, clock, n + 1);
      assert StreamMessages(input, ConnectionAddr(id), clock, n) == kept + tail;
      AppendTwice(b.connections, id, kept, tail);
    }
  }

  /**
   * A connection's read loop appends exactly the non-empty cleaned lines of its stream to that
   * connection's own buffer; the global buffer and every other connection are untouched.
   */
  lemma ReceiveStreamAppends(b: Backend, id: string, input: string, clock: nat -> string, n: nat)
    requires id in b.connections
    ensures var r := ReceiveStream(b, id, input, clock, n);
      && r.received == b.received && r.serverRunning == b.serverRunning
      && r.connections.Keys == b.connections.Keys
      && (forall other :: other in b.connections && other != id ==> r.connections[other] == b.connections[other])
      && |b.connections[id]| <= |r.connections[id]|
      && r.connections[id][..|b.connections[id]|] == b.connections[id]
      && Texts(r.connections[id]) == Texts(b.connections[id]) + ReceivedLines(input)
  {
    var added := StreamMessages(input, ConnectionAddr(id), clock, n);
    ReceiveStreamIsAppend(b, id, input, clock, n);
    StreamMessagesAreReceivedLines(input, ConnectionAddr(id), clock, n);
    TextsAppend(b.connections[id], added);
    var buf := b.connections[id] + added;
    assert buf[..|b.connections[id]|] == b.connections[id];
  }

  /**
   * After a successful connect, the lines a peer sends with `ConnectionFrame` are drained from the new
   * connection exactly, in send order; the drain does not consume them.
   */
  lemma ConnectedLinesDrainInOrder(b: Backend, req: ConnectionRequest, id: string, connectedAt: string,
                                   ms: seq<string>, clock: nat -> string)
    requires !AddressRejected(req.host, req.port)
    requires forall k :: 0 <= k < |ms| ==> IsSingleLine(ms[k])
    ensures var b1 := Connect(b, req, IoOk, id, connectedAt).next;
      var drained := ConnectionSnapshot(ReceiveStream(b1, id, ConnectionStream(ms), clock, 0), id);
      drained.Ok? && drained.value.success && Texts(drained.value.messages) == ms
  {
    var b1 := Connect(b, req, IoOk, id, connectedAt).next;
    ReceiveStreamAppends(b1, id, ConnectionStream(ms), clock, 0);
    ConnectionStreamRoundTrip(ms);
    assert Texts(b1.connections[id]) == [];
  }

  /** Starting and stopping the server keep the stored messages non-empty and each connection's buffer its own. */
  lemma ServerCommandsKeepConsistent(b: Backend, config: ServerConfig, bind: IoResult)
    requires Consistent(b)
    ensures Consistent(StartServer(b, config, bind).next)
    ensures Consistent(StopServer(b).next)
  {
  }

  /** So do opening and closing a connection. */
  lemma ConnectionCommandsKeepConsistent(b: Backend, req: ConnectionRequest, connect: IoResult, id: string, connectedAt: string)
    requires Consistent(b)
    ensures Consistent(Connect(b, req, connect, id, connectedAt).next)
    ensures Consistent(Disconnect(b, id).next)
  {
  }

  /** So does one pass of either read loop. */
  lemma LinesKeepConsistent(b: Backend, id: string, line: string, timestamp: string, clientAddr: string)
    requires Consistent(b)
    ensures Consistent(ServerLine(b, line, timestamp, clientAddr))
    ensures Consistent(ConnectionLine(b, id, line, timestamp))
  {
  }

  /** Whole read loops keep it too. */
  lemma {:induction false} StreamsKeepConsistent(b: Backend, id: string, input: string, clientAddr: string, clock: nat -> string, n: nat)
    requires Consistent(b)
    ensures Consistent(ServeStream(b, input, clientAddr, clock, n))
    ensures Consistent(ReceiveStream(b, id, input, clock, n))
    decreases |input|
  {
    if input != [] {
      var (line, rest) := ReadLine(input);
      LinesKeepConsistent(b, id, line, clock(n), clientAddr);
      StreamsKeepConsistent(ServerLine(b, line, clock(n), clientAddr), id, rest, clientAddr, clock, n + 1);
      StreamsKeepConsistent(ConnectionLine(b, id, line, clock(n)), id, rest, clientAddr, clock, n + 1);
    }
  }
}
