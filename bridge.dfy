/**
 * The two halves together: what the frontend's checks guarantee about the backend's own address
 * guard, and how a backend error reaches the frontend. A command's `Err(e)` is serialised as the
 * string `e.to_string()`, so `invoke` rejects with that string.
 */
module Bridge {
  import opened Wrappers
  import opened TcpTypes
  import opened JsText
  import TcpBackend
  import TcpClient

  /** How `invoke` settles for a backend command's result. */
  function Deliver<T>(r: Result<T, TcpBackend.TcpError>): (v: TcpClient.Invocation<T>)
    ensures r.Ok? <==> v.Resolved?
    ensures r.Err? ==> v == TcpClient.Rejected(TcpClient.StringValue(TcpBackend.Display(r.error)))
  {
    match r
    case Ok(value) => TcpClient.Resolved(value)
    case Err(e) => TcpClient.Rejected(TcpClient.StringValue(TcpBackend.Display(e)))
  }

  /**
   * Whatever `validateConnection` accepts, the backend's guard accepts: the trimmed host is not
   * empty and the port is not 0. So a validated start or connect never meets `InvalidAddress`.
   */
  lemma ValidatedAddressPassesGuard(host: string, port: int)
    requires TcpClient.ValidateConnection(host, port).valid
    ensures 0 <= port < 0x1_0000
    ensures !TcpBackend.AddressRejected(Trim(host), port)
  {
  }

  /** The start the frontend invokes is not refused for its address, whatever the bind does. */
  lemma ValidatedStartIsNotRefused(b: TcpBackend.Backend, host: string, port: int, bind: TcpBackend.IoResult)
    requires TcpClient.ValidateConnection(host, port).valid
    ensures TcpBackend.StartServer(b, TcpBackend.ServerConfig(Trim(host), port), bind).reply != Err(TcpBackend.InvalidAddressError)
    ensures bind.IoOk? ==> TcpBackend.StartServer(b, TcpBackend.ServerConfig(Trim(host), port), bind).next.serverRunning
  {
    ValidatedAddressPassesGuard(host, port);
  }

  /** The same for `connect`: a validated request that connects registers its connection. */
  lemma ValidatedConnectRegisters(b: TcpBackend.Backend, host: string, port: int, connect: TcpBackend.IoResult, id: string, at: string)
    requires TcpClient.ValidateConnection(host, port).valid
    ensures var r := TcpBackend.Connect(b, TcpBackend.ConnectionRequest(Trim(host), port), connect, id, at);
      && r.reply != Err(TcpBackend.InvalidAddressError)
      && (connect.IoOk? ==> id in r.next.connections && r.reply.Ok? && r.reply.value.success)
  {
    ValidatedAddressPassesGuard(host, port);
  }

  /**
   * `sendMessage` checks only that the trimmed host is non-empty and the port is in range, which is
   * exactly the backend's guard: anything it invokes passes the guard.
   */
  lemma SentMessagePassesGuard(host: string, port: int, message: string, backend: TcpClient.Invocation<string>)
    requires TcpClient.SendMessage(host, port, message, backend).invoked.Some?
    ensures 0 <= port < 0x1_0000
    ensures var m := TcpBackend.TcpMessage(Trim(host), port, Trim(message));
      TcpBackend.SendTcpMessage(m, TcpBackend.IoOk, TcpBackend.IoOk).reply.Ok?
  {
  }

  /** As written, every backend error reaches the user as the generic text, not as its own message. */
  lemma BackendErrorsShowAsUnknown(e: TcpBackend.TcpError)
    ensures TcpClient.ErrorText(Deliver<string>(Err(e)).reason) == TcpClient.UnknownError
    ensures TcpClient.Relay(Deliver<string>(Err(e))) == TcpClient.Failure(Some("不明なエラーが発生しました"))
  {
  }

  /** A concrete case: disconnecting an unknown id is shown as the generic text. */
  lemma UnknownDisconnectShowsGenericText()
    ensures var reply := TcpBackend.Disconnect(TcpBackend.Initial, "conn-123").reply;
      && reply == Err(TcpBackend.ConnectionNotFound("Connection with ID conn-123 not found"))
      && TcpClient.Disconnect("conn-123", Deliver(reply)).result.error == Some(TcpClient.UnknownError)
  {
    assert "conn-123" !in TcpBackend.Initial.connections;
    assert "Connection with ID " + "conn-123" + " not found" == "Connection with ID conn-123 not found";
  }

  /**
   * With the corrected `catch`, the frontend shows the backend's own text, from which the
   * backend's error can be read back exactly.
   */
  lemma CheckedErrorTextRecoversBackendError(e: TcpBackend.TcpError)
    ensures TcpClient.ErrorTextChecked(Deliver<string>(Err(e)).reason) == TcpBackend.Display(e)
    ensures TcpBackend.ParseError(TcpClient.ErrorTextChecked(Deliver<string>(Err(e)).reason)) == Some(e)
  {
    TcpBackend.DisplayRoundTrip(e);
  }
}
