/**
 * The frontend's `TcpClient` (src/lib/tcp-client.ts): static wrappers that check their arguments and
 * then make at most one backend call. The backend call, Tauri's `invoke`, is a parameter: what it
 * would resolve or reject with. Each wrapper answers with its result and the command it invoked, if
 * any, so that "never calls the backend" can be stated.
 */
module TcpClient {
  import opened Wrappers
  import opened TcpTypes
  import opened JsText
  import opened HostGrammar

  const HostRequired := "ホスト名は必須です"
  const PortOutOfRange := "ポート番号は1-65535の範囲で指定してください"
  const InvalidHost := "無効なホスト名またはIPアドレスです"
  const MessageRequired := "メッセージは必須です"
  const UnknownError := "不明なエラーが発生しました"

  predicate PortInRange(port: int)
  {
    1 <= port <= 65535
  }

  datatype Validation = Validation(valid: bool, error: Option<string>)

  /** `validateConnection`: trimmed host present, then port range, then the host grammar. */
  function ValidateConnection(host: string, port: int): (r: Validation)
    ensures r.valid <==> r.error.None?
  {
    if Trim(host) == [] then Validation(false, Some(HostRequired))
    else if !PortInRange(port) then Validation(false, Some(PortOutOfRange))
    else if !MatchesHostRegex(Trim(host)) then Validation(false, Some(InvalidHost))
    else Validation(true, None)
  }

  /** A rejected promise's value: an `Error` instance, a string, or any other value. */
  datatype Thrown = ErrorInstance(message: string) | StringValue(text: string) | OtherValue

  /** The `catch` clauses as written: an `Error`'s message, and the generic text for anything else. */
  function ErrorText(t: Thrown): (r: string)
    ensures t.ErrorInstance? ==> r == t.message
    ensures !t.ErrorInstance? ==> r == UnknownError
  {
    match t
    case ErrorInstance(message) => message
    case _ => UnknownError
  }

  /** The evidently intended `catch`: a rejected string is shown as it is, too. */
  function ErrorTextChecked(t: Thrown): (r: string)
    ensures t.ErrorInstance? ==> r == t.message
    ensures t.StringValue? ==> r == t.text
    ensures t.OtherValue? ==> r == UnknownError
  {
    match t
    case ErrorInstance(message) => message
    case StringValue(text) => text
    case OtherValue => UnknownError
  }

  /** What `invoke` would settle with, if called. */
  datatype Invocation<+T> = Resolved(value: T) | Rejected(reason: Thrown)

  datatype TcpMessage = TcpMessage(host: string, port: int, message: string)

  /** The backend commands, with the arguments the frontend passes. */
  datatype Command =
    | SendTcpMessage(tcpMessage: TcpMessage)
    | StartTcpServer(host: string, port: int)
    | StopTcpServer
    | GetReceivedMessages
    | ConnectTcp(host: string, port: int)
    | DisconnectTcp(connectionId: string)
    | SendTcpMessageOnConnection(connectionId: string, message: string)
    | GetReceivedMessagesFromConnection(connectionId: string)

  /**
   * The `message` field of the frontend's `TcpSendResult`. It is a string everywhere except in
   * `sendMessageOnConnection`, which stores there whatever the backend resolved with: a record.
   */
  datatype Payload = Text(text: string) | Record(record: SendRecord)

  datatype SendResult = SendResult(success: bool, message: Payload, error: Option<string>)

  /** A wrapper's answer and the command it invoked, if any. */
  datatype Dispatch<+R> = Dispatch(result: R, invoked: Option<Command>)

  function Failure(error: Option<string>): SendResult
  {
    SendResult(false, Text(""), error)
  }

  /** The shared tail of the string-returning wrappers: success with the backend's text, or its error. */
  function Relay(backend: Invocation<string>): SendResult
  {
    match backend
    case Resolved(v) => SendResult(true, Text(v), None)
    case Rejected(t) => Failure(Some(ErrorText(t)))
  }

  /**
   * `sendMessage`: trimmed host present, port in range, trimmed message present, in that order; no
   * host grammar. Only then the backend is called, with the trimmed host and message.
   */
  function SendMessage(host: string, port: int, message: string, backend: Invocation<string>): (d: Dispatch<SendResult>)
    ensures d.invoked.Some? <==> Trim(host) != [] && PortInRange(port) && Trim(message) != []
    ensures d.invoked.Some? ==> d.invoked.value == SendTcpMessage(TcpMessage(Trim(host), port, Trim(message)))
    ensures Trim(host) == [] ==> d.result == Failure(Some(HostRequired))
    ensures Trim(host) != [] && !PortInRange(port) ==> d.result == Failure(Some(PortOutOfRange))
    ensures Trim(host) != [] && PortInRange(port) && Trim(message) == [] ==> d.result == Failure(Some(MessageRequired))
    ensures d.invoked.Some? ==> d.result == Relay(backend)
  {
    var tcpMessage := TcpMessage(Trim(host), port, Trim(message));
    if tcpMessage.host == [] then Dispatch(Failure(Some(HostRequired)), None)
    else if tcpMessage.port <= 0 || tcpMessage.port > 65535 then Dispatch(Failure(Some(PortOutOfRange)), None)
    else if tcpMessage.message == [] then Dispatch(Failure(Some(MessageRequired)), None)
    else Dispatch(Relay(backend), Some(SendTcpMessage(tcpMessage)))
  }

  /** `startServer`: `validateConnection`, then the backend with the trimmed host. */
  function StartServer(host: string, port: int, backend: Invocation<string>): (d: Dispatch<SendResult>)
    ensures d.invoked.Some? <==> ValidateConnection(host, port).valid
    ensures d.invoked.Some? ==> d.invoked.value == StartTcpServer(Trim(host), port) && d.result == Relay(backend)
    ensures d.invoked.None? ==> d.result == Failure(ValidateConnection(host, port).error)
  {
    var validation := ValidateConnection(host, port);
    if !validation.valid then Dispatch(Failure(validation.error), None)
    else Dispatch(Relay(backend), Some(StartTcpServer(Trim(host), port)))
  }

  /** `stopServer`: always calls the backend. */
  function StopServer(backend: Invocation<string>): (d: Dispatch<SendResult>)
    ensures d.invoked == Some(StopTcpServer)
    ensures d.result.success <==> backend.Resolved?
    ensures backend.Resolved? ==> d.result == SendResult(true, Text(backend.value), None)
    ensures backend.Rejected? ==> d.result == Failure(Some(ErrorText(backend.reason)))
  {
    Dispatch(Relay(backend), Some(StopTcpServer))
  }

  /** The `catch` of both drains: failure with no messages. */
  function DrainFailure(t: Thrown): ReceiveResult
  {
    ReceiveResult(false, [], Some(ErrorText(t)))
  }

  /** `getReceivedMessages`: the backend's record as it is, or a failure with no messages. */
  function GetReceived(backend: Invocation<ReceiveResult>): (d: Dispatch<ReceiveResult>)
    ensures d.invoked == Some(GetReceivedMessages)
    ensures backend.Resolved? ==> d.result == backend.value
    ensures backend.Rejected? ==> !d.result.success && d.result.messages == [] && d.result.error == Some(ErrorText(backend.reason))
  {
    match backend
    case Resolved(v) => Dispatch(v, Some(GetReceivedMessages))
    case Rejected(t) => Dispatch(DrainFailure(t), Some(GetReceivedMessages))
  }

  /** `connect`: `validateConnection`, then the backend's record as it is. */
  function Connect(host: string, port: int, backend: Invocation<ConnectionResult>): (d: Dispatch<ConnectionResult>)
    ensures d.invoked.Some? <==> ValidateConnection(host, port).valid
    ensures d.invoked.Some? ==> d.invoked.value == ConnectTcp(Trim(host), port)
    ensures d.invoked.None? ==> d.result == ConnectionResult(false, None, ValidateConnection(host, port).error)
    ensures d.invoked.Some? && backend.Resolved? ==> d.result == backend.value
    ensures d.invoked.Some? && backend.Rejected? ==> d.result == ConnectionResult(false, None, Some(ErrorText(backend.reason)))
  {
    var validation := ValidateConnection(host, port);
    if !validation.valid then Dispatch(ConnectionResult(false, None, validation.error), None)
    else
      var result := match backend
        case Resolved(v) => v
        case Rejected(t) => ConnectionResult(false, None, Some(ErrorText(t)));
      Dispatch(result, Some(ConnectTcp(Trim(host), port)))
  }

  /** `disconnect`: no check of its own; the id is passed as it is. */
  function Disconnect(connectionId: string, backend: Invocation<string>): (d: Dispatch<SendResult>)
    ensures d.invoked == Some(DisconnectTcp(connectionId))
    ensures d.result.success <==> backend.Resolved?
    ensures backend.Resolved? ==> d.result == SendResult(true, Text(backend.value), None)
    ensures backend.Rejected? ==> d.result == Failure(Some(ErrorText(backend.reason)))
  {
    Dispatch(Relay(backend), Some(DisconnectTcp(connectionId)))
  }

  /**
   * `sendMessageOnConnection` as written: a blank message is refused before anything else, whatever
   * the id; otherwise the trimmed message is sent and the call reports `success = true` with the
   * backend's record as its message, whatever that record says.
   */
  function SendMessageOnConnection(connectionId: string, message: string, backend: Invocation<SendRecord>): (d: Dispatch<SendResult>)
    ensures d.invoked.Some? <==> Trim(message) != []
    ensures d.invoked.Some? ==> d.invoked.value == SendTcpMessageOnConnection(connectionId, Trim(message))
    ensures d.invoked.None? ==> d.result == Failure(Some(MessageRequired))
    ensures d.result.success <==> d.invoked.Some? && backend.Resolved?
    ensures d.invoked.Some? && backend.Resolved? ==> d.result == SendResult(true, Record(backend.value), None)
    ensures d.invoked.Some? && backend.Rejected? ==> d.result == Failure(Some(ErrorText(backend.reason)))
  {
    if Trim(message) == [] then Dispatch(Failure(Some(MessageRequired)), None)
    else
      var result := match backend
        case Resolved(v) => SendResult(true, Record(v), None)
        case Rejected(t) => Failure(Some(ErrorText(t)));
      Dispatch(result, Some(SendTcpMessageOnConnection(connectionId, Trim(message))))
  }

  /**
   * The evidently intended `sendMessageOnConnection`: the same checks and the same call, but it
   * reports the backend record's own success, message and error.
   */
  function SendMessageOnConnectionChecked(connectionId: string, message: string, backend: Invocation<SendRecord>): (d: Dispatch<SendResult>)
    ensures d.invoked == SendMessageOnConnection(connectionId, message, backend).invoked
    ensures d.invoked.None? ==> d.result == Failure(Some(MessageRequired))
    ensures d.result.success <==> d.invoked.Some? && backend.Resolved? && backend.value.success
    ensures d.invoked.Some? && backend.Resolved? ==> d.result.message == Text(backend.value.message) && d.result.error == backend.value.error
    ensures d.invoked.Some? && backend.Rejected? ==> d.result == Failure(Some(ErrorText(backend.reason)))
  {
    if Trim(message) == [] then Dispatch(Failure(Some(MessageRequired)), None)
    else
      var result := match backend
        case Resolved(v) => SendResult(v.success, Text(v.message), v.error)
        case Rejected(t) => Failure(Some(ErrorText(t)));
      Dispatch(result, Some(SendTcpMessageOnConnection(connectionId, Trim(message))))
  }

  /** `getReceivedMessagesFromConnection`: the backend's record as it is, or a failure with no messages. */
  function GetReceivedFromConnection(connectionId: string, backend: Invocation<ReceiveResult>): (d: Dispatch<ReceiveResult>)
    ensures d.invoked == Some(GetReceivedMessagesFromConnection(connectionId))
    ensures backend.Resolved? ==> d.result == backend.value
    ensures backend.Rejected? ==> !d.result.success && d.result.messages == [] && d.result.error == Some(ErrorText(backend.reason))
  {
    match backend
    case Resolved(v) => Dispatch(v, Some(GetReceivedMessagesFromConnection(connectionId)))
    case Rejected(t) => Dispatch(DrainFailure(t), Some(GetReceivedMessagesFromConnection(connectionId)))
  }
}
