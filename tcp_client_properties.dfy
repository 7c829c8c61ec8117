/** What the frontend's checks and wrappers promise. */
module TcpClientProperties {
  import opened Wrappers
  import opened TcpTypes
  import opened JsText
  import opened HostGrammar
  import opened TcpClient

  /** A blank host is reported first, whatever the port. */
  lemma BlankHostReportedFirst(host: string, port: int)
    requires IsBlank(host)
    ensures ValidateConnection(host, port) == Validation(false, Some(HostRequired))
  {
    TrimEmptyIffBlank(host);
  }

  /** With a host present, the port range is checked before the host grammar. */
  lemma PortCheckedBeforeGrammar(host: string, port: int)
    requires !IsBlank(host) && (port <= 0 || port > 65535)
    ensures ValidateConnection(host, port) == Validation(false, Some(PortOutOfRange))
  {
    TrimEmptyIffBlank(host);
  }

  /**
   * `validateConnection` accepts exactly a non-blank host whose trimmed form is a dot-join of labels,
   * with a port from 1 to 65535; a host that passes the other checks but not the grammar gets the
   * host error.
   */
  lemma ValidateAcceptsExactly(host: string, port: int)
    ensures ValidateConnection(host, port).valid <==> !IsBlank(host) && PortInRange(port) && MatchesLabels(Trim(host))
    ensures !IsBlank(host) && PortInRange(port) && !MatchesLabels(Trim(host)) ==>
      ValidateConnection(host, port) == Validation(false, Some(InvalidHost))
  {
    TrimEmptyIffBlank(host);
    HostRegexIsLabelGrammar(Trim(host));
  }

  /**
   * The client's test cases, one lemma each. As in `HostGrammar`, each example string is a
   * parameter fixed by `requires`, so that the proof goes through the lemmas instead of
   * evaluating `trim` and the scanner on a literal.
   */
  lemma ValidateLocalhost(host: string)
    requires host == "localhost"
    ensures ValidateConnection(host, 8080) == Validation(true, None)
  {
    TrimOfTrimmed(host);
    LocalhostAccepted(host);
  }

  lemma ValidateEmptyHost()
    ensures ValidateConnection("", 8080) == Validation(false, Some(HostRequired))
  {
  }

  lemma ValidatePortBounds(host: string)
    requires host == "localhost"
    ensures ValidateConnection(host, 0) == Validation(false, Some(PortOutOfRange))
    ensures ValidateConnection(host, 65536) == Validation(false, Some(PortOutOfRange))
  {
    TrimOfTrimmed(host);
  }

  lemma ValidateLoopback(host: string)
    requires host == "127.0.0.1"
    ensures ValidateConnection(host, 8080) == Validation(true, None)
  {
    TrimOfTrimmed(host);
    LoopbackAccepted(host);
  }

  lemma ValidateEmptyLabel(host: string)
    requires host == "invalid..hostname"
    ensures ValidateConnection(host, 8080) == Validation(false, Some(InvalidHost))
  {
    TrimOfTrimmed(host);
    EmptyLabelRefused(host);
  }

  /**
   * `sendMessage` skips the host grammar: a host that `validateConnection` refuses only for its
   * grammar still reaches the backend, trimmed.
   */
  lemma SendMessageSkipsHostGrammar(host: string, port: int, message: string, backend: Invocation<string>)
    requires ValidateConnection(host, port).error == Some(InvalidHost)
    requires !IsBlank(message)
    ensures SendMessage(host, port, message, backend).invoked == Some(SendTcpMessage(TcpMessage(Trim(host), port, Trim(message))))
  {
    TrimEmptyIffBlank(message);
  }

  /** Whatever the backend does, no wrapper with a failed check calls it, and each reports its own error. */
  lemma ChecksShortCircuit(host: string, port: int, message: string, id: string,
                           text: Invocation<string>, conn: Invocation<ConnectionResult>, record: Invocation<SendRecord>)
    ensures !ValidateConnection(host, port).valid ==>
      && StartServer(host, port, text).invoked.None?
      && Connect(host, port, conn).invoked.None?
      && StartServer(host, port, text).result.error == ValidateConnection(host, port).error
      && Connect(host, port, conn).result.error == ValidateConnection(host, port).error
    ensures IsBlank(message) ==>
      && SendMessageOnConnection(id, message, record) == Dispatch(Failure(Some(MessageRequired)), None)
      && (!IsBlank(host) && PortInRange(port) ==> SendMessage(host, port, message, text) == Dispatch(Failure(Some(MessageRequired)), None))
  {
    TrimEmptyIffBlank(host);
    TrimEmptyIffBlank(message);
  }

  /** Any rejection becomes a failure carrying the Error's message, or the generic text for anything else. */
  lemma RejectionsBecomeFailures(t: Thrown, id: string)
    ensures !Relay(Rejected(t)).success && Relay(Rejected(t)).error == Some(ErrorText(t))
    ensures GetReceived(Rejected(t)).result == ReceiveResult(false, [], Some(ErrorText(t)))
    ensures GetReceivedFromConnection(id, Rejected(t)).result == ReceiveResult(false, [], Some(ErrorText(t)))
  {
  }

  /**
   * Arguments that need no trimming and a port in range reach the backend as given, and its
   * answer is relayed as success.
   */
  lemma SendMessageOfTrimmed(host: string, port: int, message: string, reply: string)
    requires host != [] && !IsWhitespace(host[0]) && !IsWhitespace(host[|host| - 1])
    requires message != [] && !IsWhitespace(message[0]) && !IsWhitespace(message[|message| - 1])
    requires PortInRange(port)
    ensures SendMessage(host, port, message, Resolved(reply))
      == Dispatch(SendResult(true, Text(reply), None), Some(SendTcpMessage(TcpMessage(host, port, message))))
  {
    TrimOfTrimmed(host);
    TrimOfTrimmed(message);
  }

  /** The successful test of `sendMessage`: one call, with the trimmed arguments, relayed as success. */
  lemma SendMessageExample(host: string, message: string, reply: string)
    requires host == "localhost" && message == "Hello World" && reply == "Message sent successfully"
    ensures SendMessage(host, 8080, message, Resolved(reply))
      == Dispatch(SendResult(true, Text(reply), None), Some(SendTcpMessage(TcpMessage(host, 8080, message))))
  {
    assert host[0] == 'l' && host[|host| - 1] == 't';
    assert message[0] == 'H' && message[|message| - 1] == 'd';
    SendMessageOfTrimmed(host, 8080, message, reply);
  }

  /**
   * As written, `sendMessageOnConnection` reports success when the backend answered that the write
   * failed: the backend resolves with a record whose `success` is false, and the wrapper ignores it.
   */
  lemma SendOnConnectionHidesWriteFailure(message: string)
    requires message == "Hello"
    ensures var failed := SendRecord(false, "Failed to send message: broken pipe", Some("t"), Some("Send failed: broken pipe"));
      SendMessageOnConnection("conn-123", message, Resolved(failed)).result.success
  {
    TrimOfTrimmed(message);
  }

  /** The corrected wrapper reports the same failure as a failure, with the backend's error. */
  lemma CheckedSendOnConnectionReportsWriteFailure(message: string)
    requires message == "Hello"
    ensures var failed := SendRecord(false, "Failed to send message: broken pipe", Some("t"), Some("Send failed: broken pipe"));
      var d := SendMessageOnConnectionChecked("conn-123", message, Resolved(failed));
      !d.result.success && d.result.error == Some("Send failed: broken pipe")
  {
    TrimOfTrimmed(message);
  }
}
