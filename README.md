# TCP tester: a verified model of its messaging core

The application is a desktop TCP test tool. A Rust (Tauri) backend sends one-shot messages, runs
one inbound TCP server that collects lines into a process-wide buffer, and keeps a registry of
outbound connections, each of which collects the lines its peer sends into its own buffer. A
TypeScript frontend checks the user's input and calls the backend through Tauri's `invoke`. There
is also a stand-alone debug server that counts connections and messages, and a settings store that
keeps the font size. This project models four parts:

- `src-tauri/src/tcp.rs`, the backend commands and read loops: modules `TcpBackend` and
  `TcpBackendProperties`, with the line handling shared by both servers in `LineProtocol` and the
  serialised record shapes in `TcpTypes`. The process-wide state (`CONNECTIONS`,
  `RECEIVED_MESSAGES`, `SERVER_HANDLE`) is the class `TcpState`. Every command is also a function
  on the value `Backend`. Each method is proved to follow its function, and the lemmas are stated
  over those functions.
- `src/lib/tcp-client.ts`, the frontend wrappers, as functions: modules `TcpClient` and
  `TcpClientProperties`. JavaScript's `String.prototype.trim` is in `JsText`. The host regular
  expression of `validateConnection` is in `HostGrammar`, a scanner proved equal to a plain
  "dot-separated labels" grammar.
- `tools/tcp-server/src/main.rs`, the debug server: module `DebugServer`, class `ServerStats`.
- `src/lib/stores/settings.ts`, the font-size settings: modules `FontSettings`, which has the class
  `SettingsStore`, and `FontSettingsProperties`.

The module `Bridge` connects the two sides. It proves that what the frontend validates always
passes the backend's address guard. It also follows how a backend error reaches the user.

Everything outside these programs is a parameter:

- whether a socket connect, bind, write or flush succeeds (`IoResult`), and whether `Store.load`
  succeeds (`LoadAttempt`);
- what `invoke` settles with (`Invocation`);
- the bytes a peer sends (a `string` read to its end);
- the clock (`clock(n)` stamps the `n`-th line read); the connect time is passed in with each call;
- the UUID of a new connection (`id`).

Where the code's behaviour may surprise a reader, the model follows the code:

- `send_tcp_message_on_connection` frames a message with a line feed (`tcp.rs:402-404`), although
  its comment speaks of a carriage return. This is the one place where code and comment disagree.
- Starting the server while one runs replaces the old one instead of refusing (`tcp.rs:191-192`).
- Disconnecting an unknown id is an error (`tcp.rs:382-387`).
- Disconnecting drops the connection's buffer with it (`tcp.rs:370`).
- The one-shot send reads no reply; it answers "Message sent successfully to host:port"
  (`tcp.rs:153-156`).
- The backend's address guard tests `host.is_empty()` on the host as given, without trimming
  (`tcp.rs:120`, `185`, `305`). It is the frontend that trims.

## Model

| member | source | states |
|---|---|---|
| LineProtocol.TrimEndMatches | src-tauri/src/tcp.rs:275 | `trim_end_matches(c)`: the result is a prefix of the input, does not end in `c`, and only copies of `c` were removed |
| LineProtocol.CleanLine | src-tauri/src/tcp.rs:275 | removing trailing `'\r'`s, then trailing `'\n'`s, leaves a prefix of the line that does not end in `'\n'` |
| LineProtocol.ReadLine | src-tauri/src/tcp.rs:268-273 | `read_line` splits the input into a line and the rest, losing nothing; the line is empty only at the end of the input; `'\n'` can only be its last character; the read stops after the first `'\n'` |
| LineProtocol.ReceivedLines | src-tauri/src/tcp.rs:266-295 | the messages a read loop keeps from a stream are all non-empty |
| LineProtocol.OneShotFrame | src-tauri/src/tcp.rs:137 | the one-shot frame is the message followed by exactly one `'\r'` |
| LineProtocol.ConnectionFrame | src-tauri/src/tcp.rs:403-404 | a connection's frame is the message followed by exactly one `'\n'` |
| LineProtocol.ReadLineOfFrame | src-tauri/src/tcp.rs:268-273 | a line with no `'\n'` in it, followed by `'\n'`, is read back as exactly that frame |
| LineProtocol.ReadLineOfUnterminated | src-tauri/src/tcp.rs:268-273 | a final line without `'\n'` is read whole, up to the end of the stream |
| LineProtocol.CleanConnectionFrame | src-tauri/src/tcp.rs:402-404 | cleaning `m + "\n"` gives back `m` when `m` holds no `'\n'` |
| LineProtocol.ConnectionStreamRoundTrip | src-tauri/src/tcp.rs:402-404 | a peer's read loop receives a sequence of single-line messages framed with `'\n'` exactly, in order |
| LineProtocol.OneShotReceived | src-tauri/src/tcp.rs:138 | a one-shot frame `m + "\r"` is received as `m` with its trailing carriage returns removed, or as nothing |
| LineProtocol.OneShotReceivedIntact | src-tauri/src/tcp.rs:138 | a single-line message not ending in `'\r'` is received intact from its one-shot frame |
| LineProtocol.CrLfKeepsCarriageReturn | src-tauri/src/tcp.rs:275 | because `'\r'` is trimmed before `'\n'`, `"abc\r\n"` is kept as `"abc\r"` |
| LineProtocol.BareLineFeedDropped | src-tauri/src/tcp.rs:276 | an empty line is not stored |
| LineProtocol.BareCrLfKept | src-tauri/src/tcp.rs:275-276 | `"\r\n"` is stored as `"\r"`, not dropped |
| TcpTypes.Texts | src-tauri/src/tcp.rs:57-61 | the texts of a message list, in order, one per message |
| TcpBackend.Display | src-tauri/src/tcp.rs:92-101 | an error displays as a non-empty prefix followed by its own detail text; DisplayRoundTrip shows the prefix names the variant |
| TcpBackend.DisplayRoundTrip | src-tauri/src/tcp.rs:92-101 | each error's display string parses back to that error: its prefix names the variant and the rest is its text |
| TcpBackend.DisplayInjective | src-tauri/src/tcp.rs:92-101 | two different errors never display the same string |
| TcpBackend.DecimalString | src-tauri/src/tcp.rs:117 | the decimal text of a port is non-empty, made of digits, and starts with '0' exactly when the port is zero (no leading zeros) |
| TcpBackend.DecimalStringValue | src-tauri/src/tcp.rs:117 | read back left to right as a decimal numeral, the printed digits are the port's value |
| TcpBackend.DecimalStringInjective | src-tauri/src/tcp.rs:117 | two ports print the same text exactly when they are equal |
| TcpBackend.Address | src-tauri/src/tcp.rs:117 | `format!("{}:{}")`: the host as given, one `':'`, then the port's decimal text |
| TcpBackend.SendTcpMessage | src-tauri/src/tcp.rs:115-157 | one-shot send: an empty host or port 0 is refused before connecting; bytes are written only after a connect succeeds, and then they are `message + "\r"`; the reply is `Ok` exactly when connect and write both succeed; a connect failure is `ConnectionFailed` and a write failure is `SendFailed` |
| TcpBackend.StopServer | src-tauri/src/tcp.rs:234-245 | stopping never fails, leaves connections and the buffer alone and leaves no server running |
| TcpBackend.StartServer | src-tauri/src/tcp.rs:180-232 | a rejected address changes nothing; otherwise connections are kept, the buffer is emptied, and the server runs and the reply is `Ok` exactly when the bind succeeds |
| TcpBackend.Connect | src-tauri/src/tcp.rs:298-363 | `Ok` exactly when the address passes the guard and the connect succeeds; then `id` is registered with an empty buffer and nothing else changes; on an error nothing changes |
| TcpBackend.Disconnect | src-tauri/src/tcp.rs:365-388 | `Ok` exactly for a known id, which is removed with its buffer; an unknown id is the not-found error with no change; the global buffer and server are untouched |
| TcpBackend.SendOnConnection | src-tauri/src/tcp.rs:390-438 | bytes are written exactly for a known id, and they are the `'\n'` frame; the reply is then a record, successful exactly when write and flush succeed, stamped with the send time; an unknown id is the not-found error |
| TcpBackend.ServerLine | src-tauri/src/tcp.rs:274-287 | one server read grows the global buffer by one entry exactly when the cleaned line is non-empty, keeping the old buffer as a prefix and the rest of the state |
| TcpBackend.ConnectionLine | src-tauri/src/tcp.rs:480-505 | one connection read changes no buffer but that connection's, and neither the global buffer nor the set of connections |
| TcpBackend.ServeStream | src-tauri/src/tcp.rs:259-296 | a whole client stream only extends the global buffer, keeping connections and the server flag |
| TcpBackend.ReceiveStream | src-tauri/src/tcp.rs:464-514 | a whole connection stream keeps the global buffer, the server flag and the set of connections |
| TcpBackend.TcpState.constructor | src-tauri/src/tcp.rs:166-170 | the state starts with no connections, an empty buffer and no server |
| TcpBackend.TcpState.StopTcpServer | src-tauri/src/tcp.rs:234-245 | the state and reply follow `StopServer`: the server is gone and the reply says whether one ran |
| TcpBackend.TcpState.StartTcpServer | src-tauri/src/tcp.rs:180-232 | the state and reply follow `StartServer`: check the address, stop any server, clear the buffer, then bind |
| TcpBackend.TcpState.GetReceivedMessages | src-tauri/src/tcp.rs:247-256 | the reply is a successful copy of the whole global buffer |
| TcpBackend.TcpState.ConnectTcp | src-tauri/src/tcp.rs:298-363 | the state and reply follow `Connect`: check the address, connect, register `id` with an empty buffer |
| TcpBackend.TcpState.DisconnectTcp | src-tauri/src/tcp.rs:365-388 | the state and reply follow `Disconnect`: a known id is removed with its buffer, an unknown one is an error |
| TcpBackend.TcpState.SendTcpMessageOnConnection | src-tauri/src/tcp.rs:390-438 | bytes are written exactly when the id is known, and then they are `message + "\n"` and the reply is `Ok`; the state is unchanged |
| TcpBackend.TcpState.GetReceivedMessagesFromConnection | src-tauri/src/tcp.rs:440-462 | the reply is `Ok` exactly for a known id, and then it holds that connection's whole buffer |
| TcpBackend.TcpState.DeliverServerLine | src-tauri/src/tcp.rs:274-287 | one pass of the server's read loop appends the cleaned line, if it is non-empty, to the global buffer |
| TcpBackend.TcpState.DeliverConnectionLine | src-tauri/src/tcp.rs:480-505 | one pass of a connection's read loop appends the cleaned line, if it is non-empty, to that connection's buffer |
| TcpBackend.TcpState.HandleTcpClient | src-tauri/src/tcp.rs:259-296 | the read loop over a client's whole stream leaves the state `ServeStream` describes |
| TcpBackend.TcpState.HandleConnectionReceiver | src-tauri/src/tcp.rs:464-514 | the read loop over a connection's whole stream leaves the state `ReceiveStream` describes |
| TcpBackendProperties.RejectedAddressTouchesNothing | src-tauri/src/tcp.rs:120-124 | an empty host or port 0 is refused by send, start and connect with `InvalidAddress("Host and port must be valid")`, and the state is unchanged |
| TcpBackendProperties.StartResetsServer | src-tauri/src/tcp.rs:190-231 | a valid start empties the global buffer and keeps the connections; the server runs and the reply is `Ok("TCP server started on host:port")` exactly when the bind succeeds; otherwise the reply is `ServerStartFailed` |
| TcpBackendProperties.StopReports | src-tauri/src/tcp.rs:234-245 | stop never fails and leaves no server; it answers "TCP server stopped" exactly when a server was running, and "No server was running" otherwise |
| TcpBackendProperties.StopIsIdempotent | src-tauri/src/tcp.rs:234-245 | a second stop changes nothing and reports that no server was running |
| TcpBackendProperties.ConnectRegistersFreshEntry | src-tauri/src/tcp.rs:322-362 | a successful connect under a fresh id adds exactly that key, with an empty buffer, and changes nothing else |
| TcpBackendProperties.FailedConnectTouchesNothing | src-tauri/src/tcp.rs:311-320 | a failed connect reports a connection failure (or the address error) and changes nothing |
| TcpBackendProperties.TwoConnectsTwoEntries | src-tauri/src/tcp.rs:322-356 | two connects to the same address under two ids give two separate, empty entries |
| TcpBackendProperties.DisconnectRemovesKnown | src-tauri/src/tcp.rs:370-380 | disconnecting a known id removes it and answers "Connection closed successfully"; its buffer can no longer be read |
| TcpBackendProperties.DisconnectUnknownFails | src-tauri/src/tcp.rs:382-387 | disconnecting an unknown id answers `ConnectionNotFound("Connection with ID <id> not found")` and changes nothing |
| TcpBackendProperties.SecondDisconnectFails | src-tauri/src/tcp.rs:365-388 | a second disconnect of the same id always fails |
| TcpBackendProperties.ConnectThenDisconnect | src-tauri/src/tcp.rs:298-388 | connecting under a fresh id and then disconnecting it gives back the original state |
| TcpBackendProperties.SendOnConnectionOutcome | src-tauri/src/tcp.rs:390-438 | bytes are written exactly on a known connection, and they are `message + "\n"`; an unknown id is `ConnectionNotFound`; otherwise the record says success exactly when write and flush succeed, with the send timestamp |
| TcpBackendProperties.SendOnConnectionDelivers | src-tauri/src/tcp.rs:402-404 | a single-line message sent on a connection reaches a peer running the same read loop intact |
| TcpBackendProperties.OneShotDelivers | src-tauri/src/tcp.rs:138-141 | a single-line one-shot message not ending in `'\r'` reaches such a peer intact |
| TcpBackendProperties.TextsAppend | src-tauri/src/tcp.rs:283-284 | the texts of two buffers joined are the two text lists joined |
| TcpBackendProperties.StreamMessagesAreReceivedLines | src-tauri/src/tcp.rs:276-282 | what a stream adds is its received lines, each stamped with the client's address |
| TcpBackendProperties.ServerLineIsAppend | src-tauri/src/tcp.rs:275-287 | one line read by the server appends its cleaned text to the global buffer, or nothing when that text is empty; connections and the server flag are untouched |
| TcpBackendProperties.ServeStreamIsAppend | src-tauri/src/tcp.rs:259-296 | the server's read loop only appends to the global buffer |
| TcpBackendProperties.ServeStreamAppends | src-tauri/src/tcp.rs:259-296 | the server's read loop keeps the old buffer as a prefix and appends exactly the stream's received lines, in order, stamped with the client's address; connections and server state are untouched |
| TcpBackendProperties.ConnectionLineIsAppend | src-tauri/src/tcp.rs:481-490 | one line received on a known connection appends its kept message to that buffer alone |
| TcpBackendProperties.AppendTwice | src-tauri/src/tcp.rs:489-490 | appending twice to one buffer is appending the two parts joined |
| TcpBackendProperties.ReceiveStreamIsAppend | src-tauri/src/tcp.rs:464-514 | a connection's read loop only appends to that connection's buffer |
| TcpBackendProperties.ReceiveStreamAppends | src-tauri/src/tcp.rs:464-514 | a connection's read loop appends exactly the stream's received lines to its own buffer, in order; the global buffer and all other connections are untouched |
| TcpBackendProperties.ConnectedLinesDrainInOrder | src-tauri/src/tcp.rs:298-362 | after a connect, lines the peer sends framed with `'\n'` are drained from the new connection exactly and in order |
| TcpBackendProperties.ServerCommandsKeepConsistent | src-tauri/src/tcp.rs:180-245 | starting and stopping the server keep the invariant: stored messages are non-empty, and each connection's messages are stamped "Connection <id>" |
| TcpBackendProperties.ConnectionCommandsKeepConsistent | src-tauri/src/tcp.rs:298-388 | connecting and disconnecting keep the same invariant |
| TcpBackendProperties.LinesKeepConsistent | src-tauri/src/tcp.rs:275-287 | one pass of either read loop keeps the same invariant |
| TcpBackendProperties.StreamsKeepConsistent | src-tauri/src/tcp.rs:259-296 | both read loops keep the same invariant over a whole stream |
| JsText.TrimStart | src/lib/tcp-client.ts:19 | the result is a suffix of the input; only white space was removed; it starts with no white space |
| JsText.TrimEnd | src/lib/tcp-client.ts:19 | the result is a prefix of the input; only white space was removed; it ends with no white space |
| JsText.Trim | src/lib/tcp-client.ts:19-21 | `trim()` is a contiguous slice of the input with blank runs on both sides, and has no white space at either end |
| JsText.TrimEmptyIffBlank | src/lib/tcp-client.ts:25 | `!s.trim()` holds exactly when every character of `s` is white space |
| JsText.TrimOfTrimmed | src/lib/tcp-client.ts:19 | a string with no white space at either end trims to itself |
| JsText.TrimIdempotent | src/lib/tcp-client.ts:19 | trimming twice gives the same as trimming once |
| HostGrammar.DotIndex | src/lib/tcp-client.ts:80 | the index of the first `'.'`, or the length when there is none |
| HostGrammar.Split | src/lib/tcp-client.ts:80 | splitting at dots gives dot-free pieces whose join is the input |
| HostGrammar.LabelHasNoDot | src/lib/tcp-client.ts:80 | a hostname label contains no dot |
| HostGrammar.DotIndexOfJoin | src/lib/tcp-client.ts:80 | in a dot-free piece followed by a dot, the first dot comes right after the piece |
| HostGrammar.SplitJoin | src/lib/tcp-client.ts:80 | splitting a dot-join of dot-free pieces gives back the pieces |
| HostGrammar.AllLabelsMeansEach | src/lib/tcp-client.ts:80 | the recursive "all labels" check means each piece is a label |
| HostGrammar.MatchesLabelsIffPiecesAreLabels | src/lib/tcp-client.ts:80 | the regular expression's first branch matches exactly when every dot-separated piece is a label: 1 to 63 letters, digits or hyphens, with a letter or digit at both ends |
| HostGrammar.JoinOfLabelsMatches | src/lib/tcp-client.ts:80 | a dot-join of labels matches the hostname branch |
| HostGrammar.DigitGroupIsLabel | src/lib/tcp-client.ts:80 | one to three digits form a label |
| HostGrammar.DigitGroupsMatchLabels | src/lib/tcp-client.ts:80 | anything the dotted-digits branch matches is also matched by the hostname branch |
| HostGrammar.HostRegexIsLabelGrammar | src/lib/tcp-client.ts:79-81 | the whole regular expression is equivalent to its hostname branch alone |
| HostGrammar.PiecesDecide | src/lib/tcp-client.ts:80 | the regular expression is decided by the dot-separated pieces |
| HostGrammar.LocalhostAccepted | src/lib/tcp-client.test.ts:22-26 | `localhost` matches |
| HostGrammar.LoopbackAccepted | src/lib/tcp-client.test.ts:46-50 | `127.0.0.1` matches |
| HostGrammar.OutOfRangeOctetsAccepted | src/lib/tcp-client.ts:80 | `999.999.999.999` matches: octet values are not checked |
| HostGrammar.EmptyLabelRefused | src/lib/tcp-client.test.ts:52-56 | `invalid..hostname` does not match |
| HostGrammar.LeadingHyphenRefused | src/lib/tcp-client.ts:80 | a label starting with a hyphen does not match |
| HostGrammar.TrailingDotRefused | src/lib/tcp-client.ts:80 | a trailing dot (an empty last label) does not match |
| TcpClient.ValidateConnection | src/lib/tcp-client.ts:69-86 | the result is valid exactly when it carries no error |
| TcpClient.ErrorText | src/lib/tcp-client.ts:61 | the shown error is an `Error`'s message; for any other rejected value it is "不明なエラーが発生しました" |
| TcpClient.ErrorTextChecked | src/lib/tcp-client.ts:61 | the corrected `catch`: an `Error`'s message, a rejected string as it is, and the generic text only for any other value |
| TcpClient.SendMessage | src/lib/tcp-client.ts:16-64 | the backend is called exactly when the trimmed host is non-empty, the port is in 1..65535 and the trimmed message is non-empty, and then with the trimmed values; each failed check gives its own error, in that order; after a call, success is the backend's |
| TcpClient.StartServer | src/lib/tcp-client.ts:91-123 | the backend is called exactly when `validateConnection` accepts, and then with the trimmed host; otherwise the result carries the validation's error |
| TcpClient.StopServer | src/lib/tcp-client.ts:128-144 | always calls the backend; a resolved string becomes the success message with no error, a rejection a failure carrying the shown error text |
| TcpClient.GetReceived | src/lib/tcp-client.ts:149-161 | always calls the backend; returns its record as it is, or on rejection a failure with no messages |
| TcpClient.Connect | src/lib/tcp-client.ts:166-194 | the backend is called exactly when `validateConnection` accepts, with the trimmed host; its record is returned as it is; a rejection or a failed check gives a failure with no connection |
| TcpClient.Disconnect | src/lib/tcp-client.ts:199-215 | always calls the backend with the id as given; a resolved string becomes the success message with no error, a rejection a failure carrying the shown error text |
| TcpClient.SendMessageOnConnection | src/lib/tcp-client.ts:220-253 | as written: a blank message is refused without a call; otherwise the trimmed message is sent, any resolved record is reported as success with the record as its message, and a rejection is a failure carrying the shown error text |
| TcpClient.SendMessageOnConnectionChecked | src/lib/tcp-client.ts:220-253 | corrected: the same checks and call; success exactly when the backend resolves with a successful record, whose message and error are passed on |
| TcpClient.GetReceivedFromConnection | src/lib/tcp-client.ts:258-272 | always calls the backend with the id; returns its record as it is, or on rejection a failure with no messages |
| TcpClientProperties.BlankHostReportedFirst | src/lib/tcp-client.ts:70-72 | an all-blank host is reported as "ホスト名は必須です", whatever the port |
| TcpClientProperties.PortCheckedBeforeGrammar | src/lib/tcp-client.ts:74-76 | with a host present, a port outside 1..65535 is reported before the host is checked against the grammar |
| TcpClientProperties.ValidateAcceptsExactly | src/lib/tcp-client.ts:69-86 | `validateConnection` accepts exactly a non-blank host whose trimmed form is a dot-join of labels, with a port in 1..65535; a host failing only the grammar gets "無効なホスト名またはIPアドレスです" |
| TcpClientProperties.ValidateLocalhost | src/lib/tcp-client.test.ts:22-26 | `localhost:8080` is valid |
| TcpClientProperties.ValidateEmptyHost | src/lib/tcp-client.test.ts:28-32 | an empty host gives the host-required error |
| TcpClientProperties.ValidatePortBounds | src/lib/tcp-client.test.ts:34-44 | ports 0 and 65536 give the port-range error |
| TcpClientProperties.ValidateLoopback | src/lib/tcp-client.test.ts:46-50 | `127.0.0.1:8080` is valid |
| TcpClientProperties.ValidateEmptyLabel | src/lib/tcp-client.test.ts:52-56 | `invalid..hostname` gives the invalid-host error |
| TcpClientProperties.SendMessageSkipsHostGrammar | src/lib/tcp-client.ts:24-50 | `sendMessage` does not check the host grammar: a host refused only for its grammar still reaches the backend, trimmed |
| TcpClientProperties.ChecksShortCircuit | src/lib/tcp-client.ts:98-106 | a wrapper whose check fails never calls the backend and reports its check's error |
| TcpClientProperties.RejectionsBecomeFailures | src/lib/tcp-client.ts:56-63 | any rejection becomes an unsuccessful result carrying the shown error; a drain then has no messages |
| TcpClientProperties.SendMessageOfTrimmed | src/lib/tcp-client.ts:16-64 | arguments with no surrounding white space and a port in range are sent exactly as given, and a resolved answer is relayed as success |
| TcpClientProperties.SendMessageExample | src/lib/tcp-client.test.ts:60-76 | the successful `sendMessage` test: one call with the trimmed arguments, relayed as success |
| TcpClientProperties.SendOnConnectionHidesWriteFailure | src/lib/tcp-client.ts:239-244 | as written, a backend record saying the write failed is reported as success |
| TcpClientProperties.CheckedSendOnConnectionReportsWriteFailure | src/lib/tcp-client.ts:239-244 | corrected, the same record is reported as a failure with the backend's error |
| Bridge.Deliver | src-tauri/src/tcp.rs:105-113 | a command's `Ok` resolves; its `Err(e)` rejects with the string `e.to_string()` |
| Bridge.ValidatedAddressPassesGuard | src-tauri/src/tcp.rs:185 | what `validateConnection` accepts always passes the backend's address guard |
| Bridge.ValidatedStartIsNotRefused | src-tauri/src/tcp.rs:180-232 | a start the frontend sends is never refused for its address; it runs when the bind succeeds |
| Bridge.ValidatedConnectRegisters | src-tauri/src/tcp.rs:298-363 | a connect the frontend sends is never refused for its address; when the connect succeeds, its id is registered |
| Bridge.SentMessagePassesGuard | src-tauri/src/tcp.rs:120 | a one-shot send the frontend makes passes the backend's guard, and succeeds when the socket does |
| Bridge.BackendErrorsShowAsUnknown | src/lib/tcp-client.ts:61 | as written, every backend error reaches the user as "不明なエラーが発生しました" |
| Bridge.UnknownDisconnectShowsGenericText | src/lib/tcp-client.ts:207-214 | disconnecting an unknown id is shown as the generic text, not as the backend's "not found" message |
| Bridge.CheckedErrorTextRecoversBackendError | src-tauri/src/tcp.rs:92-113 | with the corrected `catch`, the shown text is the backend error's display string, from which the exact error can be read back |
| DebugServer.Numbered | tools/tcp-server/src/main.rs:102-109 | the logged entries, one per message |
| DebugServer.NumberedConsecutive | tools/tcp-server/src/main.rs:102-109 | message numbers run on from the counter with no gaps or repeats, entry `k` carrying message `k` |
| DebugServer.AcceptedCount | tools/tcp-server/src/main.rs:55-65 | no more clients are accepted than there are accept events |
| DebugServer.AcceptedCountExtremes | tools/tcp-server/src/main.rs:55-65 | the count equals the number of events exactly when every event is an accepted client, and is 0 exactly when every event is a failed accept |
| DebugServer.FailureLog | tools/tcp-server/src/main.rs:61-63 | one error line per failed `accept` |
| DebugServer.NumberedSnoc | tools/tcp-server/src/main.rs:102-109 | logging one more message appends one entry numbered right after the earlier ones, leaving them as they were |
| DebugServer.ReadStep | tools/tcp-server/src/main.rs:87-111 | one pass of the read loop either keeps the cleaned line as the next message or drops it, and the messages still to come are exactly those of the unread rest |
| DebugServer.AcceptedCountSnoc | tools/tcp-server/src/main.rs:55-65 | one more accept event adds one client exactly when it is an accepted connection |
| DebugServer.MessageCountSnoc | tools/tcp-server/src/main.rs:55-65 | one more accepted client adds the number of its received lines to the message total; a failed accept adds none |
| DebugServer.FailureLogSnoc | tools/tcp-server/src/main.rs:61-63 | a failed accept appends its error line, prefixed as the server logs it; an accepted client appends nothing |
| DebugServer.ServerStats.constructor | tools/tcp-server/src/main.rs:22-29 | both counters start at zero |
| DebugServer.ServerStats.HandleClient | tools/tcp-server/src/main.rs:68-125 | a client adds one connection and gets its number; the message counter grows by the stream's received lines; they are logged in order, numbered on from the old counter |
| DebugServer.ServerStats.AcceptLoop | tools/tcp-server/src/main.rs:55-65 | the accept loop goes on after a failed `accept`, logging it; the counters grow by the accepted clients and their messages |
| FontSettings.CachedStore | src/lib/stores/settings.ts:18-23 | `getStore` reuses a cached store without loading; otherwise it loads once, and it counts as loaded exactly when it succeeds; nothing else changes |
| FontSettings.Load | src/lib/stores/settings.ts:25-36 | `loadSettings` always resolves and never writes the file; it publishes the saved size or 14 when the store loads, and 14 when it does not |
| FontSettings.Save | src/lib/stores/settings.ts:38-51 | a size outside 12..24 throws the range error with no change; a save that resolves stored and published an in-range size; one that throws changed neither file nor `fontSize` |
| FontSettings.Reset | src/lib/stores/settings.ts:53-62 | resolves exactly when the store is had, and then stores and publishes 14; when it throws, neither file nor `fontSize` changes |
| FontSettings.SettingsStore.constructor | src/lib/stores/settings.ts:8-16 | no store yet, `fontSize` at 14 |
| FontSettings.SettingsStore.GetStore | src/lib/stores/settings.ts:18-23 | follows `CachedStore` |
| FontSettings.SettingsStore.LoadSettings | src/lib/stores/settings.ts:25-36 | follows `Load` |
| FontSettings.SettingsStore.SaveFontSize | src/lib/stores/settings.ts:38-51 | follows `Save` |
| FontSettings.SettingsStore.ResetSettings | src/lib/stores/settings.ts:53-62 | follows `Reset` |
| FontSettingsProperties.OutOfRangeSaveChangesNothing | src/lib/stores/settings.ts:40-42 | a size below 12 or above 24 throws the range error before the store is touched; nothing changes |
| FontSettingsProperties.InRangeSaveStoresAndPublishes | src/lib/stores/settings.ts:44-46 | a size in 12..24 is persisted under `fontSize` and published, once a store is available |
| FontSettingsProperties.SaveWithoutStoreRethrows | src/lib/stores/settings.ts:47-50 | a save whose store cannot be loaded rethrows; neither value changes |
| FontSettingsProperties.LoadPublishesSavedOrDefault | src/lib/stores/settings.ts:27-31 | loading publishes the saved size, or 14 if none is saved, and resolves |
| FontSettingsProperties.LoadAppliesNoRangeCheck | src/lib/stores/settings.ts:30 | a saved 99 is published as it is |
| FontSettingsProperties.FailedLoadFallsBack | src/lib/stores/settings.ts:32-35 | when the store cannot be loaded, 14 is published and the call resolves |
| FontSettingsProperties.ResetStoresDefault | src/lib/stores/settings.ts:53-57 | reset persists and publishes 14 |
| FontSettingsProperties.SaveThenLoad | src/lib/stores/settings.ts:38-46 | after a successful save of `v`, the next load publishes `v` |
| FontSettingsProperties.CallLoadsAtMostOnce | src/lib/stores/settings.ts:18-23 | each call loads the store at most once, and never when one is cached |
| FontSettingsProperties.CachedStoreIsReused | src/lib/stores/settings.ts:18-23 | once cached, the store is never loaded again, over any sequence of calls |
| FontSettingsProperties.LoadCallsBounded | src/lib/stores/settings.ts:18-23 | `Store.load` runs at most once per settings call |
| FontSettingsProperties.OnlyFontSizeIsPersisted | src/lib/stores/settings.ts:45 | no call touches any key except `fontSize`, which only ever receives a size in 12..24 |

## Left out

- Concurrency. Client tasks, the server task and the receiver tasks run one at a time in the
  model, each over its whole stream. Interleaving between tasks is not modelled, nor the `Mutex`
  locks or `try_lock` in `disconnect_tcp`.
- DebugServer.ServerStats.HandleClient: the debug server spawns one task per client
  (`main.rs:55-65`), and they share `messages_received` under a lock (`main.rs:100-102`). So the
  numbers of two overlapping clients' messages can interleave. The model serves clients one after
  another, so each client's messages get consecutive numbers.
- FontSettings.CachedStore: settings calls run one at a time in the model. `getStore`
  (`settings.ts:18-23`) awaits `Store.load` before it sets `store`. Two overlapping calls, such as
  `loadSettings` from mount and an early `saveFontSize`, can each load the store. Concurrent loads
  are not modelled. "Loads at most once" in `FontSettingsProperties.CallLoadsAtMostOnce`,
  `FontSettingsProperties.CachedStoreIsReused` and `FontSettingsProperties.LoadCallsBounded` holds only for calls that do not overlap.
- Task cancellation. Stopping the server aborts only its accept task; client tasks already spawned
  keep appending to the global buffer, so the model lets them deliver whether or not a server runs.
  Disconnecting aborts the receiver task: the model drops later lines for an id that is gone.
- The backend's accept loop (`tcp.rs:213-224`) and its exit on the first `accept` error. The model
  serves whichever client streams it is given.
- Socket shutdowns (`tcp.rs:149`, `378`): their failures are only logged or ignored.
- Read errors: `read_line`'s `Err` ends a loop without storing anything (`tcp.rs:289-292`,
  `tcp.rs:508-511`, `main.rs:112-119`), so a line partly read when the error occurs is lost. The
  model has no read errors. The stream it is given is what arrived before the loop ended, and a
  final line without a '\n' is kept whole, as it is at a clean end of stream. That matches a read
  error only when the input is cut at the last '\n' before the error. Invalid UTF-8, which
  `read_line` reports as an error, is not modelled.
- The `tcp_message_received` event emitted to the frontend (`tcp.rs:494-503`), and all `log::` and
  console output, except the debug server's counted message lines (`main.rs:103-109`) and its
  accept-failure lines (`main.rs:62`, as `DebugServer.FailureLog`).
- Timestamps and UUIDs: `Utc::now`, `Local::now` and `Uuid::new_v4` are parameters. The uniqueness
  of a UUID appears only as a `requires` of the lemmas that need it.
- DebugServer.ServerStats.HandleClient: the counters are `nat`, not `u32`; wrap-around or a panic
  after 2^32 connections or messages is not modelled, because the debug server never gets near it.
- Command-line parsing, the startup banner and the Ctrl+C summary of the debug server.
- JavaScript numbers: ports and font sizes are integers. Fractions and NaN are not modelled (NaN
  would slip through both range checks). Deserialising a port that is not a `u16` is not modelled.
- FontSettings.SettingsStore.SaveFontSize: a failing `Store.set` is not modelled, and neither is a
  failing `Store.get` in `LoadSettings`. Only `Store.load` can fail. `autoSave`'s debounced write is
  treated as immediate: the file and the loaded store always agree.
- Tauri's argument-name conversion between `camelCase` and `snake_case` is not part of this model.
- `init_app_handle`, the settings window (`settings.rs`, `settings-window.ts`) and the UI are not
  part of this model.

## Findings

| source | as written | input that shows it | evidently intended | confidence | as-written member | corrected member |
|---|---|---|---|---|---|---|
| src/lib/tcp-client.ts:239-244 | `sendMessageOnConnection` returns `success: true` and puts the backend's whole `TcpSendResult` into `message` | the backend resolves with `{success: false, message: "Failed to send message: broken pipe", error: "Send failed: broken pipe"}` after a failed write; the user is told it succeeded | report the record's own `success`, `message` and `error` | not executed; the backend reports write and flush failures as a resolved record (`tcp.rs:408-424`) | TcpClientProperties.SendOnConnectionHidesWriteFailure | TcpClient.SendMessageOnConnectionChecked |
| src/lib/tcp-client.ts:61 | every `catch` shows `error.message` only for an `Error`, and the generic text otherwise | disconnecting the unknown id `conn-123`: the backend rejects with the string "Connection not found: Connection with ID conn-123 not found" and the user sees "不明なエラーが発生しました" | show a rejected string as it is | not executed; relies on `TcpError` serialising as a plain string (`tcp.rs:105-113`), which `invoke` passes on as the rejection value | Bridge.UnknownDisconnectShowsGenericText | TcpClient.ErrorTextChecked |

The wrappers in `TcpClient` model the code as written. The corrected members sit beside them, and
`Bridge.CheckedErrorTextRecoversBackendError` proves the corrected `catch` property.
