/**
 * The byte-stream conventions shared by the application backend (src-tauri/src/tcp.rs) and the
 * stand-alone debug server (tools/tcp-server/src/main.rs): how a reader splits an inbound stream
 * into lines, how a line is cleaned before it is stored or counted, and how the two send paths
 * frame an outbound message.
 */
module LineProtocol {

  /**
   * Rust's `str::trim_end_matches(c)` for a single character: drop the whole trailing run of `c`.
   * The result is the longest prefix of `s` that does not end in `c`.
   */
  function TrimEndMatches(s: string, c: char): (r: string)
    ensures r <= s
    ensures r == [] || r[|r| - 1] != c
    ensures forall i :: |r| <= i < |s| ==> s[i] == c
    decreases |s|
  {
    if |s| > 0 && s[|s| - 1] == c then TrimEndMatches(s[..|s| - 1], c) else s
  }

  /**
   * The cleaning rule of every read loop: `line.trim_end_matches('\r').trim_end_matches('\n')`.
   * The carriage returns are trimmed FIRST, so in a CRLF-terminated line the '\r' survives.
   */
  function CleanLine(line: string): (r: string)
    ensures r <= line
    ensures r == [] || r[|r| - 1] != '\n'
  {
    TrimEndMatches(TrimEndMatches(line, '\r'), '\n')
  }

  /**
   * Tokio's `read_line`: everything up to and including the first '\n', or everything up to the end
   * of the stream when no '\n' is left. The pair is (the line read, what remains unread).
   */
  function ReadLine(input: string): (r: (string, string))
    ensures r.0 + r.1 == input
    ensures input != [] ==> r.0 != []
    ensures forall i :: 0 <= i < |r.0| - 1 ==> r.0[i] != '\n'
    ensures r.1 != [] ==> r.0 != [] && r.0[|r.0| - 1] == '\n'
    decreases |input|
  {
    if input == [] then ([], [])
    else if input[0] == '\n' then ([input[0]], input[1..])
    else
      var (line, rest) := ReadLine(input[1..]);
      ([input[0]] + line, rest)
  }

  /** The messages a read loop keeps from a whole stream: every non-empty cleaned line, in order. */
  function ReceivedLines(input: string): (ms: seq<string>)
    ensures forall k :: 0 <= k < |ms| ==> ms[k] != []
    decreases |input|
  {
    if input == [] then []
    else
      var (line, rest) := ReadLine(input);
      var m := CleanLine(line);
      (if m == [] then [] else [m]) + ReceivedLines(rest)
  }

  /** The bytes `send_tcp_message` writes: the message followed by one carriage return. */
  function OneShotFrame(message: string): (r: string)
    ensures |r| == |message| + 1 && r[..|message|] == message && r[|message|] == '\r'
  {
    message + "\r"
  }

  /** The bytes `send_tcp_message_on_connection` writes: the message followed by one '\n'. */
  function ConnectionFrame(message: string): (r: string)
    ensures |r| == |message| + 1 && r[..|message|] == message && r[|message|] == '\n'
  {
    message + "\n"
  }

  /** A stream made of consecutive connection frames. */
  function ConnectionStream(ms: seq<string>): string
  {
    if ms == [] then [] else ConnectionFrame(ms[0]) + ConnectionStream(ms[1..])
  }

  /** A message that survives one trip through `ConnectionFrame` and a read loop unchanged. */
  predicate IsSingleLine(m: string)
  {
    m != [] && '\n' !in m
  }

  lemma {:induction false} ReadLineOfFrame(m: string, rest: string)
    requires '\n' !in m
    ensures ReadLine(m + "\n" + rest) == (m + "\n", rest)
    decreases |m|
  {
    if m == [] {
      assert m + "\n" + rest == ['\n'] + rest;
    } else {
      assert (m + "\n" + rest)[1..] == m[1..] + "\n" + rest;
      ReadLineOfFrame(m[1..], rest);
      assert [m[0]] + (m[1..] + "\n") == m + "\n";
    }
  }

  lemma {:induction false} ReadLineOfUnterminated(s: string)
    requires '\n' !in s
    ensures ReadLine(s) == (s, [])
    decreases |s|
  {
    if s != [] {
      ReadLineOfUnterminated(s[1..]);
      assert [s[0]] + s[1..] == s;
    }
  }

  /**
   * A message framed by `ConnectionFrame` is read back by the loop's cleaning rule as exactly that
   * message, whatever it ends with (a trailing '\r' included).
   */
  lemma CleanConnectionFrame(m: string)
    requires '\n' !in m
    ensures CleanLine(ConnectionFrame(m)) == m
  {
    var f := ConnectionFrame(m);
    assert TrimEndMatches(f, '\r') == f;
    assert f[..|f| - 1] == m;
    if m != [] { assert m[|m| - 1] in m; }
    assert TrimEndMatches(m, '\n') == m;
  }

  /**
   * Round trip of the connection protocol: a peer whose read loop receives the concatenated frames of
   * single-line messages stores exactly those messages, in order.
   */
  lemma {:induction false} ConnectionStreamRoundTrip(ms: seq<string>)
    requires forall k :: 0 <= k < |ms| ==> IsSingleLine(ms[k])
    ensures ReceivedLines(ConnectionStream(ms)) == ms
    decreases |ms|
  {
    if ms != [] {
      var rest := ConnectionStream(ms[1..]);
      assert IsSingleLine(ms[0]);
      ReadLineOfFrame(ms[0], rest);
      assert ConnectionFrame(ms[0]) + rest == ms[0] + "\n" + rest;
      CleanConnectionFrame(ms[0]);
      ConnectionStreamRoundTrip(ms[1..]);
      assert [ms[0]] + ms[1..] == ms;
    }
  }

  /**
   * What a read loop keeps from a one-shot send: the writer shuts the stream down after the frame,
   * so the whole frame is one line read to the end of the stream, and cleaning strips the
   * carriage return together with any the message itself ended with.
   */
  lemma OneShotReceived(m: string)
    requires '\n' !in m
    ensures ReceivedLines(OneShotFrame(m)) ==
      (var k := TrimEndMatches(m, '\r'); if k == [] then [] else [k])
  {
    var f := OneShotFrame(m);
    ReadLineOfUnterminated(f);
    assert f[..|f| - 1] == m;
    assert TrimEndMatches(f, '\r') == TrimEndMatches(m, '\r');
    var k := TrimEndMatches(m, '\r');
    if k != [] { assert k[|k| - 1] == m[|k| - 1]; }
    assert ReceivedLines([]) == [];
  }

  /** In particular a message with no trailing '\r' arrives intact. */
  lemma OneShotReceivedIntact(m: string)
    requires IsSingleLine(m) && m[|m| - 1] != '\r'
    ensures ReceivedLines(OneShotFrame(m)) == [m]
  {
    OneShotReceived(m);
  }

  /** `"abc\r\n"` is stored as `"abc\r"`: the carriage return is trimmed before the line feed. */
  lemma CrLfKeepsCarriageReturn()
    ensures CleanLine("abc\r\n") == "abc\r"
    ensures ReceivedLines("abc\r\n") == ["abc\r"]
  {
    assert TrimEndMatches("abc\r\n", '\r') == "abc\r\n";
    assert "abc\r\n"[..4] == "abc\r";
    assert TrimEndMatches("abc\r", '\n') == "abc\r";
    ReadLineOfFrame("abc\r", "");
    assert "abc\r" + "\n" + "" == "abc\r\n";
  }

  /** A bare line feed is dropped. */
  lemma BareLineFeedDropped()
    ensures ReceivedLines("\n") == []
  {
    ReadLineOfFrame("", "");
    assert "" + "\n" + "" == "\n";
    assert TrimEndMatches("\n", '\r') == "\n";
    assert TrimEndMatches("\n"[..0], '\n') == [];
    assert CleanLine("\n") == [];
    assert ReceivedLines([]) == [];
  }

  /** A bare CRLF line is kept, as a lone "\r". */
  lemma BareCrLfKept()
    ensures ReceivedLines("\r\n") == ["\r"]
  {
    ReadLineOfFrame("\r", "");
    assert "\r" + "\n" + "" == "\r\n";
    assert TrimEndMatches("\r\n", '\r') == "\r\n";
    assert "\r\n"[..1] == "\r";
    assert CleanLine("\r\n") == "\r";
    assert ReceivedLines([]) == [];
  }
}
