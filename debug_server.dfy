/**
 * The stand-alone debug server (tools/tcp-server/src/main.rs): it accepts clients, reads each one's
 * stream line by line and counts connections and non-empty messages in one shared `ServerStats`.
 * Console output is modelled as the entries the server would log.
 */
module DebugServer {
  import opened LineProtocol

  /** One "Message #n from ...: ..." log line: the running message number and the cleaned text. */
  datatype Logged = Logged(number: nat, text: string)

  /** The messages `ms`, numbered consecutively from `first`. */
  function Numbered(ms: seq<string>, first: nat): (log: seq<Logged>)
    ensures |log| == |ms|
  {
    if ms == [] then [] else [Logged(first, ms[0])] + Numbered(ms[1..], first + 1)
  }

  /** The `k`-th entry carries the `k`-th message and the number `first + k`: no gaps, no repeats. */
  lemma {:induction false} NumberedConsecutive(ms: seq<string>, first: nat)
    ensures forall k :: 0 <= k < |ms| ==> Numbered(ms, first)[k] == Logged(first + k, ms[k])
  {
    if ms != [] {
      NumberedConsecutive(ms[1..], first + 1);
    }
  }

  /** What the accept loop can see: a client with everything it will send, or a failed `accept`. */
  datatype AcceptEvent = Accepted(clientAddr: string, input: string) | AcceptFailed(reason: string)

  const AcceptFailurePrefix := "Failed to accept connection: "

  /** The number of clients the events accept. */
  function AcceptedCount(events: seq<AcceptEvent>): (n: nat)
    ensures n <= |events|
  {
    if events == [] then 0
    else (if events[0].Accepted? then 1 else 0) + AcceptedCount(events[1..])
  }

  /** The count reaches the number of events exactly when every event is a client, and 0 exactly when none is. */
  lemma {:induction false} AcceptedCountExtremes(events: seq<AcceptEvent>)
    ensures AcceptedCount(events) == |events| <==> forall k :: 0 <= k < |events| ==> events[k].Accepted?
    ensures AcceptedCount(events) == 0 <==> forall k :: 0 <= k < |events| ==> events[k].AcceptFailed?
  {
    if events != [] {
      AcceptedCountExtremes(events[1..]);
      assert forall k :: 1 <= k < |events| ==> events[k] == events[1..][k - 1];
    }
  }

  /** The number of non-empty messages all accepted clients send. */
  function MessageCount(events: seq<AcceptEvent>): nat
  {
    if events == [] then 0
    else (if events[0].Accepted? then |ReceivedLines(events[0].input)| else 0) + MessageCount(events[1..])
  }

  /** The error lines the accept loop logs, one per failed `accept`, in order. */
  function FailureLog(events: seq<AcceptEvent>): (log: seq<string>)
    ensures |log| == |events| - AcceptedCount(events)
  {
    if events == [] then []
    else (if events[0].AcceptFailed? then [AcceptFailurePrefix + events[0].reason] else []) + FailureLog(events[1..])
  }

  /** One more message continues the numbering. */
  lemma {:induction false} NumberedSnoc(ms: seq<string>, m: string, first: nat)
    ensures Numbered(ms + [m], first) == Numbered(ms, first) + [Logged(first + |ms|, m)]
    decreases |ms|
  {
    if ms == [] {
      assert [m][1..] == [];
    } else {
      assert (ms + [m])[1..] == ms[1..] + [m];
      NumberedSnoc(ms[1..], m, first + 1);
    }
  }

  /** One pass of a read loop over a non-empty stream: what it keeps, then what the rest keeps. */
  lemma ReceivedLinesStep(rest: string)
    requires rest != []
    ensures var (line, remaining) := ReadLine(rest);
      var m := CleanLine(line);
      ReceivedLines(rest) == (if m == [] then [] else [m]) + ReceivedLines(remaining)
  {
  }

  /** Accepting one more event adds one to the client count exactly when it is a client. */
  lemma {:induction false} AcceptedCountSnoc(events: seq<AcceptEvent>, e: AcceptEvent)
    ensures AcceptedCount(events + [e]) == AcceptedCount(events) + (if e.Accepted? then 1 else 0)
  {
    if events == [] {
      assert [e][1..] == [];
    } else {
      assert (events + [e])[1..] == events[1..] + [e];
      AcceptedCountSnoc(events[1..], e);
    }
  }

  /** One more event adds the messages of its client, if it is one. */
  lemma {:induction false} MessageCountSnoc(events: seq<AcceptEvent>, e: AcceptEvent)
    ensures MessageCount(events + [e]) == MessageCount(events) + (if e.Accepted? then |ReceivedLines(e.input)| else 0)
  {
    if events == [] {
      assert [e][1..] == [];
    } else {
      assert (events + [e])[1..] == events[1..] + [e];
      MessageCountSnoc(events[1..], e);
    }
  }

  /** One more event appends its error line, if it is a failed `accept`. */
  lemma {:induction false} FailureLogSnoc(events: seq<AcceptEvent>, e: AcceptEvent)
    ensures FailureLog(events + [e]) == FailureLog(events) + (if e.AcceptFailed? then [AcceptFailurePrefix + e.reason] else [])
  {
    if events == [] {
      assert [e][1..] == [];
    } else {
      assert (events + [e])[1..] == events[1..] + [e];
      FailureLogSnoc(events[1..], e);
    }
  }

  /**
   * One pass of the read loop over a non-empty stream: the line it reads either adds one message,
   * numbered next, or is dropped, and the messages still to come are those of what remains.
   */
  lemma ReadStep(seen: seq<string>, rest: string, line: string, remaining: string)
    requires rest != [] && ReadLine(rest) == (line, remaining)
    ensures CleanLine(line) == [] ==> ReceivedLines(rest) == ReceivedLines(remaining)
    ensures CleanLine(line) != [] ==>
      (seen + [CleanLine(line)]) + ReceivedLines(remaining) == seen + ReceivedLines(rest)
  {
    var m := CleanLine(line);
    ReceivedLinesStep(rest);
    if m != [] {
      assert seen + ReceivedLines(rest) == (seen + [m]) + ReceivedLines(remaining);
    }
  }

  /** `ServerStats`: the two counters every client task shares. */
  class ServerStats {
    var connections: nat
    var messagesReceived: nat

    /** `ServerStats::new`: both counters start at zero. */
    constructor ()
      ensures connections == 0 && messagesReceived == 0
    {
      connections := 0;
      messagesReceived := 0;
    }

    /**
     * `handle_client`: count the connection, then read lines until the stream ends, counting and
     * logging each line that is non-empty once trailing '\r's and then '\n's are removed. Returns
     * the connection's number and the message lines it logged.
     */
    method HandleClient(input: string) returns (number: nat, log: seq<Logged>)
      modifies this
      ensures connections == old(connections) + 1 && number == connections
      ensures messagesReceived == old(messagesReceived) + |ReceivedLines(input)|
      ensures log == Numbered(ReceivedLines(input), old(messagesReceived) + 1)
    {
      ghost var first := messagesReceived + 1;
      connections := connections + 1;
      number := connections;
      log := [];
      var rest := input;
      ghost var seen: seq<string> := [];
      while rest != []
        invariant connections == old(connections) + 1 && number == connections
        invariant seen + ReceivedLines(rest) == ReceivedLines(input)
        invariant messagesReceived + 1 == first + |seen|
        invariant |log| == |seen| && forall k :: 0 <= k < |log| ==> log[k] == Logged(first + k, seen[k])
        decreases |rest|
      {
        var (line, remaining) := ReadLine(rest);
        var message := CleanLine(line);
        ReadStep(seen, rest, line, remaining);
        if message != [] {
          log := log + [Logged(messagesReceived + 1, message)];
          seen := seen + [message];
          messagesReceived := messagesReceived + 1;
        }
        rest := remaining;
      }
      assert ReceivedLines(rest) == [];
      assert seen == ReceivedLines(input);
      assert log == Numbered(seen, first) by {
        NumberedConsecutive(seen, first);
      }
    }

    /**
     * The accept loop of `main`, over the events it sees: each accepted client is served in turn,
     * each failed `accept` is logged and the loop goes on.
     */
    method AcceptLoop(events: seq<AcceptEvent>) returns (errors: seq<string>)
      modifies this
      ensures connections == old(connections) + AcceptedCount(events)
      ensures messagesReceived == old(messagesReceived) + MessageCount(events)
      ensures errors == FailureLog(events)
    {
      errors := [];
      for i := 0 to |events|
        invariant connections == old(connections) + AcceptedCount(events[..i])
        invariant messagesReceived == old(messagesReceived) + MessageCount(events[..i])
        invariant errors == FailureLog(events[..i])
      {
        AcceptedCountSnoc(events[..i], events[i]);
        MessageCountSnoc(events[..i], events[i]);
        FailureLogSnoc(events[..i], events[i]);
        assert events[..i + 1] == events[..i] + [events[i]];
        match events[i]
        case Accepted(_, input) =>
          var _, _ := HandleClient(input);
        case AcceptFailed(reason) =>
          errors := errors + [AcceptFailurePrefix + reason];
      }
      assert events[..|events|] == events;
    }
  }
}
