/**
 * The records that cross the boundary between the frontend and the backend. The backend declares
 * them as serde structs in src-tauri/src/tcp.rs; the frontend reads the same JSON shapes.
 */
module TcpTypes {
  import opened Wrappers

  /** One stored inbound line: its cleaned text, when it arrived, and who sent it. */
  datatype ReceivedMessage = ReceivedMessage(message: string, timestamp: string, clientAddr: string)

  /** A client connection as `connect_tcp` reports it. */
  datatype Connection = Connection(id: string, host: string, port: int, connected: bool, connectedAt: string)

  datatype ConnectionResult = ConnectionResult(success: bool, connection: Option<Connection>, error: Option<string>)

  /** The record `send_tcp_message_on_connection` answers with. */
  datatype SendRecord = SendRecord(success: bool, message: string, timestamp: Option<string>, error: Option<string>)

  /** The record both drain commands answer with. */
  datatype ReceiveResult = ReceiveResult(success: bool, messages: seq<ReceivedMessage>, error: Option<string>)

  /** The texts of a buffer, in order. */
  function Texts(ms: seq<ReceivedMessage>): (ts: seq<string>)
    ensures |ts| == |ms|
    ensures forall k :: 0 <= k < |ms| ==> ts[k] == ms[k].message
  {
    seq(|ms|, k requires 0 <= k < |ms| => ms[k].message)
  }
}
