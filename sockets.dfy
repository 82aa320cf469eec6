/** WebSocket connections as the server sees them: which connections are
    open, the frames written to them, and the status listener a connection
    registers, which forwards an update to its socket only when the update
    is for the connection's order and the socket is still open. */
module Sockets {
  import opened Wrappers
  import opened Json
  import opened Domain

  /** The status update the pipeline publishes and the server sends as
      JSON: `{orderId, status, data?}`. The connection snapshot has the
      same shape. */
  datatype StatusMessage = StatusMessage(orderId: string, status: OrderStatus, data: Option<Fields>)

  /** A frame written to connection `conn`. */
  datatype Frame =
    | Message(conn: nat, msg: StatusMessage)
    | Closing(conn: nat, code: nat, reason: string)

  /** The listener one connection registers: it closes over the
      connection and the order id taken from its URL. */
  datatype Listener = Listener(conn: nat, orderId: string)

  /** The listener's body: send the update when it is for this order and
      the socket is open, else do nothing. */
  function Forward(l: Listener, u: StatusMessage, open: set<nat>): (fs: seq<Frame>)
    ensures fs == [] || fs == [Message(l.conn, u)]
    ensures fs != [] <==> u.orderId == l.orderId && l.conn in open
  {
    if u.orderId == l.orderId && l.conn in open then [Message(l.conn, u)] else []
  }

  /** The messages written to `conn`, in order. */
  function MessagesTo(conn: nat, frames: seq<Frame>): (ms: seq<StatusMessage>)
    ensures |ms| <= |frames|
    decreases |frames|
  {
    if frames == [] then []
    else
      var last := frames[|frames| - 1];
      MessagesTo(conn, frames[..|frames| - 1]) + (if last.Message? && last.conn == conn then [last.msg] else [])
  }

  lemma {:induction false} MessagesToAppend(conn: nat, a: seq<Frame>, b: seq<Frame>)
    ensures MessagesTo(conn, a + b) == MessagesTo(conn, a) + MessagesTo(conn, b)
    decreases |b|
  {
    if b == [] {
      assert a + b == a;
    } else {
      var b' := b[..|b| - 1];
      assert (a + b)[..|a + b| - 1] == a + b';
      MessagesToAppend(conn, a, b');
    }
  }

  /** The connection table. `accepted` holds every connection the server
      has seen, `open` those whose socket is OPEN, `wire` every frame the
      server has written, in order. */
  class SocketTable {
    var accepted: set<nat>
    var open: set<nat>
    var wire: seq<Frame>

    predicate Valid()
      reads this
    {
      open <= accepted
    }

    constructor ()
      ensures Valid() && accepted == {} && open == {} && wire == []
    {
      accepted, open, wire := {}, {}, [];
    }

    /** `ws.send(JSON.stringify(msg))`. */
    method Send(conn: nat, msg: StatusMessage)
      modifies this`wire
      ensures wire == old(wire) + [Message(conn, msg)]
    {
      wire := wire + [Message(conn, msg)];
    }
  }
}
