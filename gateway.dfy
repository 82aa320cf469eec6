/** The WebSocket connection handler: it takes the order id from the
    connection URL, rejects a connection without one, sends the stored
    order as a snapshot, registers a listener filtered by that order id,
    and removes the listener again when the socket closes or errors. */
module Gateway {
  import opened Wrappers
  import opened Json
  import opened Domain
  import opened Postgres
  import opened Sockets
  import opened OrderEvents

  /** A query-string value as the URL parser returns it: absent, given
      once, or repeated. */
  datatype QueryValue = Missing | One(s: string) | Many(ss: seq<string>)

  const PolicyViolation: nat := 1008
  const OrderIdRequired: string := "orderId required"

  /** The connection's order id: a repeated parameter counts by its first
      value, and an absent or empty value is no id at all. */
  function ExtractOrderId(q: QueryValue): (r: Option<string>)
    ensures r.Some? ==> r.value != ""
    ensures q.Missing? ==> r.None?
    ensures q.One? ==> (r.Some? <==> q.s != "")
    ensures q.Many? && q.ss == [] ==> r.None?
    ensures q.One? && q.s != "" ==> r == Some(q.s)
    ensures q.Many? && q.ss != [] ==> (r.Some? <==> q.ss[0] != "")
    ensures q.Many? && q.ss != [] && q.ss[0] != "" ==> r == Some(q.ss[0])
  {
    match q
    case Missing => None
    case One(s) => if s == "" then None else Some(s)
    case Many(ss) => if ss == [] || ss[0] == "" then None else Some(ss[0])
  }

  /** A repeated parameter behaves as if only its first value had been
      given. */
  lemma RepeatedIdUsesFirstValue(first: string, rest: seq<string>)
    ensures ExtractOrderId(Many([first] + rest)) == ExtractOrderId(One(first))
  {
  }

  function OptText(s: Option<string>): Json {
    if s.Some? then JStr(s.value) else JNull
  }

  /** The snapshot's `data`. A missing dex, hash or failure reason is sent
      as `null`; a missing executed price is undefined and so left out of
      the serialised object. */
  function SnapshotData(o: Order): (d: Fields)
    ensures d.Keys == {"tokenIn", "tokenOut", "amountIn", "chosenDex", "txHash", "failureReason"}
      + (if o.executedPrice.Some? then {"executedPrice"} else {})
    ensures d["tokenIn"] == JStr(o.tokenIn) && d["tokenOut"] == JStr(o.tokenOut) && d["amountIn"] == JNum(o.amountIn)
    ensures d["chosenDex"] == (if o.chosenDex.Some? then JStr(DexName(o.chosenDex.value)) else JNull)
    ensures d["txHash"] == OptText(o.txHash) && d["failureReason"] == OptText(o.failureReason)
    ensures o.executedPrice.Some? ==> d["executedPrice"] == JNum(o.executedPrice.value)
  {
    var d := map[
      "tokenIn" := JStr(o.tokenIn),
      "tokenOut" := JStr(o.tokenOut),
      "amountIn" := JNum(o.amountIn),
      "chosenDex" := (if o.chosenDex.Some? then JStr(DexName(o.chosenDex.value)) else JNull),
      "txHash" := OptText(o.txHash),
      "failureReason" := OptText(o.failureReason)];
    if o.executedPrice.Some? then d["executedPrice" := JNum(o.executedPrice.value)] else d
  }

  /** The message sent on connection when the order exists. */
  function Snapshot(o: Order): (m: StatusMessage)
    ensures m.orderId == o.id && m.status == o.status && m.data == Some(SnapshotData(o))
  {
    StatusMessage(o.id, o.status, Some(SnapshotData(o)))
  }

  /** A freshly submitted order's snapshot: pending, its parameters, and
      every execution field null except the executed price, which is
      absent. */
  lemma NewOrderSnapshot(params: OrderParams, id: string, now: Timestamp)
    ensures Snapshot(CreateNewMarketOrder(params, id, now)) == StatusMessage(id, Pending, Some(map[
      "tokenIn" := JStr(params.tokenIn),
      "tokenOut" := JStr(params.tokenOut),
      "amountIn" := JNum(params.amountIn),
      "chosenDex" := JNull,
      "txHash" := JNull,
      "failureReason" := JNull]))
  {
    var o := CreateNewMarketOrder(params, id, now);
    var d := SnapshotData(o);
    assert o.status == Pending && o.chosenDex.None? && o.txHash.None? && o.failureReason.None? && o.executedPrice.None?;
  }

  /** The frames the handler writes for a connection: a close for a
      missing id; otherwise the snapshot when the lookup succeeds and finds
      the order, and nothing when it finds none or fails. */
  function Greeting(conn: nat, orderId: Option<string>, found: Option<Order>, lookupFails: bool): (fs: seq<Frame>)
    ensures orderId.None? ==> fs == [Closing(conn, PolicyViolation, OrderIdRequired)]
    ensures orderId.Some? ==> (fs != [] <==> !lookupFails && found.Some?)
    ensures orderId.Some? && fs != [] ==> fs == [Message(conn, Snapshot(found.value))]
  {
    if orderId.None? then [Closing(conn, PolicyViolation, OrderIdRequired)]
    else if !lookupFails && found.Some? then [Message(conn, Snapshot(found.value))]
    else []
  }

  /** The gateway's invariant over the registry: one listener per
      connection, each for a connection the server has accepted. */
  predicate Registered(ls: seq<Listener>, accepted: set<nat>) {
    OnePerConnection(ls) && forall l :: l in ls ==> l.conn in accepted
  }

  /** A new connection's listener keeps the invariant. */
  lemma RegisterKeepsInvariant(ls: seq<Listener>, accepted: set<nat>, l: Listener)
    requires Registered(ls, accepted) && l.conn !in accepted
    ensures Registered(ls + [l], accepted + {l.conn})
  {
    var ls' := ls + [l];
    forall i, j | 0 <= i < j < |ls'| ensures ls'[i].conn != ls'[j].conn {
      if j == |ls| {
        assert ls'[i] in ls;
      }
    }
  }

  /** `wss.on('connection')`. `lookupFails` says that the order lookup
      threw; the handler logs that and carries on. */
  method OnConnection(bus: StatusBus, sockets: SocketTable, table: OrderTable, conn: nat, query: QueryValue, lookupFails: bool)
    requires sockets.Valid() && table.Valid()
    requires conn !in sockets.accepted
    requires Registered(bus.listeners, sockets.accepted)
    modifies sockets, bus`listeners
    ensures sockets.Valid() && Registered(bus.listeners, sockets.accepted)
    ensures sockets.accepted == old(sockets.accepted) + {conn}
    ensures sockets.wire == old(sockets.wire) +
      Greeting(conn, ExtractOrderId(query), if ExtractOrderId(query).Some? then table.GetOrderById(ExtractOrderId(query).value) else None, lookupFails)
    ensures ExtractOrderId(query).None? ==> sockets.open == old(sockets.open) && bus.listeners == old(bus.listeners)
    ensures ExtractOrderId(query).Some? ==>
      sockets.open == old(sockets.open) + {conn} &&
      bus.listeners == old(bus.listeners) + [Listener(conn, ExtractOrderId(query).value)]
  {
    var orderId := ExtractOrderId(query);
    sockets.accepted := sockets.accepted + {conn};
    if orderId.None? {
      sockets.wire := sockets.wire + [Closing(conn, PolicyViolation, OrderIdRequired)];
      return;
    }
    var id := orderId.value;
    sockets.open := sockets.open + {conn};
    if !lookupFails {
      var order := table.GetOrderById(id);
      if order.Some? {
        sockets.Send(conn, Snapshot(order.value));
      }
    }
    RegisterKeepsInvariant(bus.listeners, old(sockets.accepted), Listener(conn, id));
    bus.On(Listener(conn, id));
  }

  /** The socket's `close` handler: the socket is no longer open and its
      listener is removed. `orderId` is the id the handler captured. */
  method OnClose(bus: StatusBus, sockets: SocketTable, conn: nat, orderId: string)
    requires sockets.Valid() && Registered(bus.listeners, sockets.accepted)
    requires forall l :: l in bus.listeners && l.conn == conn ==> l.orderId == orderId
    modifies sockets`open, bus`listeners
    ensures sockets.Valid() && Registered(bus.listeners, sockets.accepted)
    ensures sockets.open == old(sockets.open) - {conn}
    ensures bus.listeners == RemoveLast(old(bus.listeners), Listener(conn, orderId))
    ensures !HasListener(bus.listeners, conn) && conn !in sockets.open
  {
    sockets.open := sockets.open - {conn};
    Detach(bus, sockets, conn, orderId);
  }

  /** The socket's `error` handler: the listener is removed. */
  method OnError(bus: StatusBus, sockets: SocketTable, conn: nat, orderId: string)
    requires sockets.Valid() && Registered(bus.listeners, sockets.accepted)
    requires forall l :: l in bus.listeners && l.conn == conn ==> l.orderId == orderId
    modifies bus`listeners
    ensures Registered(bus.listeners, sockets.accepted)
    ensures bus.listeners == RemoveLast(old(bus.listeners), Listener(conn, orderId))
    ensures !HasListener(bus.listeners, conn)
  {
    Detach(bus, sockets, conn, orderId);
  }

  method Detach(bus: StatusBus, sockets: SocketTable, conn: nat, orderId: string)
    requires Registered(bus.listeners, sockets.accepted)
    requires forall l :: l in bus.listeners && l.conn == conn ==> l.orderId == orderId
    modifies bus`listeners
    ensures Registered(bus.listeners, sockets.accepted)
    ensures bus.listeners == RemoveLast(old(bus.listeners), Listener(conn, orderId))
    ensures !HasListener(bus.listeners, conn)
  {
    var l := Listener(conn, orderId);
    var ls := bus.listeners;
    if l in ls {
      OffDetaches(ls, l);
      RemoveKeepsAccepted(ls, l, sockets.accepted);
    }
    bus.Off(l);
  }

  lemma RemoveKeepsAccepted(ls: seq<Listener>, l: Listener, accepted: set<nat>)
    requires forall m :: m in ls ==> m.conn in accepted
    ensures forall m :: m in RemoveLast(ls, l) ==> m.conn in accepted
  {
    var i := LastIndexOf(ls, l);
    if 0 <= i {
      var r := RemoveLast(ls, l);
      forall m | m in r ensures m in ls {
        var k :| 0 <= k < |r| && r[k] == m;
        assert m == ls[if k < i then k else k + 1];
      }
    }
  }
}
