/** The web page's order list and its WebSocket connections: a submitted
    order is put at the top of the list as `pending`; each status message
    replaces the entry's status, merges its data into the entry's data and
    appends to its history; a terminal message schedules the connection's
    close. The list is React state updated by pure reducers; the connection
    map is a `Map` the page mutates in place. */
module Client {
  import opened Wrappers
  import opened Json
  import opened Domain

  /** A message as the page parses it: the status text and the optional
      data object. */
  datatype ServerMessage = ServerMessage(status: string, data: Option<Fields>)

  /** One line of an order's history. */
  datatype UpdateView = UpdateView(status: string, timestamp: Timestamp, data: Option<Fields>)

  /** An entry of the order list. */
  datatype OrderView = OrderView(orderId: string, status: string, data: Option<Fields>, updates: seq<UpdateView>)

  /** `{...d}`: spreading an absent object contributes nothing. */
  function Spread(d: Option<Fields>): (f: Fields)
    ensures d.None? ==> f == map[]
    ensures d.Some? ==> f == d.value
  {
    if d.Some? then d.value else map[]
  }

  /** `{...a, ...b}`: every key of either, the value from `b` where both
      have it. */
  function Merge(a: Option<Fields>, b: Option<Fields>): (f: Fields)
    ensures f.Keys == Spread(a).Keys + Spread(b).Keys
    ensures forall k :: k in Spread(b) ==> f[k] == Spread(b)[k]
    ensures forall k :: k in Spread(a) && k !in Spread(b) ==> f[k] == Spread(a)[k]
  {
    Spread(a) + Spread(b)
  }

  /** Whether the list has an entry for `orderId` (`find`). */
  predicate HasOrder(orders: seq<OrderView>, orderId: string) {
    exists i :: 0 <= i < |orders| && orders[i].orderId == orderId
  }

  /** The history line a message adds. */
  function UpdateOf(m: ServerMessage, now: Timestamp): UpdateView {
    UpdateView(m.status, now, m.data)
  }

  /** An existing entry after a message. */
  function Revised(o: OrderView, m: ServerMessage, now: Timestamp): (r: OrderView)
    ensures r.orderId == o.orderId && r.status == m.status
    ensures r.data == Some(Merge(o.data, m.data))
    ensures r.updates == o.updates + [UpdateOf(m, now)]
  {
    o.(status := m.status, data := Some(Merge(o.data, m.data)), updates := o.updates + [UpdateOf(m, now)])
  }

  /** The `onmessage` reducer for the connection of `orderId`, opened with
      the submitted `orderData`, receiving `m` at time `now`. Every entry
      for the order is revised and every other entry kept; when there is
      none, a new entry is appended. */
  function ApplyMessage(orders: seq<OrderView>, orderId: string, orderData: Option<Fields>, m: ServerMessage, now: Timestamp): (r: seq<OrderView>)
    ensures HasOrder(orders, orderId) ==> |r| == |orders|
    ensures HasOrder(orders, orderId) ==> forall i :: 0 <= i < |orders| && orders[i].orderId != orderId ==> r[i] == orders[i]
    ensures HasOrder(orders, orderId) ==> forall i :: 0 <= i < |orders| && orders[i].orderId == orderId ==> r[i] == Revised(orders[i], m, now)
    ensures !HasOrder(orders, orderId) ==>
      r == orders + [OrderView(orderId, m.status, Some(Merge(orderData, m.data)), [UpdateOf(m, now)])]
  {
    if HasOrder(orders, orderId) then
      seq(|orders|, i requires 0 <= i < |orders| => if orders[i].orderId == orderId then Revised(orders[i], m, now) else orders[i])
    else
      orders + [OrderView(orderId, m.status, Some(Merge(orderData, m.data)), [UpdateOf(m, now)])]
  }

  /** What `submitOrder` puts at the top of the list. */
  function Submitted(orders: seq<OrderView>, orderId: string, orderData: Fields): (r: seq<OrderView>)
    ensures |r| == |orders| + 1 && r[1..] == orders
    ensures r[0] == OrderView(orderId, StatusName(Pending), Some(orderData), [])
  {
    [OrderView(orderId, "pending", Some(orderData), [])] + orders
  }

  /** The order ids of the list, in order. */
  function Ids(orders: seq<OrderView>): (ids: seq<string>)
    ensures |ids| == |orders|
    ensures forall i :: 0 <= i < |orders| ==> ids[i] == orders[i].orderId
  {
    seq(|orders|, i requires 0 <= i < |orders| => orders[i].orderId)
  }

  /** A message never reorders, drops or duplicates entries: the ids are
      the same, with the order's id added at the end when it had no
      entry. */
  lemma MessageKeepsIds(orders: seq<OrderView>, orderId: string, orderData: Option<Fields>, m: ServerMessage, now: Timestamp)
    ensures Ids(ApplyMessage(orders, orderId, orderData, m, now)) ==
      Ids(orders) + (if HasOrder(orders, orderId) then [] else [orderId])
    ensures HasOrder(ApplyMessage(orders, orderId, orderData, m, now), orderId)
  {
    var r := ApplyMessage(orders, orderId, orderData, m, now);
    if !HasOrder(orders, orderId) {
      assert r[|orders|].orderId == orderId;
    }
  }

  /** The messages of one connection, in arrival order, each with its time. */
  function ApplyAll(orders: seq<OrderView>, orderId: string, orderData: Option<Fields>, ms: seq<(ServerMessage, Timestamp)>): (r: seq<OrderView>)
    decreases |ms|
  {
    if ms == [] then orders
    else
      var last := ms[|ms| - 1];
      ApplyMessage(ApplyAll(orders, orderId, orderData, ms[..|ms| - 1]), orderId, orderData, last.0, last.1)
  }

  /** The history lines a sequence of messages adds. */
  function History(ms: seq<(ServerMessage, Timestamp)>): (us: seq<UpdateView>)
    ensures |us| == |ms|
    ensures forall i :: 0 <= i < |ms| ==> us[i] == UpdateOf(ms[i].0, ms[i].1)
  {
    seq(|ms|, i requires 0 <= i < |ms| => UpdateOf(ms[i].0, ms[i].1))
  }

  /** After a submission, the order's entry stays at the top and every
      message lands on it: its history is the messages in arrival order,
      its status the last message's (or `pending` before any), and the
      entries below it are untouched. */
  lemma {:induction false} SubmittedOrderCollectsItsMessages(orders: seq<OrderView>, orderId: string, orderData: Fields, ms: seq<(ServerMessage, Timestamp)>)
    requires !HasOrder(orders, orderId)
    ensures |ApplyAll(Submitted(orders, orderId, orderData), orderId, Some(orderData), ms)| == |orders| + 1
    ensures ApplyAll(Submitted(orders, orderId, orderData), orderId, Some(orderData), ms)[1..] == orders
    ensures ApplyAll(Submitted(orders, orderId, orderData), orderId, Some(orderData), ms)[0].orderId == orderId
    ensures ApplyAll(Submitted(orders, orderId, orderData), orderId, Some(orderData), ms)[0].updates == History(ms)
    ensures ApplyAll(Submitted(orders, orderId, orderData), orderId, Some(orderData), ms)[0].status ==
      if ms == [] then StatusName(Pending) else ms[|ms| - 1].0.status
    decreases |ms|
  {
    var s := Submitted(orders, orderId, orderData);
    if ms != [] {
      var init := ms[..|ms| - 1];
      SubmittedOrderCollectsItsMessages(orders, orderId, orderData, init);
      var before := ApplyAll(s, orderId, Some(orderData), init);
      var last := ms[|ms| - 1];
      assert HasOrder(before, orderId) by {
        assert before[0].orderId == orderId;
      }
      var after := ApplyMessage(before, orderId, Some(orderData), last.0, last.1);
      forall i | 1 <= i < |after| ensures after[i] == orders[i - 1] {
        assert before[i] == orders[i - 1];
      }
      assert after[1..] == orders;
      assert History(ms) == History(init) + [UpdateOf(last.0, last.1)];
    }
  }

  /** `updates.slice(-5)`: the last five history lines, or all of them
      when there are fewer. */
  function RecentHistory(updates: seq<UpdateView>): (r: seq<UpdateView>)
    ensures |r| == if |updates| < 5 then |updates| else 5
    ensures r == updates[|updates| - |r|..]
  {
    if |updates| < 5 then updates else updates[|updates| - 5..]
  }

  /** The newest line is always shown, and a new line pushes out only the
      oldest shown one. */
  lemma RecentHistoryFollowsUpdates(updates: seq<UpdateView>, u: UpdateView)
    ensures RecentHistory(updates + [u])[|RecentHistory(updates + [u])| - 1] == u
    ensures |updates| < 5 ==> RecentHistory(updates + [u]) == RecentHistory(updates) + [u]
    ensures |updates| >= 5 ==> RecentHistory(updates + [u]) == RecentHistory(updates)[1..] + [u]
  {
  }

  /** The statuses that make the page close the connection. */
  predicate ClosesOn(status: string) {
    status == "confirmed" || status == "failed"
  }

  /** The page closes on exactly the pipeline's terminal statuses. */
  lemma ClosesOnTerminalStatuses(s: OrderStatus)
    ensures ClosesOn(StatusName(s)) <==> IsTerminal(s)
  {
  }

  /** A close the page has scheduled: the order and its socket. */
  datatype Timer = Timer(orderId: string, socket: nat)

  /** The page's connection map (`wsConnections`), every socket the page
      has created, those it has closed, and the close timers not yet
      fired, in the order they were set (they all wait the same
      1000 ms). */
  class Connections {
    var sockets: map<string, nat>
    var created: set<nat>
    var closed: set<nat>
    var timers: seq<Timer>

    /** No two orders share a socket, no registered socket is closed, and
        a pending timer's socket is registered, if at all, under the
        timer's order. */
    predicate Valid()
      reads this
    {
      sockets.Values <= created && closed <= created &&
      (forall i :: 0 <= i < |timers| ==> timers[i].socket in created) &&
      (forall a, b :: a in sockets && b in sockets && a != b ==> sockets[a] != sockets[b]) &&
      (forall a :: a in sockets ==> sockets[a] !in closed) &&
      (forall i, a :: 0 <= i < |timers| && a in sockets && sockets[a] == timers[i].socket ==> a == timers[i].orderId)
    }

    constructor ()
      ensures Valid() && sockets == map[] && created == {} && closed == {} && timers == []
    {
      sockets, created, closed, timers := map[], {}, {}, [];
    }

    /** `connectWebSocket`: a new socket is registered under the order; a
        socket registered before under the same order is dropped from the
        map (`Map.set`) but stays open. */
    method Connect(orderId: string, socket: nat)
      requires Valid() && socket !in created
      modifies this`sockets, this`created
      ensures Valid()
      ensures sockets == old(sockets)[orderId := socket] && created == old(created) + {socket}
    {
      sockets := sockets[orderId := socket];
      created := created + {socket};
    }

    /** The close rule of `onmessage` on the socket of `orderId`: a
        terminal status sets a timer, any other status changes nothing. */
    method OnMessage(orderId: string, socket: nat, m: ServerMessage)
      requires Valid() && orderId in sockets && sockets[orderId] == socket
      modifies this`timers
      ensures Valid()
      ensures timers == old(timers) + (if ClosesOn(m.status) then [Timer(orderId, socket)] else [])
    {
      if ClosesOn(m.status) {
        timers := timers + [Timer(orderId, socket)];
      }
    }

    /** The oldest timer fires: its socket is closed and its order leaves
        the map. */
    method FireTimer()
      requires Valid() && timers != []
      modifies this
      ensures Valid()
      ensures timers == old(timers[1..])
      ensures closed == old(closed) + {old(timers[0].socket)}
      ensures sockets == old(sockets) - {old(timers[0].orderId)}
      ensures old(timers[0].orderId) !in sockets && old(timers[0].socket) !in sockets.Values
    {
      var t := timers[0];
      closed := closed + {t.socket};
      sockets := sockets - {t.orderId};
      timers := timers[1..];
      assert forall a :: a in sockets ==> sockets[a] != t.socket;
    }

    /** `onclose`: the order leaves the map. */
    method OnClose(orderId: string)
      requires Valid()
      modifies this`sockets
      ensures Valid()
      ensures sockets == old(sockets) - {orderId}
    {
      sockets := sockets - {orderId};
    }
  }
}
