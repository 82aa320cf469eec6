/** The status bus: the shared event emitter whose `status` listeners are
    called in registration order on every publication, followed by one
    record appended to the order event log. */
module OrderEvents {
  import opened Wrappers
  import opened Json
  import opened Domain
  import opened Sockets

  /** One document of the `order_event_logs` collection. */
  datatype LogRecord = LogRecord(orderId: string, status: OrderStatus, data: Option<Fields>, createdAt: Timestamp)

  /** The record `logOrderEvent` writes for an update published at `now`. */
  function RecordOf(u: StatusMessage, now: Timestamp): (r: LogRecord)
    ensures r.orderId == u.orderId && r.status == u.status && r.data == u.data
    ensures r.createdAt == now
  {
    LogRecord(u.orderId, u.status, u.data, now)
  }

  /** The frames one publication of `u` writes: each listener, in
      registration order, runs its body. */
  function Deliveries(ls: seq<Listener>, u: StatusMessage, open: set<nat>): (fs: seq<Frame>)
    ensures |fs| <= |ls|
    decreases |ls|
  {
    if ls == [] then []
    else Deliveries(ls[..|ls| - 1], u, open) + Forward(ls[|ls| - 1], u, open)
  }

  /** The frames a run of publications writes while the listeners and the
      open sockets stay the same. */
  function Broadcast(ls: seq<Listener>, us: seq<StatusMessage>, open: set<nat>): seq<Frame>
    decreases |us|
  {
    if us == [] then []
    else Broadcast(ls, us[..|us| - 1], open) + Deliveries(ls, us[|us| - 1], open)
  }

  /** The updates for one order, in publication order. */
  function ForOrder(us: seq<StatusMessage>, orderId: string): (vs: seq<StatusMessage>)
    ensures forall v :: v in vs ==> v in us && v.orderId == orderId
    decreases |us|
  {
    if us == [] then []
    else
      var last := us[|us| - 1];
      ForOrder(us[..|us| - 1], orderId) + (if last.orderId == orderId then [last] else [])
  }

  /** The index of the most recently registered occurrence of `l`, or -1
      when there is none: `removeListener` searches from the end. */
  function LastIndexOf(ls: seq<Listener>, l: Listener): (i: int)
    ensures -1 <= i < |ls|
    ensures i < 0 <==> l !in ls
    ensures 0 <= i ==> ls[i] == l && l !in ls[i + 1..]
    decreases |ls|
  {
    if ls == [] then -1
    else if ls[|ls| - 1] == l then |ls| - 1
    else
      var init := ls[..|ls| - 1];
      assert ls == init + [ls[|ls| - 1]];
      var i := LastIndexOf(init, l);
      assert 0 <= i ==> ls[i + 1..] == init[i + 1..] + [ls[|ls| - 1]];
      i
  }

  /** `removeListener`: the most recently registered occurrence of `l` is
      removed; without one the registry is unchanged. */
  function RemoveLast(ls: seq<Listener>, l: Listener): (r: seq<Listener>)
    ensures l !in ls ==> r == ls
    ensures l in ls ==> |r| == |ls| - 1
    ensures l in ls ==> r == ls[..LastIndexOf(ls, l)] + ls[LastIndexOf(ls, l) + 1..]
    ensures multiset(r) == multiset(ls) - multiset{l}
    ensures forall m :: m in ls && m != l ==> m in r
  {
    var i := LastIndexOf(ls, l);
    if i < 0 then
      assert multiset(ls)[l] == 0;
      ls
    else
      assert ls == ls[..i] + [l] + ls[i + 1..];
      ls[..i] + ls[i + 1..]
  }

  /** At most one listener per connection: the gateway registers one
      closure per connection. */
  predicate OnePerConnection(ls: seq<Listener>) {
    forall i, j :: 0 <= i < j < |ls| ==> ls[i].conn != ls[j].conn
  }

  predicate HasListener(ls: seq<Listener>, conn: nat) {
    exists l :: l in ls && l.conn == conn
  }

  lemma {:induction false} DeliveriesAppend(a: seq<Listener>, b: seq<Listener>, u: StatusMessage, open: set<nat>)
    ensures Deliveries(a + b, u, open) == Deliveries(a, u, open) + Deliveries(b, u, open)
    decreases |b|
  {
    if b == [] {
      assert a + b == a;
    } else {
      var b' := b[..|b| - 1];
      assert (a + b)[..|a + b| - 1] == a + b';
      assert (a + b)[|a + b| - 1] == b[|b| - 1];
      DeliveriesAppend(a, b', u, open);
    }
  }

  /** Every frame of a publication is the update itself, sent to one of the
      listeners' connections. */
  lemma {:induction false} DeliveriesCarryTheUpdate(ls: seq<Listener>, u: StatusMessage, open: set<nat>)
    ensures forall f :: f in Deliveries(ls, u, open) ==>
      f.Message? && f.msg == u && f.conn in open && exists l :: l in ls && l.conn == f.conn && l.orderId == u.orderId
    decreases |ls|
  {
    if ls != [] {
      DeliveriesCarryTheUpdate(ls[..|ls| - 1], u, open);
      forall l | l in ls[..|ls| - 1] ensures l in ls { }
    }
  }

  /** Nothing is delivered to a connection without a listener: once a
      connection's listener is removed, no later publication reaches it. */
  lemma {:induction false} NoListenerNoMessages(conn: nat, ls: seq<Listener>, u: StatusMessage, open: set<nat>)
    requires !HasListener(ls, conn)
    ensures MessagesTo(conn, Deliveries(ls, u, open)) == []
    decreases |ls|
  {
    if ls != [] {
      var init := ls[..|ls| - 1];
      assert !HasListener(init, conn) by {
        forall l | l in init ensures l in ls { }
      }
      NoListenerNoMessages(conn, init, u, open);
      MessagesToAppend(conn, Deliveries(init, u, open), Forward(ls[|ls| - 1], u, open));
    }
  }

  lemma MessagesToForward(conn: nat, l: Listener, u: StatusMessage, open: set<nat>)
    ensures MessagesTo(conn, Forward(l, u, open)) ==
      if l.conn == conn && l.orderId == u.orderId && conn in open then [u] else []
  {
    if Forward(l, u, open) != [] {
      assert Forward(l, u, open)[..0] == [];
    }
  }

  lemma InitKeepsOnePerConnection(ls: seq<Listener>)
    requires OnePerConnection(ls) && ls != []
    ensures OnePerConnection(ls[..|ls| - 1])
  {
  }

  lemma LastIsOnlyListener(ls: seq<Listener>)
    requires OnePerConnection(ls) && ls != []
    ensures !HasListener(ls[..|ls| - 1], ls[|ls| - 1].conn)
  {
    var init := ls[..|ls| - 1];
    forall l | l in init ensures l.conn != ls[|ls| - 1].conn {
      var i :| 0 <= i < |init| && init[i] == l;
      assert ls[i] == l;
    }
  }

  /** With one listener per connection, a publication reaches a connection
      exactly once when the connection is open and subscribed to the
      update's order, and not at all otherwise. */
  lemma {:induction false} OneMessagePerSubscriber(conn: nat, ls: seq<Listener>, u: StatusMessage, open: set<nat>)
    requires OnePerConnection(ls)
    ensures MessagesTo(conn, Deliveries(ls, u, open)) ==
      if conn in open && Listener(conn, u.orderId) in ls then [u] else []
    decreases |ls|
  {
    if ls != [] {
      var init, last := ls[..|ls| - 1], ls[|ls| - 1];
      assert ls == init + [last];
      assert Listener(conn, u.orderId) in ls <==> Listener(conn, u.orderId) in init || last == Listener(conn, u.orderId);
      MessagesToAppend(conn, Deliveries(init, u, open), Forward(last, u, open));
      MessagesToForward(conn, last, u, open);
      if last.conn == conn {
        LastIsOnlyListener(ls);
        NoListenerNoMessages(conn, init, u, open);
      } else {
        InitKeepsOnePerConnection(ls);
        OneMessagePerSubscriber(conn, init, u, open);
      }
    }
  }

  /** With the registry fixed, an open connection subscribed to `orderId`
      receives exactly the updates for that order, in publication order. */
  lemma {:induction false} SubscriberSeesItsOrderInOrder(conn: nat, orderId: string, ls: seq<Listener>, us: seq<StatusMessage>, open: set<nat>)
    requires OnePerConnection(ls) && Listener(conn, orderId) in ls && conn in open
    ensures MessagesTo(conn, Broadcast(ls, us, open)) == ForOrder(us, orderId)
    decreases |us|
  {
    if us != [] {
      var init, last := us[..|us| - 1], us[|us| - 1];
      SubscriberSeesItsOrderInOrder(conn, orderId, ls, init, open);
      assert Broadcast(ls, us, open) == Broadcast(ls, init, open) + Deliveries(ls, last, open);
      MessagesToAppend(conn, Broadcast(ls, init, open), Deliveries(ls, last, open));
      OneMessagePerSubscriber(conn, ls, last, open);
      assert Listener(conn, last.orderId) in ls <==> last.orderId == orderId;
    }
  }

  /** A connection with no listener receives nothing from a run of
      publications. */
  lemma {:induction false} DetachedSeesNothing(conn: nat, ls: seq<Listener>, us: seq<StatusMessage>, open: set<nat>)
    requires !HasListener(ls, conn)
    ensures MessagesTo(conn, Broadcast(ls, us, open)) == []
    decreases |us|
  {
    if us != [] {
      var init, last := us[..|us| - 1], us[|us| - 1];
      DetachedSeesNothing(conn, ls, init, open);
      MessagesToAppend(conn, Broadcast(ls, init, open), Deliveries(ls, last, open));
      NoListenerNoMessages(conn, ls, last, open);
    }
  }

  /** Two open connections subscribed to the same order receive the same
      updates. */
  lemma SubscribersOfOneOrderAgree(c1: nat, c2: nat, orderId: string, ls: seq<Listener>, us: seq<StatusMessage>, open: set<nat>)
    requires OnePerConnection(ls) && c1 in open && c2 in open
    requires Listener(c1, orderId) in ls && Listener(c2, orderId) in ls
    ensures MessagesTo(c1, Broadcast(ls, us, open)) == MessagesTo(c2, Broadcast(ls, us, open))
  {
    SubscriberSeesItsOrderInOrder(c1, orderId, ls, us, open);
    SubscriberSeesItsOrderInOrder(c2, orderId, ls, us, open);
  }

  /** Removing a connection's listener leaves the connection with none,
      and the registry still holds one listener per connection. */
  lemma OffDetaches(ls: seq<Listener>, l: Listener)
    requires OnePerConnection(ls) && l in ls
    ensures !HasListener(RemoveLast(ls, l), l.conn)
    ensures OnePerConnection(RemoveLast(ls, l))
  {
    var i := LastIndexOf(ls, l);
    var r := RemoveLast(ls, l);
    assert r == ls[..i] + ls[i + 1..];
    assert forall k :: 0 <= k < |r| ==> r[k] == ls[if k < i then k else k + 1];
    forall m | m in r ensures m.conn != l.conn {
      var k :| 0 <= k < |r| && r[k] == m;
    }
  }

  /** A listener of another connection contributes nothing to `other`. */
  lemma SkipForeignListener(other: nat, a: seq<Listener>, l: Listener, b: seq<Listener>, u: StatusMessage, open: set<nat>)
    requires l.conn != other
    ensures MessagesTo(other, Deliveries(a + [l] + b, u, open)) == MessagesTo(other, Deliveries(a + b, u, open))
  {
    var d, da, db := Deliveries(a + [l], u, open), Deliveries(a, u, open), Deliveries(b, u, open);
    assert (a + [l])[..|a + [l]| - 1] == a;
    assert d == da + Forward(l, u, open);
    DeliveriesAppend(a + [l], b, u, open);
    DeliveriesAppend(a, b, u, open);
    MessagesToForward(other, l, u, open);
    MessagesToAppend(other, d, db);
    MessagesToAppend(other, da, Forward(l, u, open));
    MessagesToAppend(other, da, db);
  }

  /** Removing one connection's listener changes nothing that any other
      connection receives from a publication. */
  lemma DetachLeavesOthersAlone(c: nat, orderId: string, other: nat, ls: seq<Listener>, u: StatusMessage, open: set<nat>)
    requires other != c
    ensures MessagesTo(other, Deliveries(RemoveLast(ls, Listener(c, orderId)), u, open)) ==
            MessagesTo(other, Deliveries(ls, u, open))
  {
    var l := Listener(c, orderId);
    var i := LastIndexOf(ls, l);
    if 0 <= i {
      assert ls == ls[..i] + [l] + ls[i + 1..];
      SkipForeignListener(other, ls[..i], l, ls[i + 1..], u, open);
    }
  }

  /** The same over a run of publications. */
  lemma {:induction false} DetachLeavesOthersAloneOverRun(c: nat, orderId: string, other: nat, ls: seq<Listener>, us: seq<StatusMessage>, open: set<nat>)
    requires other != c
    ensures MessagesTo(other, Broadcast(RemoveLast(ls, Listener(c, orderId)), us, open)) ==
            MessagesTo(other, Broadcast(ls, us, open))
    decreases |us|
  {
    if us != [] {
      var r := RemoveLast(ls, Listener(c, orderId));
      var init, last := us[..|us| - 1], us[|us| - 1];
      DetachLeavesOthersAloneOverRun(c, orderId, other, ls, init, open);
      MessagesToAppend(other, Broadcast(r, init, open), Deliveries(r, last, open));
      MessagesToAppend(other, Broadcast(ls, init, open), Deliveries(ls, last, open));
      DetachLeavesOthersAlone(c, orderId, other, ls, last, open);
    }
  }

  /** After another connection detaches, a subscriber still receives
      exactly its own order's updates, in publication order. */
  lemma SurvivorSeesItsOrderInOrder(c: nat, orderId: string, other: nat, otherId: string, ls: seq<Listener>, us: seq<StatusMessage>, open: set<nat>)
    requires OnePerConnection(ls) && Listener(other, otherId) in ls && other in open && other != c
    ensures MessagesTo(other, Broadcast(RemoveLast(ls, Listener(c, orderId)), us, open)) == ForOrder(us, otherId)
  {
    var l := Listener(c, orderId);
    if l in ls {
      OffDetaches(ls, l);
    }
    SubscriberSeesItsOrderInOrder(other, otherId, RemoveLast(ls, l), us, open);
  }

  /** The shared emitter and the event log behind it. */
  class StatusBus {
    var listeners: seq<Listener>
    var log: seq<LogRecord>

    constructor ()
      ensures listeners == [] && log == []
    {
      listeners, log := [], [];
    }

    /** `orderEvents.on('status', l)`. */
    method On(l: Listener)
      modifies this`listeners
      ensures listeners == old(listeners) + [l]
    {
      listeners := listeners + [l];
    }

    /** `orderEvents.off('status', l)`. */
    method Off(l: Listener)
      modifies this`listeners
      ensures listeners == RemoveLast(old(listeners), l)
    {
      listeners := RemoveLast(listeners, l);
    }

    /** `emitStatusUpdate`: every listener runs, in registration order,
        then the log record is appended. When the log write is rejected
        (`logFails`) the call fails, but the listeners have already run
        and the log is left as it was. */
    method EmitStatusUpdate(u: StatusMessage, sockets: SocketTable, now: Timestamp, logFails: bool) returns (ok: bool)
      modifies sockets`wire, this`log
      ensures sockets.wire == old(sockets.wire) + Deliveries(listeners, u, sockets.open)
      ensures ok == !logFails
      ensures log == old(log) + (if ok then [RecordOf(u, now)] else [])
    {
      var i := 0;
      while i < |listeners|
        invariant 0 <= i <= |listeners|
        invariant sockets.wire == old(sockets.wire) + Deliveries(listeners[..i], u, sockets.open)
        invariant log == old(log)
      {
        var l := listeners[i];
        assert listeners[..i + 1][..i] == listeners[..i];
        if u.orderId == l.orderId && l.conn in sockets.open {
          sockets.Send(l.conn, u);
        }
        i := i + 1;
      }
      assert listeners[..|listeners|] == listeners;
      if logFails {
        ok := false;
      } else {
        log := log + [RecordOf(u, now)];
        ok := true;
      }
    }
  }
}
