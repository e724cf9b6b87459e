/** `ProxyWebSocketClient`: the sections its coroutines run between one await and the next, on the fields they share.
    Each is tied to the functions the transition system of `Engine` is made of. */
module Client {
  import opened Wire
  import opened Dialects
  import opened Rpc
  import opened PendingMap
  import opened Correlation
  import opened Registry
  import opened Reconnect
  import opened Connections

  class Connection {
    ghost const id: nat           // its number in order of creation
    var open: bool                // whether the socket is usable
    var connectedAt: Option<real>

    constructor (ghost id: nat)
      ensures this.id == id && !open && connectedAt == None
    {
      this.id := id;
      open, connectedAt := false, None;
    }

    method SocketOpened()
      modifies this`open
      ensures open
    {
      open := true;
    }

    /** The end of `open()`, once the handshake has been accepted. */
    method HandshakeAccepted(now: real)
      modifies this`connectedAt
      ensures connectedAt == Some(now)
    {
      connectedAt := Some(now);
    }

    method Close()
      modifies this`open
      ensures !open
    {
      if open {
        open := false;
      }
    }
  }

  ghost function ConnsOf(cs: seq<Connection>): (r: seq<Conn>)
    reads cs
    ensures |r| == |cs| && forall i :: 0 <= i < |cs| ==> r[i] == Conn(cs[i].open, cs[i].connectedAt)
  {
    if cs == [] then []
    else ConnsOf(cs[..|cs| - 1]) + [Conn(cs[|cs| - 1].open, cs[|cs| - 1].connectedAt)]
  }

  /** How the first section of `request` ends. */
  datatype Begun =
    | Refused                                        // NotImplementedError
    | Unconnected                                    // RuntimeError, already discarded
    | Sending(key: Key, fut: Future, conn: Connection, frame: Frame)

  class ProxyWebSocketClient {
    const dialect: Dialect
    const reconnect: Option<Policy>
    const pending: PendingRequests
    var running: bool
    var shutdown: bool
    var conn: Connection?
    var subscriptions: seq<Entry>
    ghost var made: seq<Connection>

    ghost predicate Valid()
      reads this, pending
    {
      && pending.Valid()
      && (forall i :: 0 <= i < |made| ==> made[i].id == i)
      && (conn != null ==> conn.id < |made| && made[conn.id] == conn)
    }

    ghost function Current(): Option<nat>
      reads this
    {
      if conn == null then None else Some(conn.id)
    }

    ghost function View(): Link
      reads this, made
    {
      Link(running, shutdown, Current(), ConnsOf(made))
    }

    constructor (dialect: Dialect, reconnect: Option<Policy>)
      ensures Valid() && View() == INITIAL_LINK && pending.View() == EMPTY && subscriptions == []
      ensures this.dialect == dialect && this.reconnect == reconnect
    {
      this.dialect, this.reconnect := dialect, reconnect;
      pending := new PendingRequests();
      running, shutdown, conn, subscriptions, made := false, false, null, [], [];
    }

    /** `self._conn = _Connection(...)` */
    method NewConnection()
      requires Valid()
      modifies this`conn, this`made
      ensures Valid() && View() == old(View()).Fresh()
      ensures conn != null && fresh(conn) && made == old(made) + [conn]
    {
      conn := new Connection(|made|);
      made := made + [conn];
    }

    /** `open()`, when the socket is there. */
    method SocketOpened(c: Connection)
      requires Valid() && c.id < |made| && made[c.id] == c
      modifies c
      ensures Valid() && made == old(made) && View() == old(View()).WithOpen(c.id, true)
    {
      c.SocketOpened();
    }

    /** The end of `open()`. The connection need not be current any more. */
    method HandshakeAccepted(c: Connection, now: real)
      requires Valid() && c.id < |made| && made[c.id] == c
      modifies c
      ensures Valid() && made == old(made) && View() == old(View()).Authenticated(c.id, now)
    {
      c.HandshakeAccepted(now);
    }

    /** `start()` up to `open()`; refused when already running. */
    method StartBegins() returns (refused: bool)
      requires Valid()
      modifies this`running, this`shutdown, this`conn, this`made
      ensures Valid() && refused == old(running)
      ensures View() == if refused then old(View()) else old(View()).Begun()
    {
      if running {
        return true;
      }
      running, shutdown := true, false;
      NewConnection();
      return false;
    }

    /** `stop()` up to joining its tasks; a no-op when not running. */
    method StopBegins() returns (ignored: bool)
      requires Valid()
      modifies this`running, this`shutdown
      ensures Valid() && ignored == !old(running)
      ensures View() == if ignored then old(View()) else old(View()).Ended()
    {
      if !running {
        return true;
      }
      running, shutdown := false, true;
      return false;
    }

    /** `stop()` from closing the connection to the end. */
    method StopFinishes()
      requires Valid()
      modifies this`conn, made, pending`futures, pending.created
      ensures Valid() && made == old(made) && pending.created == old(pending.created)
      ensures View() == old(View()).Closed()
      ensures pending.View() == Flush(old(pending.View()), Cancelled)
    {
      CloseCurrent();
      assert pending.View() == old(pending.View());
      ghost var closed := View();
      pending.CancelAll();
      assert View() == closed;
    }

    method CloseCurrent()
      requires Valid()
      modifies this`conn, made
      ensures Valid() && made == old(made) && View() == old(View()).Closed()
    {
      if conn != null {
        conn.Close();
      }
      conn := null;
    }

    /** The connection `send` binds; `null` stands for its RuntimeError. */
    method BoundConnection() returns (c: Connection?)
      requires Valid()
      ensures c != null <==> View().IsConnected()
      ensures c != null ==> c == conn && c.open
    {
      c := conn;
      if c != null && !c.open {
        c := null;
      }
    }

    /** The frame `request` is going to send; `generated` is what `new_idempotency_key` would return. */
    method FrameRequest(verb: string, params: Frame, key: Option<string>, generated: string)
        returns (framed: Option<Framed>)
      requires Valid()
      modifies pending`counter
      ensures Valid() && pending.created == old(pending.created)
      ensures var n := old(pending.View()).counter + 1;
              && pending.View() == old(pending.View()).(counter := n)
              && framed == dialect.RequestFrame(verb, params, n, EffectiveKey(verb, key, generated),
                                                verb in ORDER_METHODS)
              && (framed.Some? ==> framed.value.key == dialect.KeyFor(n))
    {
      var isOrder := verb in ORDER_METHODS;
      var idempotencyKey := key;
      if isOrder && (key == None || key.value == "") {
        idempotencyKey := Some(generated);
      }
      var n := pending.NextId();
      framed := dialect.RequestFrame(verb, params, n, idempotencyKey, isOrder);
    }

    /** `request` up to its first await. */
    method RequestBegins(verb: string, params: Frame, key: Option<string>, generated: string) returns (b: Begun)
      requires Valid()
      modifies pending`counter, pending`futures, pending`created
      ensures Valid()
      ensures var n := old(pending.View()).counter + 1;
              var framed := dialect.RequestFrame(verb, params, n, EffectiveKey(verb, key, generated),
                                                 verb in ORDER_METHODS);
              && pending.View() == RequestTable(dialect, old(pending.View()), framed == None, View().IsConnected())
              && (b.Refused? <==> framed == None)
              && (b.Sending? <==> framed.Some? && View().IsConnected())
              && (b.Sending? ==> framed == Some(Framed(b.frame, b.key)) && b.key == dialect.KeyFor(n) && b.conn == conn
                                 && b.fut.id == |old(pending.created)| && b.fut.key == b.key)
    {
      var framed := FrameRequest(verb, params, key, generated);
      if framed == None {
        return Refused;
      }
      KeysAreFresh(dialect, pending.counter);
      b := Register(framed.value);
    }

    method Register(framed: Framed) returns (b: Begun)
      requires Valid() && framed.key != PONG_KEY
      modifies pending`futures, pending`created
      ensures Valid() && !b.Refused?
      ensures var created := Rpc.Create(old(pending.View()), framed.key);
              pending.View() == if View().IsConnected() then created else Rpc.Discard(created, framed.key)
      ensures b.Sending? <==> View().IsConnected()
      ensures b.Sending? ==> framed == Framed(b.frame, b.key) && b.conn == conn
                             && b.fut.id == |old(pending.created)| && b.fut.key == b.key
    {
      var fut := pending.Create(framed.key);
      var c := BoundConnection();
      if c == null {
        pending.Discard(framed.key);
        return Unconnected;
      }
      return Sending(framed.key, fut, c, framed.frame);
    }

    /** The `finally` of `request`. */
    method RequestEnds(key: Key, ghost fut: nat)
      requires Valid() && key != PONG_KEY
      modifies pending`futures
      ensures Valid() && pending.created == old(pending.created)
      ensures pending.View() == Released(old(pending.View()), Held(key, fut))
    {
      pending.Discard(key);
    }

    /** `_ping_once` up to its first await; `null` stands for the RuntimeError of `send`. */
    method PingBegins() returns (fut: Future?)
      requires Valid()
      modifies pending`futures, pending`created
      ensures Valid() && pending.View() == PingTable(dialect, old(pending.View()), View().IsConnected())
      ensures fut != null <==> View().IsConnected()
      ensures fut != null ==> fut.id == |old(pending.created)|
    {
      fut := pending.ExpectPong();
      var c := BoundConnection();
      if c == null {
        pending.DiscardPong(fut);
        fut := null;
      }
    }

    /** Its `finally`. */
    method PingEnds(fut: Future)
      requires Valid() && fut.id < |pending.created| && pending.created[fut.id] == fut
      modifies pending`futures
      ensures Valid() && pending.created == old(pending.created)
      ensures pending.View() == Released(old(pending.View()), Held(PONG_KEY, fut.id))
    {
      pending.DiscardPong(fut);
    }

    /** The supervisor between a pump and the next await. `None` means that it returns without a decision. */
    method PumpEnded(attempt: nat, error: Option<Failure>, now: real) returns (decision: Option<Decision>)
      requires Valid()
      modifies this`running, this`shutdown, pending`futures, pending.created
      ensures Valid() && made == old(made) && pending.created == old(pending.created)
      ensures !old(running) ==> decision == None && View() == old(View()) && pending.View() == old(pending.View())
      ensures old(running) ==>
                && pending.View() == Flush(old(pending.View()), Failed(AsConnectionError(error)))
                && decision == DecisionOn(reconnect, old(View()), attempt, now)
                && View() == AfterDecision(old(View()), decision)
    {
      if !running {
        return None;
      }
      pending.FailAll(AsConnectionError(error));
      decision := Conclude(attempt, now);
    }

    method Conclude(attempt: nat, now: real) returns (decision: Option<Decision>)
      requires Valid()
      modifies this`running, this`shutdown
      ensures Valid() && decision == DecisionOn(reconnect, old(View()), attempt, now)
      ensures View() == AfterDecision(old(View()), decision)
    {
      decision := DecideReconnect(attempt, now);
      if decision == None || decision.value.answer.GiveUp? {
        running, shutdown := false, true;
      }
    }

    /** `_decide_reconnect` */
    method DecideReconnect(attempt: nat, now: real) returns (decision: Option<Decision>)
      requires Valid()
      ensures decision == DecisionOn(reconnect, View(), attempt, now)
      ensures var up := if conn != null && conn.connectedAt.Some? then now - conn.connectedAt.value else 0.0;
              decision.Some? ==> decision.value.attempt == if up >= 5.0 then 0 else attempt + 1
    {
      if reconnect == None {
        return None;
      }
      var healthy := conn != null && conn.connectedAt.Some? && now - conn.connectedAt.value >= RESET_AFTER;
      var next := if healthy then 0 else attempt + 1;
      return Some(Decision(next, reconnect.value(next)));
    }

    /** A heartbeat whose ping on `bound` has timed out: whether it closes that connection. */
    method HeartbeatExpires(bound: Connection?) returns (closes: bool)
      requires Valid() && (bound != null ==> bound.id < |made| && made[bound.id] == bound)
      ensures closes == View().ClosesOnTimeout(if bound == null then None else Some(bound.id))
      ensures closes ==> bound == conn
    {
      closes := bound != null && bound == conn && bound.open;
    }

    /** Closing it, which may happen after other connections have been made. */
    method HeartbeatCloses(bound: Connection)
      requires Valid() && bound.id < |made| && made[bound.id] == bound
      modifies bound
      ensures Valid() && made == old(made) && View() == old(View()).WithOpen(bound.id, false)
    {
      bound.Close();
    }

    /** `subscribe` after its acknowledgement. */
    method Subscribed(channel: string, params: Frame, persist: bool, ghost id: nat)
      modifies this`subscriptions
      ensures subscriptions
           == if persist then Registry.Step(old(subscriptions), Op(EntryOf(channel, params), true, params, id))
              else old(subscriptions)
    {
      if persist {
        var entry := EntryOf(channel, params);
        if entry !in subscriptions {
          subscriptions := subscriptions + [entry];
        }
      }
    }

    /** `unsubscribe` after its acknowledgement. */
    method Unsubscribed(channel: string, params: Frame, ghost id: nat)
      modifies this`subscriptions
      ensures subscriptions == Registry.Step(old(subscriptions), Op(EntryOf(channel, params), false, params, id))
    {
      var entry, i := EntryOf(channel, params), 0;
      while i < |subscriptions| && subscriptions[i] != entry
        invariant i <= |subscriptions| && subscriptions == old(subscriptions) 
        invariant forall q :: 0 <= q < i ==> subscriptions[q] != entry
      {
        i := i + 1;
      }
      if i < |subscriptions| {
        RemoveFirst(subscriptions, i);
        subscriptions := subscriptions[..i] + subscriptions[i + 1..];
      } else {
        RemoveAbsent(subscriptions, entry);
      }
    }
  }
}
