/** The client's connection state: the running and shutdown flags, the connections made so far and which of them
    is current. A connection is known by its number; `_conn is conn` compares numbers. */
module Connections {
  import opened Wire
  import opened Reconnect

  /** `connectedAt` is set once the handshake is accepted. */
  datatype Conn = Conn(open: bool, connectedAt: Option<real>)

  datatype Link = Link(running: bool, shutdown: bool, conn: Option<nat>, conns: seq<Conn>) {
    predicate Valid() {
      conn.Some? ==> conn.value < |conns|
    }

    /** What `send` checks before it writes. */
    predicate IsConnected() {
      conn.Some? && conn.value < |conns| && conns[conn.value].open
    }

    /** `self._conn = _Connection(...)` */
    function Fresh(): Link {
      this.(conn := Some(|conns|), conns := conns + [Conn(false, None)])
    }

    function WithOpen(c: nat, open: bool): Link {
      if c < |conns| then this.(conns := conns[c := conns[c].(open := open)]) else this
    }

    function Authenticated(c: nat, now: real): Link {
      if c < |conns| then this.(conns := conns[c := conns[c].(connectedAt := Some(now))]) else this
    }

    /** The current connection's life as the reconnect decision sees it; a missing or unauthenticated one
        counts as never up. */
    function LifeAt(now: real): Life {
      Life(if conn.Some? && conn.value < |conns| then conns[conn.value].connectedAt else None, now)
    }

    function Begun(): Link {
      this.(running := true, shutdown := false).Fresh()
    }

    function Ended(): Link {
      this.(running := false, shutdown := true)
    }

    /** The end of `stop`: the current connection closed and forgotten. */
    function Closed(): Link {
      (if conn.Some? then WithOpen(conn.value, false) else this).(conn := None)
    }

    /** Whether a heartbeat that pinged on `bound` closes it when the ping times out. */
    predicate ClosesOnTimeout(bound: Option<nat>) {
      bound.Some? && bound == conn && IsConnected()
    }
  }

  const INITIAL_LINK := Link(false, false, None, [])

  /** What follows the end of a pump. `None` when reconnecting is disabled. */
  function DecisionOn(reconnect: Option<Policy>, link: Link, attempt: nat, now: real): Option<Decision> {
    if reconnect == None then None else Some(Decide(reconnect.value, attempt, link.LifeAt(now)))
  }

  /** The flags after that decision: giving up ends the client; a raising policy leaves it marked running. */
  function AfterDecision(link: Link, decision: Option<Decision>): Link {
    if decision == None || decision.value.answer.GiveUp? then link.Ended() else link
  }
}
