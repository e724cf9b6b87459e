/** The pending-request table of `_rpc.py` as a value: the operations that `PendingRequests` performs on
    heap-allocated futures, stated on future numbers. */
module Rpc {
  import opened Wire

  datatype Failure =
    | ConnectionError(cause: Option<string>)  // what callers of a dropped request see
    | OtherError(description: string)

  /** `_as_connection_error`: whatever ended the connection, callers see a ConnectionError, with anything
      that was not one already chained as the cause. */
  function AsConnectionError(error: Option<Failure>): (r: Failure)
    ensures r.ConnectionError?
    ensures error.Some? && error.value.OtherError? ==> r.cause == Some(error.value.description)
    ensures error.Some? && error.value.ConnectionError? ==> r == error.value
    ensures error == None ==> r.cause == None
  {
    match error
    case None => ConnectionError(None)
    case Some(ConnectionError(c)) => ConnectionError(c)
    case Some(OtherError(text)) => ConnectionError(Some(text))
  }

  datatype Outcome = Pending | Result(msg: Frame) | Failed(error: Failure) | Cancelled

  datatype Fut = Fut(key: Key, outcome: Outcome)

  /** `pending` maps keys to future numbers; `futures` holds every future ever created, oldest first. */
  datatype Table = Table(counter: nat, pending: map<Key, nat>, futures: seq<Fut>)

  const EMPTY := Table(0, map[], [])

  /** Where `resolve` sends a frame. Hashing an unhashable id raises out of `resolve`. */
  datatype Routing = Consumed | Push | Raised

  predicate Registered(t: Table, f: nat) {
    f in t.pending.Values
  }

  ghost predicate WellFormed(t: Table) {
    forall k :: k in t.pending ==> t.pending[k] < |t.futures| && t.futures[t.pending[k]].key == k
  }

  function OutcomeAt(t: Table, f: nat): Outcome {
    if f < |t.futures| then t.futures[f].outcome else Pending
  }

  function Create(t: Table, key: Key): Table {
    t.(pending := t.pending[key := |t.futures|], futures := t.futures + [Fut(key, Pending)])
  }

  function Discard(t: Table, key: Key): Table {
    t.(pending := t.pending - {key})
  }

  function DiscardPong(t: Table, fut: Option<nat>): Table {
    if fut == None || (PONG_KEY in t.pending && t.pending[PONG_KEY] == fut.value) then Discard(t, PONG_KEY)
    else t
  }

  /** A future that is done keeps its outcome. */
  function SettleFut(x: Fut, outcome: Outcome): Fut {
    if x.outcome.Pending? then x.(outcome := outcome) else x
  }

  function SettleAt(t: Table, f: nat, outcome: Outcome): Table {
    if f < |t.futures| then t.(futures := t.futures[f := SettleFut(t.futures[f], outcome)]) else t
  }

  /** The frame a reply or pong goes to, if any: its key's slot. */
  function Target(msg: Frame, key: Correlation): Option<Key> {
    if IsPong(msg) then Some(PONG_KEY)
    else if key.Keyed? then Some(key.key)
    else None
  }

  function RoutingOf(t: Table, msg: Frame, key: Correlation): Routing {
    if !IsPong(msg) && key.Unhashable? then Raised
    else if Target(msg, key).Some? && Target(msg, key).value in t.pending then Consumed
    else if !IsPong(msg) && IsError(msg) && key.NoKey? then Consumed
    else Push
  }

  function Resolve(t: Table, msg: Frame, key: Correlation): Table {
    if Target(msg, key).Some? && Target(msg, key).value in t.pending
    then SettleAt(t, t.pending[Target(msg, key).value], Result(msg))
    else t
  }

  /** `fail_all` and `cancel_all`: settle what is registered and not done, then forget every registration. */
  function Flush(t: Table, outcome: Outcome): Table {
    t.(pending := map[],
       futures := seq(|t.futures|, i requires 0 <= i < |t.futures| =>
         if Registered(t, i) then SettleFut(t.futures[i], outcome) else t.futures[i]))
  }

  // ---- laws of the table --------------------------------------------------------------------

  /** What a drop does: nothing stays registered, registered futures that were still pending fail with
      the given error, done ones keep their outcome, and unregistered ones are untouched. */
  lemma FlushLaw(t: Table, outcome: Outcome, f: nat)
    requires f < |t.futures|
    ensures var after := Flush(t, outcome);
            && after.pending == map[] && |after.futures| == |t.futures|
            && after.futures[f].key == t.futures[f].key
            && after.futures[f].outcome
               == if t.futures[f].outcome.Pending? && Registered(t, f) then outcome else t.futures[f].outcome
  {
  }

  /** A frame is either consumed or handed on. Handing it on changes nothing; consuming it settles at most
      the one future registered under its key, and never one that is done. A pong nobody waits for is
      handed on like any other push; an error frame without an id is swallowed; an id that cannot be hashed raises. */
  lemma RoutingLaw(t: Table, msg: Frame, key: Correlation)
    requires WellFormed(t)
    ensures RoutingOf(t, msg, key) != Consumed ==> Resolve(t, msg, key) == t
    ensures var after := Resolve(t, msg, key);
            && after.pending == t.pending && |after.futures| == |t.futures|
            && forall f :: 0 <= f < |t.futures| && after.futures[f] != t.futures[f] ==>
                 && RoutingOf(t, msg, key) == Consumed
                 && t.futures[f].outcome.Pending? && after.futures[f].outcome == Result(msg)
                 && Target(msg, key) == Some(t.futures[f].key) && t.pending[t.futures[f].key] == f
    ensures IsPong(msg) ==> (RoutingOf(t, msg, key) == Consumed <==> PONG_KEY in t.pending)
    ensures !IsPong(msg) ==>
              && (RoutingOf(t, msg, key) == Raised <==> key.Unhashable?)
              && (RoutingOf(t, msg, key) == Consumed
                  <==> (key.Keyed? && key.key in t.pending) || (key.NoKey? && IsError(msg)))
  {
  }

  /** Exactly the frames whose "event" is "pong" are pongs, whatever else they say. While a ping is registered it
      gets the pong, and nobody else's future changes; otherwise the pong is handed on. */
  lemma PongsByName(t: Table, msg: Frame, key: Correlation)
    requires WellFormed(t) && "event" in msg && msg["event"] == Str("pong")
    ensures var slot := StrKey("__pong__");
            if slot in t.pending then
              && RoutingOf(t, msg, key) == Consumed
              && Resolve(t, msg, key)
                 == t.(futures := t.futures[t.pending[slot] := SettleFut(t.futures[t.pending[slot]], Result(msg))])
            else RoutingOf(t, msg, key) == Push && Resolve(t, msg, key) == t
  {
  }

  /** Every other frame leaves a registered ping alone, unless it spells the name of its slot in the correlation
      field. */
  lemma NoPongByAnotherName(t: Table, msg: Frame, key: Correlation)
    requires WellFormed(t) && StrKey("__pong__") in t.pending && key != Keyed(StrKey("__pong__"))
    requires "event" !in msg || msg["event"] != Str("pong")
    ensures Resolve(t, msg, key).futures[t.pending[StrKey("__pong__")]] == t.futures[t.pending[StrKey("__pong__")]]
  {
  }

  /** Any frame that is no pong goes by its id: to whoever waits under it, and to the handlers if nobody does.
      Without an id, exactly the frames whose "event" is "error" are swallowed. */
  lemma ErrorsByName(t: Table, msg: Frame, key: Correlation)
    requires WellFormed(t) && ("event" in msg ==> msg["event"] != Str("pong"))
    ensures var error := "event" in msg && msg["event"] == Str("error");
            && (key.NoKey? ==>
                  RoutingOf(t, msg, key) == (if error then Consumed else Push) && Resolve(t, msg, key) == t)
            && (key.Unhashable? ==> RoutingOf(t, msg, key) == Raised && Resolve(t, msg, key) == t)
            && (key.Keyed? && key.key !in t.pending ==> RoutingOf(t, msg, key) == Push && Resolve(t, msg, key) == t)
            && (key.Keyed? && key.key in t.pending ==>
                  RoutingOf(t, msg, key) == Consumed
                  && Resolve(t, msg, key)
                     == t.(futures := t.futures[t.pending[key.key]
                                                := SettleFut(t.futures[t.pending[key.key]], Result(msg))]))
  {
  }

  /** Registering, settling and discarding is the life of one request. */
  lemma RequestLife(t: Table, key: Key, msg: Frame)
    requires WellFormed(t) && !IsPong(msg)
    ensures var f := |t.futures|;
            var replied := Resolve(Create(t, key), msg, Keyed(key));
            && RoutingOf(Create(t, key), msg, Keyed(key)) == Consumed
            && replied.futures[f].outcome == Result(msg) && replied.futures[..f] == t.futures
            && (key !in t.pending ==> Discard(replied, key).pending == t.pending)
            && RoutingOf(Discard(replied, key), msg, Keyed(key)) == Push
  {
    var c := Create(t, key);
    assert c.futures[..|t.futures|] == t.futures;
    if key !in t.pending {
      assert Discard(Resolve(c, msg, Keyed(key)), key).pending == t.pending;
    }
  }
}
