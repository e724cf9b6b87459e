/** The handler registry and the routing of inbound frames: `on_message` first, then the pending table, then the
    channel handlers. Handlers are numbered; which of them raise on which frame is an arbitrary function. */
module Dispatch {
  import opened Wire
  import opened Dialects
  import opened Rpc
  import opened PendingMap

  type Handler = nat

  type Handlers = map<string, seq<Handler>>

  /** What the outside observes of dispatching. `Reported` is one exception going to `on_error` or the log. */
  datatype Event = Seen(msg: Frame) | Called(handler: Handler, msg: Frame) | Reported(msg: Frame)

  type Faults = (Handler, Frame) -> bool

  // ---- specification ------------------------------------------------------------------------

  /** `channel in self._handlers` hashes the channel: a non-empty list or object raises. */
  predicate ChannelRaises(channel: Value) {
    (channel.List? || channel.Dict?) && Truthy(channel)
  }

  function HandlersOf(hs: Handlers, name: string): seq<Handler> {
    if name in hs then hs[name] else []
  }

  function ChannelHandlers(hs: Handlers, channel: Value): seq<Handler> {
    if channel.Str? && channel.s != "" then HandlersOf(hs, channel.s) else []
  }

  /** Who gets a delivered frame, in order: the channel's handlers, then the wildcard ones. Heartbeats go to nobody
      unless someone has asked for that channel. */
  function Recipients(hs: Handlers, channel: Value): seq<Handler> {
    if channel == Str("heartbeat") && "heartbeat" !in hs then []
    else ChannelHandlers(hs, channel) + HandlersOf(hs, "*")
  }

  function CallOne(faults: Faults, h: Handler, msg: Frame): seq<Event> {
    [Called(h, msg)] + if faults(h, msg) then [Reported(msg)] else []
  }

  function Calls(faults: Faults, to: seq<Handler>, msg: Frame): seq<Event> {
    if to == [] then [] else Calls(faults, to[..|to| - 1], msg) + CallOne(faults, to[|to| - 1], msg)
  }

  function HookTrace(hookFails: Frame -> bool, msg: Frame): seq<Event> {
    [Seen(msg)] + if hookFails(msg) then [Reported(msg)] else []
  }

  /** One frame against the table `t`: does dispatching raise, what is observed, and the table afterwards. */
  datatype Dispatched = Dispatched(raised: bool, trace: seq<Event>, table: Table)

  datatype Setup = Setup(dialect: Dialect, handlers: Handlers, faults: Faults, hookFails: Frame -> bool)

  function DispatchOne(u: Setup, t: Table, msg: Frame): Dispatched {
    var key, channel := u.dialect.ResponseKey(msg), u.dialect.ChannelOf(msg);
    var routing := RoutingOf(t, msg, key);
    Dispatched(routing.Raised? || (routing.Push? && ChannelRaises(channel)),
               HookTrace(u.hookFails, msg) + DeliverTrace(u, msg, routing),
               Rpc.Resolve(t, msg, key))
  }

  /** Only a frame that is handed on reaches handlers. */
  function DeliverTrace(u: Setup, msg: Frame, routing: Routing): seq<Event> {
    var channel := u.dialect.ChannelOf(msg);
    if routing.Push? && !ChannelRaises(channel) then Calls(u.faults, Recipients(u.handlers, channel), msg) else []
  }

  function RecipientsOf(u: Setup, msg: Frame): seq<Handler> {
    Recipients(u.handlers, u.dialect.ChannelOf(msg))
  }

  /** A raw frame as the read loop meets it: not JSON, or a parsed frame with the pending table and the handler registry
      that are found once `on_message` has returned. Other tasks register, discard and add handlers at every await in
      between, so nothing relates what one frame finds to what the frame before it left. */
  datatype Arrival = NotJson | Parsed(msg: Frame, found: Table, handlers: Handlers)

  function SetupAt(u: Setup, a: Arrival): Setup
    requires a.Parsed?
  {
    u.(handlers := a.handlers)
  }

  function Dispatching(u: Setup, a: Arrival): Dispatched
    requires a.Parsed?
  {
    DispatchOne(SetupAt(u, a), a.found, a.msg)
  }

  /** A stream; reading stops at the first raise. `read` counts the raw frames taken from it. */
  datatype Pumped = Pumped(raised: bool, read: nat, trace: seq<Event>)

  function PumpAll(u: Setup, stream: seq<Arrival>): Pumped {
    if stream == [] then Pumped(false, 0, [])
    else
      var p := PumpAll(u, stream[..|stream| - 1]);
      if p.raised then p else PumpNext(u, p, stream[|stream| - 1])
  }

  /** One more raw frame; what is not JSON is skipped. */
  function PumpNext(u: Setup, p: Pumped, a: Arrival): Pumped {
    match a
    case NotJson => p.(read := p.read + 1)
    case Parsed(_, _, _) => Pumped(Dispatching(u, a).raised, p.read + 1, p.trace + Dispatching(u, a).trace)
  }

  // ---- laws ---------------------------------------------------------------------------------

  function SeenIn(trace: seq<Event>): seq<Frame> {
    if trace == [] then []
    else SeenIn(trace[..|trace| - 1]) + match trace[|trace| - 1] case Seen(m) => [m] case _ => []
  }

  function CalledIn(trace: seq<Event>): seq<(Handler, Frame)> {
    if trace == [] then []
    else CalledIn(trace[..|trace| - 1]) + match trace[|trace| - 1] case Called(h, m) => [(h, m)] case _ => []
  }

  function ReportsIn(trace: seq<Event>): nat {
    if trace == [] then 0
    else ReportsIn(trace[..|trace| - 1]) + match trace[|trace| - 1] case Reported(_) => 1 case _ => 0
  }

  lemma {:induction false} SeenConcat(a: seq<Event>, b: seq<Event>)
    ensures SeenIn(a + b) == SeenIn(a) + SeenIn(b)
  {
    if b == [] {
      assert a + b == a;
    } else {
      SeenConcat(a, b[..|b| - 1]);
      assert (a + b)[..|a + b| - 1] == a + b[..|b| - 1];
    }
  }

  lemma {:induction false} CalledConcat(a: seq<Event>, b: seq<Event>)
    ensures CalledIn(a + b) == CalledIn(a) + CalledIn(b)
  {
    if b == [] {
      assert a + b == a;
    } else {
      CalledConcat(a, b[..|b| - 1]);
      assert (a + b)[..|a + b| - 1] == a + b[..|b| - 1];
    }
  }

  lemma {:induction false} ReportsConcat(a: seq<Event>, b: seq<Event>)
    ensures ReportsIn(a + b) == ReportsIn(a) + ReportsIn(b)
  {
    if b == [] {
      assert a + b == a;
    } else {
      ReportsConcat(a, b[..|b| - 1]);
      assert (a + b)[..|a + b| - 1] == a + b[..|b| - 1];
    }
  }

  lemma TraceConcat(a: seq<Event>, b: seq<Event>)
    ensures SeenIn(a + b) == SeenIn(a) + SeenIn(b)
    ensures CalledIn(a + b) == CalledIn(a) + CalledIn(b)
    ensures ReportsIn(a + b) == ReportsIn(a) + ReportsIn(b)
  {
    SeenConcat(a, b);
    CalledConcat(a, b);
    ReportsConcat(a, b);
  }

  function Pairs(to: seq<Handler>, msg: Frame): seq<(Handler, Frame)> {
    seq(|to|, i requires 0 <= i < |to| => (to[i], msg))
  }

  function Failing(faults: Faults, to: seq<Handler>, msg: Frame): nat {
    if to == [] then 0
    else Failing(faults, to[..|to| - 1], msg) + if faults(to[|to| - 1], msg) then 1 else 0
  }

  lemma OneTrace(faults: Faults, h: Handler, msg: Frame)
    ensures var tr := CallOne(faults, h, msg);
            SeenIn(tr) == [] && CalledIn(tr) == [(h, msg)] && ReportsIn(tr) == if faults(h, msg) then 1 else 0
  {
    TraceConcat([Called(h, msg)], if faults(h, msg) then [Reported(msg)] else []);
    assert CalledIn([Called(h, msg)]) == [(h, msg)];
  }

  /** Every recipient is called once, in order, whoever raises; each raise is reported once. */
  lemma {:induction false} CallsLaw(faults: Faults, to: seq<Handler>, msg: Frame)
    ensures var tr := Calls(faults, to, msg);
            CalledIn(tr) == Pairs(to, msg) && ReportsIn(tr) == Failing(faults, to, msg) && SeenIn(tr) == []
  {
    if to != [] {
      var n := |to| - 1;
      CallsLaw(faults, to[..n], msg);
      TraceConcat(Calls(faults, to[..n], msg), CallOne(faults, to[n], msg));
      OneTrace(faults, to[n], msg);
      assert Pairs(to, msg) == Pairs(to[..n], msg) + [(to[n], msg)];
    }
  }

  lemma HookLaw(hookFails: Frame -> bool, msg: Frame)
    ensures var tr := HookTrace(hookFails, msg);
            SeenIn(tr) == [msg] && CalledIn(tr) == [] && ReportsIn(tr) == if hookFails(msg) then 1 else 0
  {
    TraceConcat([Seen(msg)], if hookFails(msg) then [Reported(msg)] else []);
    assert SeenIn([Seen(msg)]) == [msg];
  }

  /** What one frame leaves in the trace, given where it is routed: `on_message` sees it once; only if it is handed on
      and its channel can be looked up are its recipients called, once each and in order. */
  lemma OneFrameTrace(u: Setup, msg: Frame, routing: Routing)
    ensures var tr, to := HookTrace(u.hookFails, msg) + DeliverTrace(u, msg, routing), RecipientsOf(u, msg);
            var on := routing.Push? && !ChannelRaises(u.dialect.ChannelOf(msg));
            && SeenIn(tr) == [msg]
            && CalledIn(tr) == (if on then Pairs(to, msg) else [])
            && ReportsIn(tr) == (if u.hookFails(msg) then 1 else 0) + (if on then Failing(u.faults, to, msg) else 0)
  {
    HookLaw(u.hookFails, msg);
    CallsLaw(u.faults, RecipientsOf(u, msg), msg);
    TraceConcat(HookTrace(u.hookFails, msg), DeliverTrace(u, msg, routing));
  }

  /** One frame: `on_message` sees it once; then it is consumed, which calls no handler and settles at most one
      future, or handed on, which changes no future and calls exactly its recipients. */
  lemma DispatchLaw(u: Setup, t: Table, msg: Frame)
    requires WellFormed(t)
    ensures var o, routing := DispatchOne(u, t, msg), RoutingOf(t, msg, u.dialect.ResponseKey(msg));
            && SeenIn(o.trace) == [msg]
            && (routing != Push || o.raised ==> CalledIn(o.trace) == [])
            && (routing == Push && !o.raised ==>
                  && CalledIn(o.trace) == Pairs(RecipientsOf(u, msg), msg)
                  && ReportsIn(o.trace)
                     == (if u.hookFails(msg) then 1 else 0) + Failing(u.faults, RecipientsOf(u, msg), msg))
            && (routing != Consumed ==> o.table == t) && WellFormed(o.table)
            && (forall f, g | 0 <= f < |t.futures| && 0 <= g < |t.futures| ::
                  o.table.futures[f] != t.futures[f] && o.table.futures[g] != t.futures[g] ==> f == g)
  {
    OneFrameTrace(u, msg, RoutingOf(t, msg, u.dialect.ResponseKey(msg)));
    RoutingLaw(t, msg, u.dialect.ResponseKey(msg));
  }

  // ---- whole streams ------------------------------------------------------------------------

  function FramesOf(stream: seq<Arrival>): seq<Frame> {
    if stream == [] then []
    else FramesOf(stream[..|stream| - 1]) + match stream[|stream| - 1] case NotJson => [] case Parsed(m, _, _) => [m]
  }

  function RoutingOn(u: Setup, a: Arrival): Routing
    requires a.Parsed?
  {
    RoutingOf(a.found, a.msg, u.dialect.ResponseKey(a.msg))
  }

  /** Dispatching raises out of the read loop: the frame's id or its channel cannot be hashed. */
  predicate RaisesOn(u: Setup, a: Arrival) {
    a.Parsed? && (RoutingOn(u, a).Raised? || (RoutingOn(u, a).Push? && ChannelRaises(u.dialect.ChannelOf(a.msg))))
  }

  /** The frame reaches handlers. */
  predicate HandedOn(u: Setup, a: Arrival) {
    a.Parsed? && RoutingOn(u, a).Push? && !RaisesOn(u, a)
  }

  /** Who is called for one frame: nobody, or its recipients, once each. */
  function CallsFor(u: Setup, a: Arrival): seq<(Handler, Frame)> {
    if HandedOn(u, a) then Pairs(RecipientsOf(SetupAt(u, a), a.msg), a.msg) else []
  }

  /** The flat call log. */
  function CallLog(u: Setup, stream: seq<Arrival>): seq<(Handler, Frame)> {
    if stream == [] then [] else CallLog(u, stream[..|stream| - 1]) + CallsFor(u, stream[|stream| - 1])
  }

  /** How many exceptions of callbacks one frame brings about. */
  function FailuresFor(u: Setup, a: Arrival): nat {
    if a.NotJson? then 0
    else (if u.hookFails(a.msg) then 1 else 0)
         + if HandedOn(u, a) then Failing(u.faults, RecipientsOf(SetupAt(u, a), a.msg), a.msg) else 0
  }

  function FailuresIn(u: Setup, stream: seq<Arrival>): nat {
    if stream == [] then 0 else FailuresIn(u, stream[..|stream| - 1]) + FailuresFor(u, stream[|stream| - 1])
  }

  /** What one frame does to the table it finds: handed on, nothing; consumed, it gives itself as the result to at
      most one future, which was pending and registered under the key the frame answers. */
  predicate SettlesAtMostOne(u: Setup, a: Arrival)
    requires a.Parsed? && WellFormed(a.found)
  {
    var t, t', target := a.found, Dispatching(u, a).table, Target(a.msg, u.dialect.ResponseKey(a.msg));
    && (RoutingOn(u, a) != Consumed ==> t' == t)
    && t'.pending == t.pending && |t'.futures| == |t.futures|
    && forall f :: 0 <= f < |t.futures| && t'.futures[f] != t.futures[f] ==>
         && t.futures[f].outcome.Pending? && t'.futures[f].outcome == Result(a.msg)
         && target == Some(t.futures[f].key) && target.value in t.pending && t.pending[target.value] == f
  }

  /** The trace of a stream that has been read to its end: `on_message` sees each parsed frame once and in order; the
      handlers are called as the flat log says; every exception of theirs is reported once; and only the last frame may
      have raised. */
  predicate TraceIs(u: Setup, p: Pumped, stream: seq<Arrival>) {
    && SeenIn(p.trace) == FramesOf(stream)
    && CalledIn(p.trace) == CallLog(u, stream)
    && ReportsIn(p.trace) == FailuresIn(u, stream)
    && (p.raised <==> stream != [] && RaisesOn(u, stream[|stream| - 1]))
    && (forall i :: 0 <= i < |stream| - 1 ==> !RaisesOn(u, stream[i]))
  }

  /** One frame's trace. */
  lemma OneFrame(u: Setup, a: Arrival)
    requires a.Parsed?
    ensures var o := Dispatching(u, a);
            && o.raised == RaisesOn(u, a) && SeenIn(o.trace) == [a.msg]
            && CalledIn(o.trace) == CallsFor(u, a) && ReportsIn(o.trace) == FailuresFor(u, a)
  {
    OneFrameTrace(SetupAt(u, a), a.msg, RoutingOn(u, a));
  }

  lemma LogStep(u: Setup, stream: seq<Arrival>, a: Arrival)
    ensures FramesOf(stream + [a]) == FramesOf(stream) + if a.Parsed? then [a.msg] else []
    ensures CallLog(u, stream + [a]) == CallLog(u, stream) + CallsFor(u, a)
    ensures FailuresIn(u, stream + [a]) == FailuresIn(u, stream) + FailuresFor(u, a)
  {
    assert (stream + [a])[..|stream|] == stream;
  }

  /** One more frame. */
  lemma TraceStep(u: Setup, p: Pumped, stream: seq<Arrival>, a: Arrival)
    requires TraceIs(u, p, stream) && !p.raised
    ensures TraceIs(u, PumpNext(u, p, a), stream + [a])
  {
    LogStep(u, stream, a);
    if a.Parsed? {
      OneFrame(u, a);
      TraceConcat(p.trace, Dispatching(u, a).trace);
    }
    SameStops(u, stream, a);
  }

  lemma SameStops(u: Setup, stream: seq<Arrival>, a: Arrival)
    requires forall i :: 0 <= i < |stream| - 1 ==> !RaisesOn(u, stream[i])
    requires stream != [] ==> !RaisesOn(u, stream[|stream| - 1])
    ensures forall i :: 0 <= i < |stream + [a]| - 1 ==> !RaisesOn(u, (stream + [a])[i])
    ensures (stream + [a])[|stream + [a]| - 1] == a
  {
  }

  /** A whole stream, whatever other tasks do to the pending table and the handler registry between its frames. Each
      frame is routed by the table that it finds itself. */
  lemma {:induction false} StreamLaw(u: Setup, stream: seq<Arrival>)
    requires forall a :: a in stream && a.Parsed? ==> WellFormed(a.found)
    ensures var p := PumpAll(u, stream);
            && p.read <= |stream| && (!p.raised ==> p.read == |stream|) && TraceIs(u, p, stream[..p.read])
    ensures forall a :: a in stream && a.Parsed? ==> SettlesAtMostOne(u, a)
  {
    forall a | a in stream && a.Parsed? ensures SettlesAtMostOne(u, a) {
      RoutingLaw(a.found, a.msg, u.dialect.ResponseKey(a.msg));
    }
    if stream != [] {
      var init, last := stream[..|stream| - 1], stream[|stream| - 1];
      StreamLaw(u, init);
      var before := PumpAll(u, init);
      assert init[..before.read] == stream[..before.read];
      if !before.raised {
        assert init[..|init|] == init && stream == init + [last] && stream[..|stream|] == stream;
        TraceStep(u, before, init, last);
      }
    }
  }

  /** The first frame of the stream that answers `key`. */
  function FirstFor(u: Setup, stream: seq<Arrival>, key: Key): Option<Frame> {
    if stream == [] then None
    else
      var before, a := FirstFor(u, stream[..|stream| - 1], key), stream[|stream| - 1];
      if before.Some? then before
      else if a.Parsed? && Target(a.msg, u.dialect.ResponseKey(a.msg)) == Some(key) then Some(a.msg)
      else None
  }

  /** Future `f` stays registered under `key` while the stream is read, and nobody else settles it. */
  predicate StaysRegistered(u: Setup, stream: seq<Arrival>, key: Key, f: nat) {
    && (forall i :: 0 <= i < |stream| ==>
          stream[i].Parsed? && key in stream[i].found.pending && stream[i].found.pending[key] == f
          && f < |stream[i].found.futures|)
    && (forall i :: 0 < i < |stream| ==>
          OutcomeAt(stream[i].found, f) == OutcomeAt(Dispatching(u, stream[i - 1]).table, f))
  }

  /** The first answer wins: a pending future that stays registered gets the first frame of the stream that answers its
      key, and no later one. */
  lemma {:induction false} FirstAnswerWins(u: Setup, stream: seq<Arrival>, key: Key, f: nat)
    requires stream != [] && StaysRegistered(u, stream, key, f)
    requires forall a :: a in stream && a.Parsed? ==> WellFormed(a.found)
    ensures var was, first := OutcomeAt(stream[0].found, f), FirstFor(u, stream, key);
            OutcomeAt(Dispatching(u, stream[|stream| - 1]).table, f)
            == if was.Pending? && first.Some? then Result(first.value) else was
  {
    var n := |stream| - 1;
    if n > 0 {
      FirstAnswerWins(u, stream[..n], key, f);
    } else {
      assert stream[..0] == [];
    }
    OneAnswer(u, stream[n], key, f);
  }

  lemma OneAnswer(u: Setup, a: Arrival, key: Key, f: nat)
    requires a.Parsed? && WellFormed(a.found) && key in a.found.pending && a.found.pending[key] == f
    ensures var was := OutcomeAt(a.found, f);
            OutcomeAt(Dispatching(u, a).table, f)
            == if was.Pending? && Target(a.msg, u.dialect.ResponseKey(a.msg)) == Some(key) then Result(a.msg) else was
  {
  }

  /** Handlers that raise change nothing for the others: over a whole stream the same handlers are called on the same
      frames, and the same futures are settled, whichever of them raise. */
  lemma {:induction false} FaultsAreContained(u: Setup, v: Setup, stream: seq<Arrival>)
    requires u.dialect == v.dialect
    ensures var p, q := PumpAll(u, stream), PumpAll(v, stream);
            CalledIn(p.trace) == CalledIn(q.trace) && p.read == q.read && p.raised == q.raised
    ensures forall a :: a in stream && a.Parsed? ==> Dispatching(u, a).table == Dispatching(v, a).table
  {
    if stream != [] {
      var init, last := stream[..|stream| - 1], stream[|stream| - 1];
      FaultsAreContained(u, v, init);
      if last.Parsed? {
        OneFrame(u, last);
        OneFrame(v, last);
        CalledConcat(PumpAll(u, init).trace, Dispatching(u, last).trace);
        CalledConcat(PumpAll(v, init).trace, Dispatching(v, last).trace);
      }
    }
  }

  /** On any other named channel each of its handlers is called once and then each wildcard one, all in registration
      order; frames without a channel, or on one for which nobody has registered, go to the wildcard handlers alone;
      unclaimed heartbeats go to nobody. */
  lemma RecipientsLaw(hs: Handlers, channel: Value)
    ensures channel.Str? && channel.s in hs && channel.s != "" && channel.s != "*" ==>
              var n := |hs[channel.s]|;
              && |Recipients(hs, channel)| == n + |HandlersOf(hs, "*")|
              && (forall i :: 0 <= i < n ==> Recipients(hs, channel)[i] == hs[channel.s][i])
              && Recipients(hs, channel)[n..] == HandlersOf(hs, "*")
    ensures channel == Null || channel == Str("") ==> Recipients(hs, channel) == HandlersOf(hs, "*")
    ensures channel.Str? && channel.s !in hs && channel.s != "heartbeat" ==>
              Recipients(hs, channel) == if "*" in hs then hs["*"] else []
    ensures channel == Str("heartbeat") ==>
              (Recipients(hs, channel) == [] <==>
                "heartbeat" !in hs || (hs["heartbeat"] == [] && HandlersOf(hs, "*") == []))
  {
  }

  /** What is called for every frame that is handed on: in order, the handlers of its channel, if it has a name that
      someone has registered, and then, whatever the channel is, all wildcard handlers. The only frames that get neither
      are heartbeats for which nobody has registered. */
  lemma HandedOnCalls(u: Setup, a: Arrival)
    requires HandedOn(u, a)
    ensures var channel := u.dialect.ChannelOf(a.msg);
            var own := if channel.Str? && channel.s != "" && channel.s in a.handlers then a.handlers[channel.s] else [];
            var wild := if "*" in a.handlers then a.handlers["*"] else [];
            CalledIn(Dispatching(u, a).trace)
            == if channel == Str("heartbeat") && "heartbeat" !in a.handlers then [] else Pairs(own + wild, a.msg)
  {
    OneFrame(u, a);
  }

  /** Which frames are handed on, and which break off the reading: a pong is handed on if nobody waits for one; any
      other frame breaks off if its id cannot be looked up, and is handed on if nobody waits under its id, or if it
      has none and is no error. One that would be handed on breaks off instead if its channel is a list or an object
      that is not empty. */
  lemma HandingOn(u: Setup, a: Arrival)
    requires a.Parsed?
    ensures var event, key, channel := Get(a.msg, "event"), u.dialect.ResponseKey(a.msg), u.dialect.ChannelOf(a.msg);
            var push := if event == Str("pong") then StrKey("__pong__") !in a.found.pending
                        else if key.Keyed? then key.key !in a.found.pending
                        else key.NoKey? && event != Str("error");
            var dead := (channel.List? && channel.items != []) || (channel.Dict? && channel.fields != map[]);
            && (HandedOn(u, a) <==> push && !dead)
            && (Dispatching(u, a).raised <==> (event != Str("pong") && key.Unhashable?) || (push && dead))
  {
  }

  /** On the channel named `*` the wildcard handlers are called twice. */
  lemma StarChannelCallsTwice(hs: Handlers)
    requires "*" in hs
    ensures Recipients(hs, Str("*")) == hs["*"] + hs["*"]
  {
  }

  // ---- the registry and the loops -----------------------------------------------------------

  /** `list.remove` on the handlers of one channel. */
  function RemoveHandlerFrom(hs: seq<Handler>, h: Handler): seq<Handler> {
    if hs == [] then [] else if hs[0] == h then hs[1..] else [hs[0]] + RemoveHandlerFrom(hs[1..], h)
  }

  /** It takes out the first occurrence: one registration of the handler, and the order of the others is kept. */
  lemma {:induction false} RemovedFirst(hs: seq<Handler>, i: nat)
    requires i < |hs| && forall q :: 0 <= q < i ==> hs[q] != hs[i]
    ensures RemoveHandlerFrom(hs, hs[i]) == hs[..i] + hs[i + 1..]
  {
    if i == 0 {
      assert hs[..0] + hs[1..] == hs[1..];
    } else {
      RemovedFirst(hs[1..], i - 1);
      assert [hs[0]] + hs[1..][..i - 1] == hs[..i];
    }
  }

  lemma {:induction false} RemovedAbsent(hs: seq<Handler>, h: Handler)
    requires h !in hs
    ensures RemoveHandlerFrom(hs, h) == hs
  {
    if hs != [] {
      RemovedAbsent(hs[1..], h);
    }
  }

  /** `add_handler` followed by `remove_handler` of a handler that was not there leaves the channel's list as it was. */
  lemma {:induction false} AddThenRemove(hs: seq<Handler>, h: Handler)
    requires h !in hs
    ensures RemoveHandlerFrom(hs + [h], h) == hs
  {
    if hs == [] {
      assert ([] + [h])[1..] == [];
    } else {
      AddThenRemove(hs[1..], h);
      assert (hs + [h])[1..] == hs[1..] + [h];
    }
  }

  /** A handler added to a channel is called last of the channel's handlers, before the wildcard ones; nobody else's
      place changes, and other channels are not affected. */
  lemma AddedIsCalledLast(hs: Handlers, name: string, h: Handler, channel: Value)
    requires name != "" && name != "*"
    ensures var added := hs[name := HandlersOf(hs, name) + [h]];
            Recipients(added, channel)
            == if channel == Str(name) then HandlersOf(hs, name) + [h] + HandlersOf(hs, "*")
               else Recipients(hs, channel)
  {
  }

  class Dispatcher {
    const dialect: Dialect
    const faults: Faults
    const hookFails: Frame -> bool
    const pending: PendingRequests
    var handlers: Handlers
    var log: seq<Event>

    ghost function Parameters(): Setup
      reads this
    {
      Setup(dialect, handlers, faults, hookFails)
    }

    ghost predicate Valid()
      reads this, pending
    {
      pending.Valid()
    }

    constructor (dialect: Dialect, pending: PendingRequests, faults: Faults, hookFails: Frame -> bool)
      requires pending.Valid()
      ensures Valid() && this.dialect == dialect && this.pending == pending
      ensures this.faults == faults && this.hookFails == hookFails
      ensures handlers == map[] && log == []
    {
      this.dialect, this.pending, this.faults, this.hookFails := dialect, pending, faults, hookFails;
      handlers, log := map[], [];
    }

    method AddHandler(channel: string, h: Handler)
      modifies this`handlers
      ensures handlers
           == old(handlers)[channel := (if channel in old(handlers) then old(handlers)[channel] else []) + [h]]
    {
      if channel !in handlers {
        handlers := handlers[channel := []];
      }
      handlers := handlers[channel := handlers[channel] + [h]];
    }

    /** The channel's entry stays, possibly empty. */
    method RemoveHandler(channel: string, h: Handler)
      modifies this`handlers
      ensures handlers == if channel in old(handlers)
                          then old(handlers)[channel := RemoveHandlerFrom(old(handlers)[channel], h)] else old(handlers)
    {
      if channel in handlers {
        var i := 0;
        var hs := handlers[channel];
        while i < |hs| && hs[i] != h
          invariant i <= |hs| && RemoveHandlerFrom(hs, h) == hs[..i] + RemoveHandlerFrom(hs[i..], h)
        {
          assert hs[i..][1..] == hs[i + 1..] && hs[..i] + [hs[i]] == hs[..i + 1];
          i := i + 1;
        }
        if i < |hs| {
          assert hs[i..][1..] == hs[i + 1..];
          handlers := handlers[channel := hs[..i] + hs[i + 1..]];
        } else {
          assert hs[..i] + [] == hs;
        }
      }
    }

    method ClearHandlers(channel: Option<string>)
      modifies this`handlers
      ensures handlers == if channel == None then map[] else old(handlers) - {channel.value}
    {
      if channel == None {
        handlers := map[];
      } else {
        handlers := handlers - {channel.value};
      }
    }

    method CallHandler(h: Handler, msg: Frame)
      modifies this`log
      ensures log == old(log) + CallOne(faults, h, msg)
    {
      log := log + [Called(h, msg)];
      if faults(h, msg) {
        log := log + [Reported(msg)];
      }
    }

    method CallEach(to: seq<Handler>, msg: Frame)
      modifies this`log
      ensures log == old(log) + Calls(faults, to, msg)
    {
      for i := 0 to |to|
        invariant log == old(log) + Calls(faults, to[..i], msg)
      {
        CallHandler(to[i], msg);
        assert to[..i + 1][..i] == to[..i];
      }
      assert to[..|to|] == to;
    }

    method Deliver(msg: Frame) returns (raised: bool)
      modifies this`log
      ensures raised == ChannelRaises(dialect.ChannelOf(msg))
      ensures log == if raised then old(log)
                     else old(log) + Calls(faults, Recipients(handlers, dialect.ChannelOf(msg)), msg)
      ensures var channel := dialect.ChannelOf(msg);
              !raised && (channel.Str? ==> channel.s !in handlers && channel.s != "heartbeat") ==>
                log == old(log) + Calls(faults, if "*" in handlers then handlers["*"] else [], msg)
    {
      var channel := dialect.ChannelOf(msg);
      if channel == Str("heartbeat") && "heartbeat" !in handlers {
        return false;
      }
      if ChannelRaises(channel) {
        return true;
      }
      ghost var start := log;
      CallChannel(channel, msg);
      CallNamed("*", msg);
      CallsConcat(faults, ChannelHandlers(handlers, channel), HandlersOf(handlers, "*"), msg);
      SeqAssoc(start, Calls(faults, ChannelHandlers(handlers, channel), msg),
               Calls(faults, HandlersOf(handlers, "*"), msg));
      return false;
    }

    method CallChannel(channel: Value, msg: Frame)
      modifies this`log
      ensures log == old(log) + Calls(faults, ChannelHandlers(handlers, channel), msg)
    {
      if channel.Str? && Truthy(channel) {
        CallNamed(channel.s, msg);
      }
    }

    method CallNamed(name: string, msg: Frame)
      modifies this`log
      ensures log == old(log) + Calls(faults, HandlersOf(handlers, name), msg)
    {
      if name in handlers {
        CallEach(handlers[name], msg);
      }
    }

    method Observe(msg: Frame)
      modifies this`log
      ensures log == old(log) + HookTrace(hookFails, msg)
    {
      log := log + [Seen(msg)];
      if hookFails(msg) {
        log := log + [Reported(msg)];
      }
    }

    /** `_dispatch`. `turns` is what other tasks do while `on_message` is awaited, or have done since the frame
        before. */
    method Dispatch(msg: Frame, turns: seq<Turn>) returns (raised: bool, ghost found: Table)
      requires Valid()
      modifies this`log, this`handlers, pending, pending.created
      ensures Valid() && Grown(old(pending.created), pending.created) && WellFormed(found)
      ensures forall i :: |old(pending.created)| <= i < |pending.created| ==> fresh(pending.created[i])
      ensures var o := DispatchOne(Parameters(), found, msg);
              raised == o.raised && log == old(log) + o.trace && pending.View() == o.table
    {
      Observe(msg);
      Others(turns);
      found := pending.View();
      raised := Route(msg);
      SeqAssoc(old(log), HookTrace(hookFails, msg),
               DeliverTrace(Parameters(), msg, RoutingOf(found, msg, dialect.ResponseKey(msg))));
    }

    /** What other tasks do at an await. Nothing is said of it but that the table stays well-formed and that no future
        is lost, so whatever is proved of the read loop holds however they interleave. */
    method Others(turns: seq<Turn>)
      requires Valid()
      modifies this`handlers, pending, pending.created
      ensures Valid() && Grown(old(pending.created), pending.created) && WellFormed(pending.View())
      ensures forall i :: |old(pending.created)| <= i < |pending.created| ==> fresh(pending.created[i])
    {
      for i := 0 to |turns|
        invariant Valid() && Grown(old(pending.created), pending.created)
        invariant forall i :: |old(pending.created)| <= i < |pending.created| ==> fresh(pending.created[i])
      {
        OtherTurn(turns[i]);
      }
    }

    method OtherTurn(turn: Turn)
      requires Valid()
      modifies this`handlers, pending, pending.created
      ensures Valid() && Grown(old(pending.created), pending.created)
      ensures forall i :: |old(pending.created)| <= i < |pending.created| ==> fresh(pending.created[i])
    {
      match turn
      case TakesNumber => var n := pending.NextId();
      case Registers(key) => var fut := pending.Create(key);
      case Discards(key) => pending.Discard(key);
      case Cancels(key) => Cancel(key);
      case FailsAll(error) => pending.FailAll(error);
      case CancelsAll => pending.CancelAll();
      case Adds(channel, h) => AddHandler(channel, h);
      case Removes(channel, h) => RemoveHandler(channel, h);
      case Clears(channel) => ClearHandlers(channel);
    }

    /** The timeout of whoever waits under `key`. */
    method Cancel(key: Key)
      requires Valid()
      modifies pending.created
      ensures Valid() && pending.created == old(pending.created)
    {
      if key in pending.futures {
        var fut := pending.futures[key];
        if !fut.Done() {
          fut.Settle(Cancelled);
        }
      }
    }

    /** From `resolve` on. */
    method Route(msg: Frame) returns (raised: bool)
      requires Valid()
      modifies this`log, pending.created
      ensures Valid() && pending.created == old(pending.created)
      ensures var routing := RoutingOf(old(pending.View()), msg, dialect.ResponseKey(msg));
              && raised == DispatchOne(Parameters(), old(pending.View()), msg).raised
              && log == old(log) + DeliverTrace(Parameters(), msg, routing)
              && pending.View() == Rpc.Resolve(old(pending.View()), msg, dialect.ResponseKey(msg))
    {
      var routing := pending.Resolve(msg, dialect.ResponseKey(msg));
      raised := Finish(msg, routing);
    }

    /** What follows `resolve`. */
    method Finish(msg: Frame, routing: Routing) returns (raised: bool)
      modifies this`log
      ensures raised == (routing.Raised? || (routing.Push? && ChannelRaises(dialect.ChannelOf(msg))))
      ensures log == old(log) + DeliverTrace(Parameters(), msg, routing)
    {
      raised := routing.Raised?;
      if routing.Push? {
        raised := Deliver(msg);
      }
    }

    method PumpOne(raw: Option<Frame>, turns: seq<Turn>, ghost u: Setup, ghost p: Pumped, ghost start: seq<Event>)
      returns (raised: bool, ghost a: Arrival)
      requires Valid() && log == start + p.trace && !p.raised && SameCallbacks(u, Parameters())
      modifies this`log, this`handlers, pending, pending.created
      ensures Valid() && Grown(old(pending.created), pending.created) && IsArrivalOf(a, raw)
      ensures forall i :: |old(pending.created)| <= i < |pending.created| ==> fresh(pending.created[i])
      ensures raised == PumpNext(u, p, a).raised && log == start + PumpNext(u, p, a).trace
    {
      match raw
      case None => raised, a := false, NotJson;
      case Some(msg) =>
        raised, a := DispatchArrival(msg, turns, u);
        SeqAssoc(start, p.trace, Dispatching(u, a).trace);
    }

    method DispatchArrival(msg: Frame, turns: seq<Turn>, ghost u: Setup) returns (raised: bool, ghost a: Arrival)
      requires Valid() && SameCallbacks(u, Parameters())
      modifies this`log, this`handlers, pending, pending.created
      ensures Valid() && Grown(old(pending.created), pending.created) && IsArrivalOf(a, Some(msg))
      ensures forall i :: |old(pending.created)| <= i < |pending.created| ==> fresh(pending.created[i])
      ensures raised == Dispatching(u, a).raised && log == old(log) + Dispatching(u, a).trace
    {
      ghost var found;
      raised, found := Dispatch(msg, turns);
      a := Parsed(msg, found, handlers);
      assert SetupAt(u, a) == Parameters();
    }

    /** `_pump` over the raw frames of one connection. `running(i)` is what `_running` says when frame `i` arrives:
        the first frame that finds the client stopped ends the loop unread. `turns(i)` is what other tasks do before
        frame `i` is resolved; `stream` tells what each frame found. */
    method Pump(raws: seq<Option<Frame>>, running: nat -> bool, turns: nat -> seq<Turn>)
      returns (read: nat, raised: bool, ghost stream: seq<Arrival>)
      requires Valid()
      modifies this`log, this`handlers, pending, pending.created
      ensures Valid() && Grown(old(pending.created), pending.created)
      ensures var p := PumpAll(old(Parameters()), stream);
              raised == p.raised && read == p.read == |stream| && log == old(log) + p.trace
      ensures read <= |raws| && forall i: nat :: i < read ==> IsArrivalOf(stream[i], raws[i]) && running(i)
      ensures raised || read == |raws| || !running(read)
    {
      read, raised, stream := 0, false, [];
      ghost var u, start := Parameters(), log;
      ghost var p := PumpAll(u, []);
      while read < |raws| && running(read) && !raised
        invariant read <= |raws| && Valid() && Grown(old(pending.created), pending.created)
        invariant forall i :: |old(pending.created)| <= i < |pending.created| ==> fresh(pending.created[i])
        invariant SameCallbacks(u, Parameters())
        invariant |stream| == read && forall i: nat :: i < read ==> IsArrivalOf(stream[i], raws[i]) && running(i)
        invariant p == PumpAll(u, stream) && p.raised == raised && p.read == read && log == start + p.trace
      {
        ghost var a;
        raised, a := PumpOne(raws[read], turns(read), u, p, start);
        PumpStep(u, stream, a);
        stream, p := stream + [a], PumpNext(u, p, a);
        read := read + 1;
      }
    }
  }

  /** What other tasks do: callers, heartbeats, stop(), and whoever adds or removes handlers. */
  datatype Turn =
    | TakesNumber | Registers(key: Key) | Discards(key: Key) | Cancels(key: Key)
    | FailsAll(error: Failure) | CancelsAll
    | Adds(channel: string, h: Handler) | Removes(channel: string, h: Handler) | Clears(name: Option<string>)

  /** No future is lost. */
  ghost predicate Grown(before: seq<Future>, after: seq<Future>) {
    before <= after
  }

  /** The same but for the handler registry. */
  ghost predicate SameCallbacks(u: Setup, v: Setup) {
    u.dialect == v.dialect && u.faults == v.faults && u.hookFails == v.hookFails
  }

  /** What the read loop makes of a raw frame. */
  ghost predicate IsArrivalOf(a: Arrival, raw: Option<Frame>) {
    match a
    case NotJson => raw == None
    case Parsed(msg, found, _) => raw == Some(msg) && WellFormed(found)
  }

  lemma SeqAssoc<T>(a: seq<T>, b: seq<T>, c: seq<T>)
    ensures (a + b) + c == a + (b + c)
  {
  }

  lemma {:induction false} CallsConcat(faults: Faults, a: seq<Handler>, b: seq<Handler>, msg: Frame)
    ensures Calls(faults, a + b, msg) == Calls(faults, a, msg) + Calls(faults, b, msg)
  {
    if b == [] {
      assert a + b == a;
    } else {
      var n := |b| - 1;
      CallsConcat(faults, a, b[..n], msg);
      assert (a + b)[..|a + b| - 1] == a + b[..n];
      SeqAssoc(Calls(faults, a, msg), Calls(faults, b[..n], msg), CallOne(faults, b[n], msg));
    }
  }

  lemma PumpStep(u: Setup, stream: seq<Arrival>, a: Arrival)
    requires !PumpAll(u, stream).raised
    ensures PumpAll(u, stream + [a]) == PumpNext(u, PumpAll(u, stream), a)
  {
    assert (stream + [a])[..|stream|] == stream;
  }
}
