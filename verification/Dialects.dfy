/** The two venues' wire vocabularies: how a request is framed, and how a reply is matched, routed
    and recognised as a rejection. */
module Dialects {
  import opened Wire

  /** An outbound frame and the key its future is registered under. */
  datatype Framed = Framed(frame: Frame, key: Key)

  function DropNone(params: Frame): Frame {
    map k | k in params && params[k] != Null :: params[k]
  }

  datatype Dialect = Kraken | OKX {

    /** `None` stands for the NotImplementedError of the OKX dialect. `params` is empty when the caller
        passes no parameters. */
    function RequestFrame(verb: string, params: Frame, reqId: nat, idempotencyKey: Option<string>,
                          isOrder: bool): Option<Framed>
    {
      match this
      case Kraken =>
        var base := map["method" := Str(verb), "req_id" := Int(reqId)];
        var withParams := if params != map[] then base["params" := Dict(params)] else base;
        var withId := if isOrder then withParams["id" := Int(reqId)] else withParams;
        var frame := if idempotencyKey.Some? && idempotencyKey.value != ""
                     then withId["idempotency_key" := Str(idempotencyKey.value)] else withId;
        Some(Framed(frame, IntKey(reqId)))
      case OKX =>
        if isOrder || (verb != "subscribe" && verb != "unsubscribe") then None
        else
          var wireId := Decimal(reqId);
          Some(Framed(map["op" := Str(verb), "args" := List([Dict(DropNone(params))]), "id" := Str(wireId)],
                      StrKey(wireId)))
    }

    function ResponseKey(msg: Frame): Correlation {
      match this
      case Kraken => if Get(msg, "id") != Null then KeyOf(Get(msg, "id")) else KeyOf(Get(msg, "req_id"))
      case OKX => KeyOf(Get(msg, "id"))
    }

    function ChannelOf(msg: Frame): Value {
      match this
      case Kraken => Get(msg, "channel")
      case OKX => if Get(msg, "arg").Dict? then Get(Get(msg, "arg").fields, "channel") else Null
    }

    /** Whether `error_of` turns this reply into an exception. */
    predicate Rejects(msg: Frame) {
      IsError(msg) || (Kraken? && "success" in msg && !Truthy(msg["success"]))
    }

    /** The key `request()` registers for the request numbered `n`. */
    function KeyFor(n: nat): Key {
      match this
      case Kraken => IntKey(n)
      case OKX => StrKey(Decimal(n))
    }

    /** The request number behind a key this dialect issued. */
    function KeyNumber(k: Key): int {
      match k
      case IntKey(n) => n
      case StrKey(s) => ParseDecimal(s)
    }

    /** The same frame under another request number. */
    function Renumber(frame: Frame, n: nat): Frame {
      match this
      case Kraken => frame["req_id" := Int(n)]
      case OKX => frame["id" := Str(Decimal(n))]
    }
  }

  /** Request numbers can be read back from keys; so distinct requests have distinct keys, and none has
      the reserved pong key. */
  lemma KeysAreFresh(d: Dialect, n: nat)
    ensures d.KeyNumber(d.KeyFor(n)) == n
    ensures d.KeyFor(n) != PONG_KEY
  {
    DecimalRoundTrip(n);
    DecimalStartsWithDigit(n);
  }

  /** The contract of `request_frame`: the registered key is the one `response_key` later reads from any
      reply that echoes the correlation field of the frame. */
  lemma EchoIsCorrelated(d: Dialect, verb: string, params: Frame, n: nat, idem: Option<string>, isOrder: bool,
                         reply: Frame)
    requires d.RequestFrame(verb, params, n, idem, isOrder).Some?
    requires var sent := d.RequestFrame(verb, params, n, idem, isOrder).value.frame;
             var field := if d.Kraken? && Get(reply, "id") == Null then "req_id" else "id";
             field in sent && Get(reply, field) == sent[field]
    ensures d.ResponseKey(reply) == Keyed(d.RequestFrame(verb, params, n, idem, isOrder).value.key)
    ensures d.RequestFrame(verb, params, n, idem, isOrder).value.key == d.KeyFor(n)
  {
    assert d.RequestFrame(verb, params, n, idem, isOrder).value.key == d.KeyFor(n);
  }

  /** What a venue reads out of a request frame. */
  datatype Reading = Reading(verb: Value, params: Frame, number: Value, orderTag: Value, idempotencyKey: Value)

  function Read(d: Dialect, frame: Frame): Reading {
    match d
    case Kraken =>
      var params := Get(frame, "params");
      Reading(Get(frame, "method"), if params.Dict? then params.fields else map[], Get(frame, "req_id"),
              Get(frame, "id"), Get(frame, "idempotency_key"))
    case OKX =>
      var args := Get(frame, "args");
      var sole := args.List? && |args.items| == 1 && args.items[0].Dict?;
      Reading(Get(frame, "op"), if sole then args.items[0].fields else map[], Get(frame, "id"), Null, Null)
  }

  /** Framing loses nothing: the venue reads back the method, the parameters (without nulls on OKX), the number, the
      order tag of an order and a non-empty idempotency key. */
  lemma FrameReadsBack(d: Dialect, verb: string, params: Frame, n: nat, key: Option<string>, isOrder: bool)
    requires d.RequestFrame(verb, params, n, key, isOrder).Some?
    ensures var r := Read(d, d.RequestFrame(verb, params, n, key, isOrder).value.frame);
            && r.verb == Str(verb)
            && (forall k :: k in r.params <==> k in params && (d.OKX? ==> params[k] != Null))
            && (forall k :: k in r.params ==> r.params[k] == params[k])
            && r.number == (if d.Kraken? then Int(n) else Str(Decimal(n)))
            && r.orderTag == (if isOrder then Int(n) else Null)
            && r.idempotencyKey == (if d.Kraken? && key.Some? && key.value != "" then Str(key.value) else Null)
  {
  }

  /** And it adds nothing: these are all the fields a frame has. */
  lemma FrameHasNoMore(d: Dialect, verb: string, params: Frame, n: nat, key: Option<string>, isOrder: bool)
    requires d.RequestFrame(verb, params, n, key, isOrder).Some?
    ensures d.RequestFrame(verb, params, n, key, isOrder).value.frame.Keys
         == if d.OKX? then {"op", "args", "id"}
            else {"method", "req_id"} + (if params != map[] then {"params"} else {})
                 + (if isOrder then {"id"} else {})
                 + (if key.Some? && key.value != "" then {"idempotency_key"} else {})
  {
  }

  /** Where each dialect looks for the id of an inbound frame: Kraken in "id" and, failing that, in "req_id"; OKX in
      "id" alone. An explicit null counts as absent. */
  lemma ReplyFields(msg: Frame, req: Value)
    requires "id" in msg ==> msg["id"] == Null
    ensures Kraken.ResponseKey(msg["req_id" := req]) == KeyOf(req) && OKX.ResponseKey(msg["req_id" := req]) == NoKey
    ensures forall id :: id != Null ==>
              var both := msg["req_id" := req]["id" := id];
              Kraken.ResponseKey(both) == KeyOf(id) && OKX.ResponseKey(both) == KeyOf(id)
  {
  }

  /** Where each dialect looks for the channel: Kraken in "channel", OKX in "channel" of "arg". */
  lemma ChannelFields(msg: Frame, channel: Value, arg: Frame)
    ensures Kraken.ChannelOf(msg["channel" := channel]) == channel && Kraken.ChannelOf(msg - {"channel"}) == Null
    ensures OKX.ChannelOf(msg["arg" := Dict(arg["channel" := channel])]) == channel
    ensures OKX.ChannelOf(msg["arg" := Dict(arg - {"channel"})]) == Null && OKX.ChannelOf(msg - {"arg"}) == Null
    ensures !channel.Dict? ==> OKX.ChannelOf(msg["arg" := channel]) == Null
  {
  }

  /** Which replies are rejections: those whose event is "error", and on Kraken also those that say `success` and
      mean no. A reply that does not mention it is an acceptance. */
  lemma RejectionFields(d: Dialect, msg: Frame)
    ensures d.Rejects(msg)
            <==> ("event" in msg && msg["event"] == Str("error"))
                 || (d.Kraken? && "success" in msg
                     && msg["success"] in [Null, Bool(false), Int(0), Str(""), List([]), Dict(map[])])
  {
  }

  /** The OKX dialect frames subscribe and unsubscribe and refuses everything else; the Kraken dialect refuses
      nothing. */
  lemma Refusals(d: Dialect, verb: string, params: Frame, n: nat, key: Option<string>, isOrder: bool)
    ensures d.RequestFrame(verb, params, n, key, isOrder) == None
            <==> d.OKX? && (isOrder || verb !in ["subscribe", "unsubscribe"])
  {
  }

  const ORDER_METHODS := {"add_order", "amend_order", "edit_order", "cancel_order", "batch_add", "batch_cancel"}

  /** These are the order methods: what places, changes or cancels an order, one by one or in a batch. */
  lemma OrderMethods(verb: string)
    ensures verb in ORDER_METHODS
            <==> verb == "add_order" || verb == "amend_order" || verb == "edit_order" || verb == "cancel_order"
                 || verb == "batch_add" || verb == "batch_cancel"
  {
  }

  /** Everything else goes out with the caller's own idempotency key, if any, and without the order's tag. */
  lemma OthersCarryNoTag(verb: string, params: Frame, n: nat, key: Option<string>, generated: string)
    requires verb !in ORDER_METHODS
    ensures EffectiveKey(verb, key, generated) == key
    ensures Read(Kraken, Kraken.RequestFrame(verb, params, n, EffectiveKey(verb, key, generated), false).value.frame)
            .orderTag == Null
  {
  }

  /** The idempotency key `request` frames: an order without one gets the one `generated` for it. */
  function EffectiveKey(verb: string, key: Option<string>, generated: string): Option<string> {
    if verb in ORDER_METHODS && (key == None || key.value == "") then Some(generated) else key
  }

  /** Every Kraken order frame carries an idempotency key, the caller's own if there is one, and is tagged with its
      number in both correlation fields, so that either kind of reply finds it. */
  lemma OrdersCarryKeys(verb: string, params: Frame, n: nat, key: Option<string>, generated: string)
    requires verb in ORDER_METHODS && generated != ""
    ensures var framed := Kraken.RequestFrame(verb, params, n, EffectiveKey(verb, key, generated), true);
            var r := Read(Kraken, framed.value.frame);
            && r.idempotencyKey == Str(if key.Some? && key.value != "" then key.value else generated)
            && r.number == r.orderTag == Int(n)
  {
  }

  // ---- subscriptions ------------------------------------------------------------------------

  /** A registry entry: the channel and its parameters without the channel. */
  datatype Entry = Entry(channel: string, params: Frame)

  /** `params["channel"] = channel` on a copy of the caller's parameters. */
  function WithChannel(channel: string, params: Frame): Frame {
    params["channel" := Str(channel)]
  }

  /** The entry `subscribe(channel, params)` records. */
  function EntryOf(channel: string, params: Frame): Entry {
    Entry(channel, WithChannel(channel, params) - {"channel"})
  }

  /** An entry keeps the caller's parameters but for the channel, which it names once. So two subscribes have the same
      entry exactly if they agree on the channel and on all other parameters. */
  lemma EntriesAgree(channel: string, params: Frame, channel': string, params': Frame)
    ensures EntryOf(channel, params) == EntryOf(channel', params')
            <==> channel == channel' && params - {"channel"} == params' - {"channel"}
    ensures EntryOf(channel, params).channel == channel && EntryOf(channel, params).params == params - {"channel"}
  {
    assert EntryOf(channel, params).params == params - {"channel"};
    assert EntryOf(channel', params').params == params' - {"channel"};
  }

  /** The frame `subscribe(channel, params)` puts on the wire under request number `n`. */
  function SubscribeFrame(d: Dialect, channel: string, params: Frame, n: nat): Frame {
    d.RequestFrame("subscribe", WithChannel(channel, params), n, None, false).value.frame
  }

  /** Replay fidelity for one subscription: subscribing again from the recorded entry sends the original
      frame under a fresh number, because stripping and restoring the channel is a round trip and
      framing commutes with renumbering. */
  lemma ReplayedFrame(d: Dialect, channel: string, params: Frame, n: nat, m: nat)
    ensures var e := EntryOf(channel, params);
            SubscribeFrame(d, e.channel, e.params, m) == d.Renumber(SubscribeFrame(d, channel, params, n), m)
  {
    var e := EntryOf(channel, params);
    assert WithChannel(e.channel, e.params) == WithChannel(channel, params);
    assert SubscribeFrame(d, channel, params, m) == d.Renumber(SubscribeFrame(d, channel, params, n), m);
  }
}
