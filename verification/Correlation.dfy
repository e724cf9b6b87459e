/** The sharing discipline around the pending table. Any number of tasks (request and ping callers, heartbeats,
    the supervisor's replay) register, wait and discard; replies, drops and stops reach into the same table.
    `Apply` is one atomic section, from one await to the next. */
module Correlation {
  import opened Wire
  import opened Dialects
  import opened Rpc

  datatype Task = Supervisor | Heartbeat(n: nat) | Caller(n: nat)

  /** The locals of a task suspended between `create` and its `finally`. */
  datatype Held = Held(key: Key, fut: nat)

  /** `owner` records which task created each future. */
  datatype Core = Core(table: Table, held: map<Task, Held>, owner: seq<Task>)

  const IDLE := Core(EMPTY, map[], [])

  datatype Effect =
    | Nothing
    | TakeNumber                           // the id is taken, then the dialect refuses to frame the request
    | Begin(task: Task, ping: bool)        // register and start sending
    | BeginFails(task: Task, ping: bool)   // register, find no open connection, discard
    | Finish(task: Task, cancel: bool)     // the wait ends; on a timeout or cancellation the future is cancelled
    | Reply(msg: Frame)
    | FlushAll(outcome: Outcome)           // fail_all on a drop, cancel_all on stop

  predicate Enabled(c: Core, e: Effect) {
    match e
    case Begin(task, _) => task !in c.held
    case BeginFails(task, _) => task !in c.held
    case Finish(task, _) => task in c.held
    case FlushAll(outcome) => outcome.Failed? || outcome.Cancelled?
    case _ => true
  }

  function Started(d: Dialect, t: Table, ping: bool): Table {
    if ping then Create(t, PONG_KEY)
    else Create(t.(counter := t.counter + 1), d.KeyFor(t.counter + 1))
  }

  function DoBegin(d: Dialect, c: Core, task: Task, ping: bool): Core {
    var f := |c.table.futures|;
    var t := Started(d, c.table, ping);
    Core(t, c.held[task := Held(t.futures[f].key, f)], c.owner + [task])
  }

  function Released(t: Table, h: Held): Table {
    if h.key == PONG_KEY then DiscardPong(t, Some(h.fut)) else Discard(t, h.key)
  }

  function DoFinish(c: Core, task: Task, cancel: bool): Core
    requires task in c.held
  {
    var h := c.held[task];
    var t := if cancel then SettleAt(c.table, h.fut, Cancelled) else c.table;
    c.(table := Released(t, h), held := c.held - {task})
  }

  /** The table after the first section of a request: the number taken, the future registered, and discarded again
      when there is no open connection. `refused` is the dialect's NotImplementedError. */
  function RequestTable(d: Dialect, t: Table, refused: bool, connected: bool): Table {
    if refused then t.(counter := t.counter + 1)
    else if connected then Started(d, t, false)
    else Released(Started(d, t, false), Held(d.KeyFor(t.counter + 1), |t.futures|))
  }

  /** Likewise for a ping. */
  function PingTable(d: Dialect, t: Table, connected: bool): Table {
    if connected then Started(d, t, true) else Released(Started(d, t, true), Held(PONG_KEY, |t.futures|))
  }

  function Apply(d: Dialect, c: Core, e: Effect): Core
    requires Enabled(c, e)
  {
    match e
    case Nothing => c
    case TakeNumber => c.(table := c.table.(counter := c.table.counter + 1))
    case Begin(task, ping) => DoBegin(d, c, task, ping)
    case BeginFails(task, ping) => DoFinish(DoBegin(d, c, task, ping), task, false)
    case Finish(task, cancel) => DoFinish(c, task, cancel)
    case Reply(msg) => c.(table := Resolve(c.table, msg, d.ResponseKey(msg)))
    case FlushAll(outcome) => c.(table := Flush(c.table, outcome))
  }

  /** `Apply` where it is enabled; otherwise nothing happens. */
  function Do(d: Dialect, c: Core, e: Effect): Core {
    if Enabled(c, e) then Apply(d, c, e) else c
  }

  // ---- the invariant ------------------------------------------------------------------------

  ghost predicate NumberedAt(d: Dialect, counter: nat, key: Key) {
    key != PONG_KEY ==> 1 <= d.KeyNumber(key) <= counter && key == d.KeyFor(d.KeyNumber(key))
  }

  /** Key freshness: the keys of requests carry strictly increasing numbers, over the client's lifetime. */
  ghost predicate Numbered(d: Dialect, c: Core) {
    var fs := c.table.futures;
    && (forall f :: 0 <= f < |fs| ==> NumberedAt(d, c.table.counter, fs[f].key))
    && (forall f, g :: 0 <= f < g < |fs| && fs[f].key != PONG_KEY && fs[g].key != PONG_KEY ==>
          d.KeyNumber(fs[f].key) < d.KeyNumber(fs[g].key))
  }

  /** No leak: every registered future belongs to whoever created it, who is still waiting. */
  ghost predicate NoLeak(c: Core) {
    && |c.owner| == |c.table.futures|
    && WellFormed(c.table)
    && forall k :: k in c.table.pending ==>
         var f := c.table.pending[k];
         c.owner[f] in c.held && c.held[c.owner[f]] == Held(k, f)
  }

  /** No theft: what a waiting task holds is its own. A request's key is either registered to its own future, or
      a drop or a stop has cleared it and then the future is already done. */
  ghost predicate NoTheft(c: Core) {
    && |c.owner| == |c.table.futures|
    && forall task :: task in c.held ==>
         var h := c.held[task];
         && h.fut < |c.table.futures| && c.owner[h.fut] == task && c.table.futures[h.fut].key == h.key
         && (h.key != PONG_KEY && h.key in c.table.pending ==> c.table.pending[h.key] == h.fut)
         && (h.key != PONG_KEY && h.key !in c.table.pending ==> !c.table.futures[h.fut].outcome.Pending?)
  }

  /** The pong slot is empty or holds the latest registrant. */
  ghost predicate LatestPong(c: Core) {
    PONG_KEY in c.table.pending ==>
      forall g :: c.table.pending[PONG_KEY] < g < |c.table.futures| ==> c.table.futures[g].key != PONG_KEY
  }

  /** `msg` is an answer to what was registered under `key`. A frame can reach the pong slot by spelling the
      reserved name in its correlation field; it can never reach a request with a pong. */
  predicate Answers(d: Dialect, key: Key, msg: Frame) {
    if key == PONG_KEY then IsPong(msg) || d.ResponseKey(msg) == Keyed(PONG_KEY)
    else !IsPong(msg) && d.ResponseKey(msg) == Keyed(key)
  }

  ghost predicate Correlated(d: Dialect, c: Core) {
    forall f :: 0 <= f < |c.table.futures| && c.table.futures[f].outcome.Result? ==>
      Answers(d, c.table.futures[f].key, c.table.futures[f].outcome.msg)
  }

  ghost predicate Inv(d: Dialect, c: Core) {
    Numbered(d, c) && NoLeak(c) && NoTheft(c) && LatestPong(c) && Correlated(d, c)
  }

  // ---- preservation -------------------------------------------------------------------------

  /** A new registration appends one future and takes over one key. */
  lemma BeginShape(d: Dialect, c: Core, task: Task, ping: bool)
    requires |c.owner| == |c.table.futures|
    ensures var c' := DoBegin(d, c, task, ping);
            var f := |c.table.futures|;
            var key := if ping then PONG_KEY else d.KeyFor(c.table.counter + 1);
            && c'.table.futures == c.table.futures + [Fut(key, Rpc.Pending)] && c'.owner == c.owner + [task]
            && c'.table.pending == c.table.pending[key := f] && c'.held == c.held[task := Held(key, f)]
            && c'.table.counter == (if ping then c.table.counter else c.table.counter + 1)
            && (key == PONG_KEY <==> ping)
  {
    KeysAreFresh(d, c.table.counter + 1);
  }

  /** The number of a new request is larger than that of every earlier one, so its key is new too. */
  lemma BeginNumbered(d: Dialect, c: Core, task: Task, ping: bool)
    requires Numbered(d, c) && |c.owner| == |c.table.futures|
    ensures Numbered(d, DoBegin(d, c, task, ping))
    ensures !ping ==> forall g :: 0 <= g < |c.table.futures| ==> c.table.futures[g].key != d.KeyFor(c.table.counter + 1)
  {
    BeginShape(d, c, task, ping);
    KeysAreFresh(d, c.table.counter + 1);
    var c' := DoBegin(d, c, task, ping);
    var n := |c.table.futures|;
    assert NumberedAt(d, c'.table.counter, c'.table.futures[n].key);
    forall g | 0 <= g < n
      ensures NumberedAt(d, c'.table.counter, c'.table.futures[g].key)
      ensures c'.table.futures[g] == c.table.futures[g]
      ensures !ping && c.table.futures[g].key != PONG_KEY ==>
                d.KeyNumber(c.table.futures[g].key) < d.KeyNumber(c'.table.futures[n].key)
    {
    }
  }

  lemma BeginNoLeak(d: Dialect, c: Core, task: Task, ping: bool)
    requires NoLeak(c) && task !in c.held
    ensures NoLeak(DoBegin(d, c, task, ping))
  {
    BeginShape(d, c, task, ping);
  }

  /** A waiting task's slot, its future and its key are as they were when another task registers. */
  lemma BeginLeavesOthers(d: Dialect, c: Core, task: Task, ping: bool, t: Task)
    requires Numbered(d, c) && NoTheft(c) && task !in c.held && t in c.held
    ensures var c', h := DoBegin(d, c, task, ping), c.held[t];
            && t in c'.held && c'.held[t] == h && h.fut < |c'.owner| && c'.owner[h.fut] == t
            && h.fut < |c'.table.futures| && c'.table.futures[h.fut] == c.table.futures[h.fut]
            && (h.key != PONG_KEY ==>
                  && (h.key in c'.table.pending <==> h.key in c.table.pending)
                  && (h.key in c.table.pending ==> c'.table.pending[h.key] == c.table.pending[h.key]))
  {
    BeginShape(d, c, task, ping);
    BeginNumbered(d, c, task, ping);
    assert c.table.futures[c.held[t].fut].key == c.held[t].key;
  }

  lemma BeginNoTheft(d: Dialect, c: Core, task: Task, ping: bool)
    requires Numbered(d, c) && NoTheft(c) && task !in c.held
    ensures NoTheft(DoBegin(d, c, task, ping))
  {
    BeginShape(d, c, task, ping);
    forall t | t in c.held {
      BeginLeavesOthers(d, c, task, ping, t);
    }
  }

  lemma BeginKeeps(d: Dialect, c: Core, task: Task, ping: bool)
    requires Inv(d, c) && task !in c.held
    ensures Inv(d, DoBegin(d, c, task, ping))
  {
    BeginShape(d, c, task, ping);
    BeginNumbered(d, c, task, ping);
    BeginNoLeak(d, c, task, ping);
    BeginNoTheft(d, c, task, ping);
  }

  /** Ending a wait removes at most the registration of its own future. */
  lemma FinishShape(d: Dialect, c: Core, task: Task, cancel: bool)
    requires NoLeak(c) && NoTheft(c) && task in c.held
    ensures var c' := DoFinish(c, task, cancel);
            var h := c.held[task];
            && c'.held == c.held - {task} && c'.owner == c.owner && c'.table.counter == c.table.counter
            && |c'.table.futures| == |c.table.futures|
            && (forall g :: 0 <= g < |c.table.futures| ==>
                  && c'.table.futures[g].key == c.table.futures[g].key
                  && (c'.table.futures[g].outcome == c.table.futures[g].outcome
                      || (g == h.fut && cancel && c.table.futures[g].outcome.Pending?
                          && c'.table.futures[g].outcome == Cancelled)))
            && c'.table.pending == (if h.key in c.table.pending && c.table.pending[h.key] == h.fut
                                    then c.table.pending - {h.key} else c.table.pending)
  {
    var h := c.held[task];
    if h.key != PONG_KEY && h.key !in c.table.pending {
      assert c.table.pending - {h.key} == c.table.pending;
    }
  }

  lemma FinishNoLeak(d: Dialect, c: Core, task: Task, cancel: bool)
    requires NoLeak(c) && NoTheft(c) && task in c.held
    ensures NoLeak(DoFinish(c, task, cancel))
  {
    FinishShape(d, c, task, cancel);
    var c' := DoFinish(c, task, cancel);
    forall k | k in c'.table.pending
      ensures c.owner[c.table.pending[k]] != task
    {
      assert c.held[c.owner[c.table.pending[k]]] == Held(k, c.table.pending[k]);
    }
  }

  lemma FinishNoTheft(d: Dialect, c: Core, task: Task, cancel: bool)
    requires Numbered(d, c) && NoLeak(c) && NoTheft(c) && task in c.held
    ensures NoTheft(DoFinish(c, task, cancel))
  {
    FinishShape(d, c, task, cancel);
    var h := c.held[task];
    forall t | t in c.held && t != task
      ensures c.held[t].fut != h.fut && (c.held[t].key != PONG_KEY ==> c.held[t].key != h.key)
    {
      assert c.owner[c.held[t].fut] == t && c.owner[h.fut] == task;
    }
  }

  lemma FinishKeeps(d: Dialect, c: Core, task: Task, cancel: bool)
    requires Inv(d, c) && task in c.held
    ensures Inv(d, DoFinish(c, task, cancel))
  {
    FinishShape(d, c, task, cancel);
    FinishNoLeak(d, c, task, cancel);
    FinishNoTheft(d, c, task, cancel);
  }

  /** A reply changes at most one outcome, from pending to this frame. */
  lemma ReplyShape(d: Dialect, c: Core, msg: Frame)
    requires WellFormed(c.table)
    ensures var c' := Apply(d, c, Reply(msg));
            && c'.held == c.held && c'.owner == c.owner && c'.table.pending == c.table.pending
            && c'.table.counter == c.table.counter && |c'.table.futures| == |c.table.futures|
            && forall f :: 0 <= f < |c.table.futures| ==>
                 && c'.table.futures[f].key == c.table.futures[f].key
                 && (c'.table.futures[f].outcome == c.table.futures[f].outcome
                     || (c'.table.futures[f].outcome == Result(msg) && Answers(d, c.table.futures[f].key, msg)))
  {
    RoutingLaw(c.table, msg, d.ResponseKey(msg));
  }

  lemma ReplyKeeps(d: Dialect, c: Core, msg: Frame)
    requires Inv(d, c)
    ensures Inv(d, Apply(d, c, Reply(msg)))
  {
    ReplyShape(d, c, msg);
  }

  /** A waiting request whose key a flush clears has a future that is done. */
  lemma FlushNoTheft(d: Dialect, c: Core, outcome: Outcome)
    requires NoTheft(c) && (outcome.Failed? || outcome.Cancelled?)
    ensures NoTheft(Apply(d, c, FlushAll(outcome)))
  {
    var c' := Apply(d, c, FlushAll(outcome));
    forall task | task in c.held && c.held[task].key != PONG_KEY
      ensures !c'.table.futures[c.held[task].fut].outcome.Pending?
    {
      var h := c.held[task];
      FlushLaw(c.table, outcome, h.fut);
      if h.key in c.table.pending {
        assert Registered(c.table, h.fut);
      }
    }
  }

  lemma FlushKeeps(d: Dialect, c: Core, outcome: Outcome)
    requires Inv(d, c) && (outcome.Failed? || outcome.Cancelled?)
    ensures Inv(d, Apply(d, c, FlushAll(outcome)))
  {
    FlushNoTheft(d, c, outcome);
    assert forall f :: 0 <= f < |c.table.futures| ==>
             Flush(c.table, outcome).futures[f].key == c.table.futures[f].key;
  }

  lemma InvHolds(d: Dialect, c: Core, e: Effect)
    requires Inv(d, c) && Enabled(c, e)
    ensures Inv(d, Apply(d, c, e))
  {
    match e
    case Nothing =>
    case TakeNumber =>
    case Begin(task, ping) => BeginKeeps(d, c, task, ping);
    case BeginFails(task, ping) =>
      BeginKeeps(d, c, task, ping);
      FinishKeeps(d, DoBegin(d, c, task, ping), task, false);
    case Finish(task, cancel) => FinishKeeps(d, c, task, cancel);
    case Reply(msg) => ReplyKeeps(d, c, msg);
    case FlushAll(outcome) => FlushKeeps(d, c, outcome);
  }

  /** Registering and discarding in one section leaves a dead future behind and at most empties the pong slot. */
  lemma BeginFailsShape(d: Dialect, c: Core, task: Task, ping: bool)
    requires Inv(d, c) && task !in c.held
    ensures var c' := Apply(d, c, BeginFails(task, ping));
            var key := if ping then PONG_KEY else d.KeyFor(c.table.counter + 1);
            && c'.table.futures == c.table.futures + [Fut(key, Rpc.Pending)] && c'.owner == c.owner + [task]
            && c'.held == c.held && c'.table.pending == c.table.pending - {key}
            && c'.table.counter == (if ping then c.table.counter else c.table.counter + 1)
            && (key == PONG_KEY <==> ping)
  {
    BeginShape(d, c, task, ping);
    var b := DoBegin(d, c, task, ping);
    var key := b.held[task].key;
    assert b.table.pending - {key} == c.table.pending - {key};
    assert b.held - {task} == c.held;
  }

  // ---- what one step can do to a future -----------------------------------------------------

  function FutAt(c: Core, f: nat): Option<Fut> {
    if f < |c.table.futures| then Some(c.table.futures[f]) else None
  }

  /** `c'` comes no earlier than `c`: futures are only added, and a future that is done never changes. */
  ghost predicate Later(c: Core, c': Core) {
    && |c.table.futures| <= |c'.table.futures| && |c.owner| <= |c'.owner| && c.table.counter <= c'.table.counter
    && forall f :: 0 <= f < |c.table.futures| && f < |c.owner| ==>
         && c'.table.futures[f].key == c.table.futures[f].key && c'.owner[f] == c.owner[f]
         && (!c.table.futures[f].outcome.Pending? ==> c'.table.futures[f] == c.table.futures[f])
  }

  lemma StepIsLater(d: Dialect, c: Core, e: Effect)
    requires Inv(d, c) && Enabled(c, e)
    ensures Later(c, Apply(d, c, e))
  {
    match e
    case Begin(task, ping) => BeginShape(d, c, task, ping);
    case BeginFails(task, ping) => BeginFailsShape(d, c, task, ping);
    case Finish(task, cancel) => FinishShape(d, c, task, cancel);
    case Reply(msg) => ReplyShape(d, c, msg);
    case _ =>
  }

  /** What settles a future: a frame that answers it, while it is registered; a drop or a stop, while it is registered;
      or the timeout or cancellation of its owner. */
  predicate SettledRightly(d: Dialect, c: Core, e: Effect, f: nat, outcome: Outcome)
    requires f < |c.table.futures| && f < |c.owner|
  {
    match outcome
    case Pending => false
    case Result(msg) => e == Reply(msg) && Registered(c.table, f) && Answers(d, c.table.futures[f].key, msg)
    case Failed(error) => e == FlushAll(Failed(error)) && Registered(c.table, f)
    case Cancelled => (e == FlushAll(Cancelled) && Registered(c.table, f)) || e == Finish(c.owner[f], true)
  }

  /** Every way a future can change. */
  lemma SettledBy(d: Dialect, c: Core, e: Effect, f: nat)
    requires Inv(d, c) && Enabled(c, e) && f < |c.table.futures|
    requires FutAt(Apply(d, c, e), f) != FutAt(c, f)
    ensures c.table.futures[f].outcome.Pending? && FutAt(Apply(d, c, e), f).Some?
    ensures SettledRightly(d, c, e, f, FutAt(Apply(d, c, e), f).value.outcome)
  {
    match e
    case Begin(task, ping) => BeginShape(d, c, task, ping);
    case BeginFails(task, ping) => BeginFailsShape(d, c, task, ping);
    case Finish(task, cancel) => FinishShape(d, c, task, cancel);
    case Reply(msg) => RoutingLaw(c.table, msg, d.ResponseKey(msg));
    case _ =>
  }

  /** Exactly which frames settle a pending future that is registered under `key`. */
  lemma AnswersSettle(d: Dialect, c: Core, key: Key, msg: Frame)
    requires Inv(d, c) && key in c.table.pending && c.table.futures[c.table.pending[key]].outcome.Pending?
    ensures Apply(d, c, Reply(msg)).table.futures[c.table.pending[key]].outcome == Result(msg)
            <==> Answers(d, key, msg)
  {
    RoutingLaw(c.table, msg, d.ResponseKey(msg));
  }

  /** So a ping can be answered by a frame that is no pong, if it spells the reserved name in its correlation field. */
  lemma SpelledPong(d: Dialect)
    ensures var msg := map["id" := Str("__pong__")]; !IsPong(msg) && Answers(d, PONG_KEY, msg)
  {
  }

  /** An orphan, such as the earlier of two overlapping pings, is out of everybody's reach but its own
      task's: once unregistered a future stays so, and only its owner's timeout or cancellation settles it. */
  lemma OrphanLaw(d: Dialect, c: Core, e: Effect, f: nat)
    requires Inv(d, c) && Enabled(c, e)
    requires f < |c.table.futures| && !Registered(c.table, f)
    ensures !Registered(Apply(d, c, e).table, f)
    ensures e != Finish(c.owner[f], true) ==> FutAt(Apply(d, c, e), f) == FutAt(c, f)
  {
    if FutAt(Apply(d, c, e), f) != FutAt(c, f) {
      SettledBy(d, c, e, f);
    }
    StaysUnregistered(d, c, e, f);
  }

  lemma StaysUnregistered(d: Dialect, c: Core, e: Effect, f: nat)
    requires Inv(d, c) && Enabled(c, e) && f < |c.table.futures| && !Registered(c.table, f)
    ensures !Registered(Apply(d, c, e).table, f)
  {
    match e
    case Begin(task, ping) => BeginShape(d, c, task, ping);
    case BeginFails(task, ping) => BeginFailsShape(d, c, task, ping);
    case Finish(task, cancel) => FinishShape(d, c, task, cancel);
    case _ =>
  }

  /** A request registers under a key no future, live or dead, has had; so it overwrites nothing, and no reply
      to an earlier request can match it. */
  lemma RequestKeyIsNew(d: Dialect, c: Core, task: Task)
    requires Inv(d, c) && task !in c.held
    ensures var key := DoBegin(d, c, task, false).held[task].key;
            && key == d.KeyFor(c.table.counter + 1) && key != PONG_KEY && key !in c.table.pending
            && forall g :: 0 <= g < |c.table.futures| ==> c.table.futures[g].key != key
  {
    BeginShape(d, c, task, false);
    BeginNumbered(d, c, task, false);
    KeysAreFresh(d, c.table.counter + 1);
  }

  /** The slot keeps its registrant until that task's own `finally`, a newer ping, a drop or a stop. An earlier
      waiter's `finally` never evicts it. */
  lemma PongSlotKept(d: Dialect, c: Core, e: Effect)
    requires Inv(d, c) && Enabled(c, e) && PONG_KEY in c.table.pending
    ensures var f := c.table.pending[PONG_KEY];
            var after := Apply(d, c, e).table.pending;
            || (PONG_KEY in after && after[PONG_KEY] == f)
            || (e.Finish? && e.task == c.owner[f])
            || ((e.Begin? || e.BeginFails?) && e.ping)
            || e.FlushAll?
  {
    match e
    case Begin(task, ping) => BeginShape(d, c, task, ping);
    case BeginFails(task, ping) => BeginFailsShape(d, c, task, ping);
    case Finish(task, cancel) => FinishShape(d, c, task, cancel);
    case _ =>
  }

  /** A late `discard` removes nobody else's entry, and ends its own registration. */
  lemma FinishRemovesOwn(d: Dialect, c: Core, task: Task, cancel: bool)
    requires Inv(d, c) && task in c.held
    ensures var after := DoFinish(c, task, cancel).table.pending;
            forall k :: k in c.table.pending ==>
              (k !in after <==> c.owner[c.table.pending[k]] == task)
              && (k in after ==> after[k] == c.table.pending[k])
  {
    FinishShape(d, c, task, cancel);
    forall k | k in c.table.pending
      ensures c.owner[c.table.pending[k]] == task <==> c.held[task] == Held(k, c.table.pending[k])
    {
      assert c.held[c.owner[c.table.pending[k]]] == Held(k, c.table.pending[k]);
    }
  }
}
