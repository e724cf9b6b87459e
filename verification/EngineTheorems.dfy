/** What holds over every run of the client, whatever the interleaving. */
module EngineTheorems {
  import opened Wire
  import opened Dialects
  import opened Rpc
  import opened Correlation
  import opened Engine
  import opened EngineInvariants

  predicate Takes(cfg: Config, ss: seq<State>, steps: seq<Step>, i: nat) {
    i < |steps| && i + 1 < |ss| && Possible(ss[i], steps[i]) && ss[i + 1] == Next(cfg, ss[i], steps[i])
  }

  predicate IsRun(cfg: Config, ss: seq<State>, steps: seq<Step>) {
    && |ss| == |steps| + 1 && ss[0] == INITIAL_STATE
    && forall i :: 0 <= i < |steps| ==> Takes(cfg, ss, steps, i)
  }

  lemma {:induction false} Reachable(cfg: Config, ss: seq<State>, steps: seq<Step>, i: nat)
    requires IsRun(cfg, ss, steps) && i < |ss|
    ensures EngineInvariants.Inv(cfg, ss[i])
  {
    if i == 0 {
      InvInitially(cfg);
    } else {
      Reachable(cfg, ss, steps, i - 1);
      assert Takes(cfg, ss, steps, i - 1);
      InvKept(cfg, ss[i - 1], steps[i - 1]);
    }
  }

  /** Every step of a run is one enabled effect on the shared table. */
  lemma CoreStep(cfg: Config, ss: seq<State>, steps: seq<Step>, i: nat)
    requires IsRun(cfg, ss, steps) && i < |steps|
    ensures Takes(cfg, ss, steps, i)
    ensures EngineInvariants.Inv(cfg, ss[i]) && EngineInvariants.Inv(cfg, ss[i + 1])
    ensures var e := EffectOf(cfg, ss[i], steps[i]);
            Enabled(ss[i].core, e) && ss[i + 1].core == Apply(cfg.dialect, ss[i].core, e)
  {
    Reachable(cfg, ss, steps, i);
    Reachable(cfg, ss, steps, i + 1);
    assert Takes(cfg, ss, steps, i);
    EffectEnabled(cfg, ss[i], steps[i]);
    NextCore(cfg, ss[i], steps[i]);
  }

  /** Taking `steps` one after the other leads from `s` to `s'`. */
  ghost predicate Leads(cfg: Config, s: State, steps: seq<Step>, s': State)
    decreases |steps|
  {
    if steps == [] then s == s'
    else Possible(s, steps[0]) && Leads(cfg, Next(cfg, s, steps[0]), steps[1..], s')
  }

  lemma Prepend(cfg: Config, s: State, step: Step, steps: seq<Step>, s': State)
    requires Possible(s, step) && Leads(cfg, Next(cfg, s, step), steps, s')
    ensures Leads(cfg, s, [step] + steps, s')
  {
    assert ([step] + steps)[1..] == steps;
  }

  /** A start() in a client that is at rest, and a stop() at any time; a start() under way can fail at any point; a
      stop() under way goes on when what it joins is over; any socket can drop. */
  predicate Ready(s: State, step: Step) {
    match step
    case StartCall =>
      !s.link.running && s.starting.NotStarting? && s.stopping.NotStopping? && Finished(s, Supervisor)
    case StartConnected => s.starting.StartConnecting?
    case StartReady => s.starting.StartHandshake?
    case StartFails => s.starting.StartConnecting? || s.starting.StartHandshake?
    case StopCall => true
    case StopJoinedSupervisor => s.stopping.JoinSupervisor? && Finished(s, Supervisor)
    case StopJoinedHeartbeat =>
      && s.stopping.JoinHeartbeat?
      && (s.stopping.known > 0 && Heartbeat(s.stopping.known - 1) in s.pcs ==>
            s.pcs[Heartbeat(s.stopping.known - 1)].Over?)
    case StopClosed => s.stopping.Closing?
    case Tick(dt) => dt >= 0.0
    case SocketDrops(c) => c < |s.link.conns|
    case _ => false
  }

  /** These are exactly the steps that start(), stop() and the environment can take. */
  lemma OthersReady(s: State, step: Step)
    requires OfLifecycle(step) || step.Tick? || step.SocketDrops?
    ensures Possible(s, step) <==> Ready(s, step)
  {
  }

  /** The steps in which a ping registers, whether or not it can be sent. */
  predicate RegistersPing(s: State, step: Step) {
    (step.CallBegin? && step.call.Ping?) || (step.BeatWakes? && s.link.running)
  }

  /** Which steps have which effects on the table. */
  lemma EffectCauses(cfg: Config, s: State, step: Step)
    requires Possible(s, step)
    ensures var e := EffectOf(cfg, s, step);
            && (e.Reply? ==> step == HookReturns && At(s, Supervisor, SupHook(e.msg)))
            && (e.Finish? ==> step.EndWait? && step.task == e.task)
            && ((e.Begin? || e.BeginFails?) && e.ping ==> RegistersPing(s, step))
            && (e.FlushAll? ==> EndsPump(step) || step.StopClosed?)
  {
  }

  // ---- correlation --------------------------------------------------------------------------

  /** No future is settled twice: once done it stays as it is for the rest of the run. */
  lemma {:induction false} SettledOnce(cfg: Config, ss: seq<State>, steps: seq<Step>, i: nat, j: nat, f: nat)
    requires IsRun(cfg, ss, steps) && i <= j < |ss|
    requires SettledIn(ss[i].core, f)
    ensures SettledAlike(ss[i].core, ss[j].core, f)
    decreases j
  {
    if i < j {
      SettledOnce(cfg, ss, steps, i, j - 1, f);
      SettledStep(cfg, ss, steps, j - 1, f);
    }
  }

  predicate SettledIn(c: Core, f: nat) {
    f < |c.table.futures| && !c.table.futures[f].outcome.Pending?
  }

  predicate SettledAlike(c: Core, c': Core, f: nat) {
    SettledIn(c, f) && SettledIn(c', f) && c'.table.futures[f] == c.table.futures[f]
  }

  lemma SettledStep(cfg: Config, ss: seq<State>, steps: seq<Step>, j: nat, f: nat)
    requires IsRun(cfg, ss, steps) && j < |steps| && SettledIn(ss[j].core, f)
    ensures SettledAlike(ss[j].core, ss[j + 1].core, f)
  {
    CoreStep(cfg, ss, steps, j);
    SettledEffect(cfg.dialect, ss[j].core, EffectOf(cfg, ss[j], steps[j]), f);
  }

  lemma SettledEffect(d: Dialect, c: Core, e: Effect, f: nat)
    requires Correlation.Inv(d, c) && Enabled(c, e) && SettledIn(c, f)
    ensures SettledAlike(c, Apply(d, c, e), f)
  {
    StepIsLater(d, c, e);
  }

  /** Where a result comes from: a frame that was dispatched earlier in the run, while this very future was
      registered and pending, and that answers the key it was registered under. */
  lemma {:induction false} ResultProvenance(cfg: Config, ss: seq<State>, steps: seq<Step>, i: nat, f: nat)
    returns (j: nat)
    requires IsRun(cfg, ss, steps) && i < |ss|
    requires f < |ss[i].core.table.futures| && ss[i].core.table.futures[f].outcome.Result?
    ensures var fut := ss[i].core.table.futures[f];
            && j < i && steps[j] == HookReturns && At(ss[j], Supervisor, SupHook(fut.outcome.msg))
            && f < |ss[j].core.table.futures| && ss[j].core.table.futures[f] == Fut(fut.key, Rpc.Pending)
            && Registered(ss[j].core.table, f) && Answers(cfg.dialect, fut.key, fut.outcome.msg)
  {
    j := i - 1;
    CoreStep(cfg, ss, steps, j);
    if f < |ss[j].core.table.futures| && ss[j].core.table.futures[f] == ss[i].core.table.futures[f] {
      j := ResultProvenance(cfg, ss, steps, j, f);
    } else {
      ResultStep(cfg, ss[j], steps[j], f);
    }
  }

  /** The step that gives a future its result. */
  lemma ResultStep(cfg: Config, s: State, step: Step, f: nat)
    requires EngineInvariants.Inv(cfg, s) && Possible(s, step) && Enabled(s.core, EffectOf(cfg, s, step))
    requires var fs := Apply(cfg.dialect, s.core, EffectOf(cfg, s, step)).table.futures;
             && f < |fs| && fs[f].outcome.Result?
             && !(f < |s.core.table.futures| && s.core.table.futures[f] == fs[f])
    ensures var fut := Apply(cfg.dialect, s.core, EffectOf(cfg, s, step)).table.futures[f];
            && step == HookReturns && At(s, Supervisor, SupHook(fut.outcome.msg))
            && f < |s.core.table.futures| && s.core.table.futures[f] == Fut(fut.key, Rpc.Pending)
            && Registered(s.core.table, f) && Answers(cfg.dialect, fut.key, fut.outcome.msg)
  {
    ResultEffect(cfg.dialect, s.core, EffectOf(cfg, s, step), f);
    EffectCauses(cfg, s, step);
  }

  lemma ResultEffect(d: Dialect, c: Core, e: Effect, f: nat)
    requires Correlation.Inv(d, c) && Enabled(c, e)
    requires var fs := Apply(d, c, e).table.futures;
             f < |fs| && fs[f].outcome.Result? && !(f < |c.table.futures| && c.table.futures[f] == fs[f])
    ensures var fut := Apply(d, c, e).table.futures[f];
            && e == Reply(fut.outcome.msg)
            && f < |c.table.futures| && c.table.futures[f] == Fut(fut.key, Rpc.Pending)
            && Registered(c.table, f) && Answers(d, fut.key, fut.outcome.msg)
  {
    if f >= |c.table.futures| {
      NewbornPending(d, c, e, f);
    } else {
      SettledBy(d, c, e, f);
      StepIsLater(d, c, e);
    }
  }

  lemma NewbornPending(d: Dialect, c: Core, e: Effect, f: nat)
    requires Correlation.Inv(d, c) && Enabled(c, e) && |c.table.futures| <= f < |Apply(d, c, e).table.futures|
    ensures Apply(d, c, e).table.futures[f].outcome.Pending?
  {
    match e
    case Begin(task, ping) => BeginShape(d, c, task, ping);
    case BeginFails(task, ping) => BeginFailsShape(d, c, task, ping);
    case Finish(task, cancel) => FinishShape(d, c, task, cancel);
    case _ =>
  }

  /** A reply or rejection reaches a request's caller exactly when it is woken by one; it then carries that
      request's own number, and is no pong. */
  lemma CallersGetTheirOwn(cfg: Config, s: State, n: nat, how: How)
    requires EngineInvariants.Inv(cfg, s) && Possible(s, EndWait(Caller(n), how))
    requires s.pcs[Caller(n)].CallAwaiting? && !s.pcs[Caller(n)].call.Ping?
    ensures var pcs := Next(cfg, s, EndWait(Caller(n), how)).pcs;
            && Caller(n) in pcs && pcs[Caller(n)].CallDone?
            && OwnAnswer(cfg.dialect, s.pcs[Caller(n)].id, how, pcs[Caller(n)].result)
            && (pcs[Caller(n)].result.Returned? || pcs[Caller(n)].result.Rejected?
                <==> how == Woken && OutcomeAt(s.core.table, s.core.held[Caller(n)].fut).Result?)
  {
    CallEnds(cfg, s, n, how);
    AwaitedResult(cfg, s, n, how);
    AnswerGiven(cfg.dialect, s, n, how);
  }

  lemma AnswerGiven(d: Dialect, s: State, n: nat, how: How)
    requires Caller(n) in s.pcs && Caller(n) in s.core.held && s.pcs[Caller(n)].CallAwaiting?
    ensures ResultOf(d, s, n, how).Returned? || ResultOf(d, s, n, how).Rejected?
            <==> how == Woken && OutcomeAt(s.core.table, s.core.held[Caller(n)].fut).Result?
  {
  }

  /** What a caller gets for request `id`, if it gets an answer at all, is a frame that carries this very number. */
  predicate OwnAnswer(d: Dialect, id: nat, how: How, result: CallResult) {
    result.Returned? || result.Rejected? ==>
      && how == Woken && !IsPong(result.msg) && d.ResponseKey(result.msg) == Keyed(d.KeyFor(id))
      && (result.Rejected? <==> d.Rejects(result.msg))
  }

  lemma AwaitedAnswer(cfg: Config, s: State, n: nat)
    requires Slots(cfg.dialect, s) && Correlation.Inv(cfg.dialect, s.core) && Caller(n) in s.core.held
    requires Caller(n) in s.pcs && s.pcs[Caller(n)].CallAwaiting? && !s.pcs[Caller(n)].call.Ping?
    ensures var f := s.core.held[Caller(n)].fut;
            && f < |s.core.table.futures|
            && (s.core.table.futures[f].outcome.Result? ==>
                  var msg := s.core.table.futures[f].outcome.msg;
                  !IsPong(msg) && cfg.dialect.ResponseKey(msg) == Keyed(cfg.dialect.KeyFor(s.pcs[Caller(n)].id)))
  {
    var h := s.core.held[Caller(n)];
    assert SlotFits(cfg.dialect, s.core.table.counter, s.pcs[Caller(n)], h);
    assert s.core.table.futures[h.fut].key == h.key;
    KeysAreFresh(cfg.dialect, s.pcs[Caller(n)].id);
  }

  function ResultOf(d: Dialect, s: State, n: nat, how: How): CallResult
    requires Caller(n) in s.pcs && Caller(n) in s.core.held && s.pcs[Caller(n)].CallAwaiting?
  {
    CallOutcome(d, s.pcs[Caller(n)].call, how, OutcomeAt(s.core.table, s.core.held[Caller(n)].fut))
  }

  lemma AwaitedResult(cfg: Config, s: State, n: nat, how: How)
    requires Slots(cfg.dialect, s) && Correlation.Inv(cfg.dialect, s.core) && Caller(n) in s.core.held
    requires Caller(n) in s.pcs && s.pcs[Caller(n)].CallAwaiting? && !s.pcs[Caller(n)].call.Ping?
    ensures OwnAnswer(cfg.dialect, s.pcs[Caller(n)].id, how, ResultOf(cfg.dialect, s, n, how))
  {
    AwaitedAnswer(cfg, s, n);
  }

  lemma CallEnds(cfg: Config, s: State, n: nat, how: How)
    requires Possible(s, EndWait(Caller(n), how)) && s.pcs[Caller(n)].CallAwaiting?
    ensures Next(cfg, s, EndWait(Caller(n), how)).pcs == s.pcs[Caller(n) := CallDone(ResultOf(cfg.dialect, s, n, how))]
  {
  }

  /** A ping that is woken by any frame at all has its pong: nobody looks at what the frame says. */
  lemma PingsAreNeverRejected(cfg: Config, s: State, n: nat, how: How)
    requires EngineInvariants.Inv(cfg, s) && Possible(s, EndWait(Caller(n), how))
    requires s.pcs[Caller(n)].CallAwaiting? && s.pcs[Caller(n)].call.Ping?
    ensures var pcs := Next(cfg, s, EndWait(Caller(n), how)).pcs;
            && Caller(n) in pcs && pcs[Caller(n)].CallDone? && !pcs[Caller(n)].result.Rejected?
            && (pcs[Caller(n)].result.Returned?
                <==> how == Woken && OutcomeAt(s.core.table, s.core.held[Caller(n)].fut).Result?)
  {
    CallEnds(cfg, s, n, how);
  }

  /** A call that the dialect refuses to frame has taken a number and done nothing else: nothing is registered or sent.
      These are the orders, and whatever else is not a subscribe or unsubscribe, on OKX. */
  lemma RefusedCalls(cfg: Config, s: State, n: nat, call: Call)
    requires EngineInvariants.Inv(cfg, s) && Possible(s, CallBegin(n, call))
    ensures var s' := Next(cfg, s, CallBegin(n, call));
            && (s'.pcs[Caller(n)] == CallDone(NotImplemented)
                <==> cfg.dialect.OKX? && call.Plain? && call.verb !in ["subscribe", "unsubscribe"])
            && (s'.pcs[Caller(n)] == CallDone(NotImplemented) ==>
                  s' == s.(pcs := s.pcs[Caller(n) := CallDone(NotImplemented)],
                           core := s.core.(table := s.core.table.(counter := s.core.table.counter + 1))))
  {
    RefusedNext(cfg, s, n, call);
  }

  lemma RefusedNext(cfg: Config, s: State, n: nat, call: Call)
    requires Caller(n) !in s.core.held
    ensures var s' := CallNext(cfg, s, n, call);
            && (s'.pcs[Caller(n)] == CallDone(NotImplemented)
                <==> cfg.dialect.OKX? && call.Plain? && call.verb !in ["subscribe", "unsubscribe"])
            && (s'.pcs[Caller(n)] == CallDone(NotImplemented) ==>
                  s' == s.(pcs := s.pcs[Caller(n) := CallDone(NotImplemented)],
                           core := s.core.(table := s.core.table.(counter := s.core.table.counter + 1))))
  {
    FramingRefuses(cfg.dialect, call, s.core.table.counter + 1);
  }

  lemma FramingRefuses(d: Dialect, call: Call, id: nat)
    ensures !call.Ping? ==>
              (Framing(d, call, id) == None <==> d.OKX? && call.Plain? && call.verb !in ["subscribe", "unsubscribe"])
  {
    if call.Plain? {
      Refusals(d, call.verb, call.params, id, EffectiveKey(call.verb, call.idempotencyKey, call.generated),
               call.verb in ORDER_METHODS);
    }
  }

  /** No leak: whatever is registered is held by exactly one task, which is suspended between `create` and its
      `finally`, under its own future. */
  lemma RegisteredIsHeld(cfg: Config, s: State, k: Key) returns (t: Task)
    requires EngineInvariants.Inv(cfg, s) && k in s.core.table.pending
    ensures t in s.pcs && Waiting(s.pcs[t]) && t in s.core.held && s.core.held[t] == Held(k, s.core.table.pending[k])
    ensures forall u :: u in s.core.held && s.core.held[u].fut == s.core.table.pending[k] ==> u == t
    ensures k != PONG_KEY ==> forall u :: u in s.core.held && s.core.held[u].key == k ==> u == t
  {
    t := s.core.owner[s.core.table.pending[k]];
  }

  /** No theft: the `finally` of one task, however late, removes its own registration if that is still there, and
      nobody else's. */
  lemma LateDiscard(cfg: Config, s: State, t: Task, how: How, k: Key)
    requires EngineInvariants.Inv(cfg, s) && Possible(s, EndWait(t, how)) && k in s.core.table.pending
    ensures var after := Next(cfg, s, EndWait(t, how)).core.table.pending;
            && (k !in after <==> s.core.held[t].fut == s.core.table.pending[k])
            && (k in after ==> after[k] == s.core.table.pending[k])
  {
    WaitCore(cfg, s, t, how);
    DiscardedByFinish(cfg.dialect, s.core, t, !Sending(s.pcs[t]) && (how.TimesOut? || how.TaskCancelled?), k);
  }

  lemma WaitCore(cfg: Config, s: State, t: Task, how: How)
    requires Possible(s, EndWait(t, how))
    ensures Next(cfg, s, EndWait(t, how)).core
         == DoFinish(s.core, t, !Sending(s.pcs[t]) && (how.TimesOut? || how.TaskCancelled?))
  {
  }

  lemma DiscardedByFinish(d: Dialect, c: Core, t: Task, cancel: bool, k: Key)
    requires Correlation.Inv(d, c) && t in c.held && k in c.table.pending
    ensures var after := DoFinish(c, t, cancel).table.pending;
            && (k !in after <==> c.held[t].fut == c.table.pending[k])
            && (k in after ==> after[k] == c.table.pending[k])
  {
    FinishRemovesOwn(d, c, t, cancel);
    assert c.owner[c.held[t].fut] == t && c.held[c.owner[c.table.pending[k]]] == Held(k, c.table.pending[k]);
  }

  /** Key freshness over the client's lifetime: of two requests, the one registered later, before or after any
      number of drops, has the larger number and another key. */
  lemma KeysNeverRepeat(cfg: Config, ss: seq<State>, steps: seq<Step>, i: nat, f: nat, g: nat)
    requires IsRun(cfg, ss, steps) && i < |ss| && f < g < |ss[i].core.table.futures|
    requires ss[i].core.table.futures[f].key != PONG_KEY && ss[i].core.table.futures[g].key != PONG_KEY
    ensures var d, fs := cfg.dialect, ss[i].core.table.futures;
            && 1 <= d.KeyNumber(fs[f].key) < d.KeyNumber(fs[g].key) <= ss[i].core.table.counter
            && fs[f].key != fs[g].key
  {
    Reachable(cfg, ss, steps, i);
  }

  // ---- the pong slot ------------------------------------------------------------------------

  /** In every reachable state the slot is empty or holds the latest ping's future, whose task still waits. It
      changes hands only when that task finishes, a newer ping begins, a pump ends or a stop completes. */
  lemma PongSlot(cfg: Config, ss: seq<State>, steps: seq<Step>, i: nat)
    requires IsRun(cfg, ss, steps) && i < |steps| && PONG_KEY in ss[i].core.table.pending
    ensures var c := ss[i].core;
            var f := c.table.pending[PONG_KEY];
            && f < |c.table.futures| && f < |c.owner| && c.table.futures[f].key == PONG_KEY
            && (forall g :: f < g < |c.table.futures| ==> c.table.futures[g].key != PONG_KEY)
            && c.owner[f] in ss[i].pcs && Waiting(ss[i].pcs[c.owner[f]])
            && (var after := ss[i + 1].core.table.pending;
                PONG_KEY !in after || after[PONG_KEY] != f ==> MayTakePong(ss[i], steps[i], c.owner[f]))
  {
    CoreStep(cfg, ss, steps, i);
    PongHeld(cfg.dialect, ss[i].core);
    PongMoves(cfg, ss[i], steps[i]);
  }

  lemma PongHeld(d: Dialect, c: Core)
    requires Correlation.Inv(d, c) && PONG_KEY in c.table.pending
    ensures var f := c.table.pending[PONG_KEY];
            && f < |c.table.futures| && f < |c.owner| && c.table.futures[f].key == PONG_KEY && c.owner[f] in c.held
            && forall g :: f < g < |c.table.futures| ==> c.table.futures[g].key != PONG_KEY
  {
  }

  lemma PongMoves(cfg: Config, s: State, step: Step)
    requires EngineInvariants.Inv(cfg, s) && Possible(s, step) && Enabled(s.core, EffectOf(cfg, s, step))
    requires PONG_KEY in s.core.table.pending && s.core.table.pending[PONG_KEY] < |s.core.owner|
    ensures var f := s.core.table.pending[PONG_KEY];
            var after := Apply(cfg.dialect, s.core, EffectOf(cfg, s, step)).table.pending;
            PONG_KEY !in after || after[PONG_KEY] != f ==> MayTakePong(s, step, s.core.owner[f])
  {
    EffectCauses(cfg, s, step);
    PongSlotKept(cfg.dialect, s.core, EffectOf(cfg, s, step));
  }

  /** The registrant finishes, another ping begins, a pump ends or a stop completes. */
  predicate MayTakePong(s: State, step: Step, holder: Task) {
    || (step.EndWait? && step.task == holder)
    || RegistersPing(s, step) || EndsPump(step) || step.StopClosed?
  }

  /** A ping that overlaps with an earlier one makes it an orphan: still pending as it was, its task still waiting on
      it, but no longer registered. It does so even if it finds no open connection and gives the slot up again. */
  lemma OverlapOrphans(cfg: Config, s: State, step: Step, f: nat)
    requires EngineInvariants.Inv(cfg, s) && Possible(s, step) && RegistersPing(s, step)
    requires PONG_KEY in s.core.table.pending && s.core.table.pending[PONG_KEY] == f
    ensures OrphanedIn(s, Next(cfg, s, step), f)
  {
    EffectEnabled(cfg, s, step);
    NextCore(cfg, s, step);
    PingEffect(cfg, s, step);
    OverlapEffect(cfg.dialect, s.core, EffectOf(cfg, s, step), f);
    InvKept(cfg, s, step);
    StillSuspended(Next(cfg, s, step), s.core.owner[f]);
  }

  predicate OrphanedIn(s: State, s': State, f: nat) {
    && f < |s.core.table.futures| && f < |s.core.owner| && Orphan(s'.core, f)
    && s'.core.table.futures[f] == s.core.table.futures[f] && s'.core.owner[f] == s.core.owner[f]
    && Suspended(s', s.core.owner[f]) && HoldsPing(s.core, s.core.owner[f], f) && HoldsPing(s'.core, s.core.owner[f], f)
  }

  predicate HoldsPing(c: Core, task: Task, f: nat) {
    task in c.held && c.held[task] == Held(PONG_KEY, f)
  }

  lemma StillSuspended(s: State, task: Task)
    requires WaitersHold(s) && task in s.core.held
    ensures Suspended(s, task)
  {
  }

  lemma PingEffect(cfg: Config, s: State, step: Step)
    requires Possible(s, step) && RegistersPing(s, step)
    ensures var e := EffectOf(cfg, s, step); (e.Begin? || e.BeginFails?) && e.ping
  {
  }

  lemma OverlapEffect(d: Dialect, c: Core, e: Effect, f: nat)
    requires Correlation.Inv(d, c) && Enabled(c, e) && (e.Begin? || e.BeginFails?) && e.ping
    requires PONG_KEY in c.table.pending && c.table.pending[PONG_KEY] == f
    ensures var c' := Apply(d, c, e);
            && f < |c.table.futures| && f < |c.owner| && Orphan(c', f)
            && c'.table.futures[f] == c.table.futures[f] && c'.owner[f] == c.owner[f]
            && HoldsPing(c, c.owner[f], f) && HoldsPing(c', c.owner[f], f)
  {
    if e.Begin? {
      BeginShape(d, c, e.task, true);
    } else {
      BeginFailsShape(d, c, e.task, true);
    }
    forall k | k in Apply(d, c, e).table.pending ensures Apply(d, c, e).table.pending[k] != f {
      assert k != PONG_KEY ==> c.table.futures[c.table.pending[k]].key == k;
    }
  }

  /** The earlier of two overlapping pings is an orphan for good: nothing registers it again, and only the end of its
      own task's wait can settle it. No reply and no flush reaches it. (A stop() that cancels the heartbeat ends an
      orphan which that heartbeat waits on, like any wait of its.) */
  lemma {:induction false} OrphanForever(cfg: Config, ss: seq<State>, steps: seq<Step>, i: nat, j: nat, f: nat)
    requires IsRun(cfg, ss, steps) && i <= j < |ss|
    requires Orphan(ss[i].core, f)
    requires forall k :: i <= k < j ==> !EndsWaitOf(steps[k], ss[i].core.owner[f])
    ensures OrphanKept(ss[i].core, ss[j].core, f)
    decreases j
  {
    if i < j {
      OrphanForever(cfg, ss, steps, i, j - 1, f);
      OrphanStep(cfg, ss, steps, j - 1, f);
    }
  }

  predicate Orphan(c: Core, f: nat) {
    f < |c.table.futures| && f < |c.owner| && !Registered(c.table, f)
  }

  predicate EndsWaitOf(step: Step, task: Task) {
    step.EndWait? && step.task == task
  }

  lemma OrphanStep(cfg: Config, ss: seq<State>, steps: seq<Step>, j: nat, f: nat)
    requires IsRun(cfg, ss, steps) && j < |steps|
    requires Orphan(ss[j].core, f) && !EndsWaitOf(steps[j], ss[j].core.owner[f])
    ensures OrphanKept(ss[j].core, ss[j + 1].core, f)
  {
    CoreStep(cfg, ss, steps, j);
    EffectCauses(cfg, ss[j], steps[j]);
    OrphanEffect(cfg.dialect, ss[j].core, EffectOf(cfg, ss[j], steps[j]), f);
  }

  /** Still an orphan, with the same outcome. */
  predicate OrphanKept(c: Core, c': Core, f: nat)
    requires Orphan(c, f)
  {
    && Orphan(c', f)
    && c'.table.futures[f] == c.table.futures[f] && c'.owner[f] == c.owner[f]
  }

  lemma OrphanEffect(d: Dialect, c: Core, e: Effect, f: nat)
    requires Correlation.Inv(d, c) && Enabled(c, e)
    requires Orphan(c, f) && e != Finish(c.owner[f], true)
    ensures OrphanKept(c, Apply(d, c, e), f)
  {
    OrphanLaw(d, c, e, f);
    StepIsLater(d, c, e);
  }
}
