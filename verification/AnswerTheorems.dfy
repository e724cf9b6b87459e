/** What becomes of a call over every run: how it begins, what it waits on, and what its caller gets in the end. */
module AnswerTheorems {
  import opened Wire
  import opened Dialects
  import opened Rpc
  import opened Correlation
  import opened Connections
  import opened Engine
  import opened EngineInvariants
  import opened EngineTheorems
  import opened DropTheorems

  /** Caller `n` is in `call`, which took number `id` if it is no ping. */
  predicate InCall(s: State, n: nat, call: Call, id: nat) {
    At(s, Caller(n), CallSending(call, id)) || At(s, Caller(n), CallAwaiting(call, id))
  }

  predicate Refuses(d: Dialect, call: Call) {
    d.OKX? && call.Plain? && call.verb != "subscribe" && call.verb != "unsubscribe"
  }

  // ---- what a call sends --------------------------------------------------------------------

  /** A subscribe or unsubscribe says so, names its channel, whatever the caller's parameters say of it, and carries all
      other parameters (but nulls on OKX). */
  lemma SubscribeFrames(d: Dialect, call: Call, id: nat)
    requires call.Subscribe? || call.Unsubscribe?
    ensures Framing(d, call, id).Some? && Framing(d, call, id).value.key == d.KeyFor(id)
    ensures var r := Read(d, Framing(d, call, id).value.frame);
            && r.verb == Str(if call.Subscribe? then "subscribe" else "unsubscribe")
            && "channel" in r.params && r.params["channel"] == Str(call.channel)
            && (forall k :: k in r.params && k != "channel" <==>
                  k in call.params && k != "channel" && (d.OKX? ==> call.params[k] != Null))
            && (forall k :: k in r.params && k != "channel" ==> r.params[k] == call.params[k])
  {
    var verb := if call.Subscribe? then "subscribe" else "unsubscribe";
    FrameReadsBack(d, verb, WithChannel(call.channel, call.params), id, None, false);
  }

  /** Any other Kraken request says its own name. Exactly the six order methods are tagged with their number, and they
      never go out without an idempotency key. */
  lemma RequestFrames(call: Call, id: nat)
    requires call.Plain? && call.generated != ""
    ensures Framing(Kraken, call, id).Some? && Framing(Kraken, call, id).value.key == IntKey(id)
    ensures var r := Read(Kraken, Framing(Kraken, call, id).value.frame);
            var order := call.verb in ["add_order", "amend_order", "edit_order", "cancel_order",
                                       "batch_add", "batch_cancel"];
            var own := call.idempotencyKey.Some? && call.idempotencyKey.value != "";
            && r.verb == Str(call.verb) && r.params == call.params && r.number == Int(id)
            && r.orderTag == (if order then Int(id) else Null)
            && r.idempotencyKey == if own then Str(call.idempotencyKey.value)
                                   else if order then Str(call.generated) else Null
  {
  }

  // ---- how a call begins --------------------------------------------------------------------

  /** A call that the dialect can frame registers a new future, under the reserved key if it is a ping and otherwise
      under the next number; it starts sending, or, without an open connection, fails and leaves nobody registered. */
  lemma CallBegins(cfg: Config, s: State, n: nat, call: Call)
    requires EngineInvariants.Inv(cfg, s) && Possible(s, CallBegin(n, call)) && !Refuses(cfg.dialect, call)
    ensures var s', id := Next(cfg, s, CallBegin(n, call)), if call.Ping? then 0 else s.core.table.counter + 1;
            var key := if call.Ping? then PONG_KEY else cfg.dialect.KeyFor(id);
            && s'.core.table.futures == s.core.table.futures + [Fut(key, Rpc.Pending)]
            && if s.link.IsConnected() then
                 && s'.pcs == s.pcs[Caller(n) := CallSending(call, id)]
                 && s'.core.table.pending == s.core.table.pending[key := |s.core.table.futures|]
                 && s'.core.held == s.core.held[Caller(n) := Held(key, |s.core.table.futures|)]
               else
                 && s'.pcs == s.pcs[Caller(n) := CallDone(NotConnected)]
                 && s'.core.table.pending == s.core.table.pending - {key} && s'.core.held == s.core.held
  {
    assert Caller(n) in s.core.held <==> Suspended(s, Caller(n));
    FramingRefuses(cfg.dialect, call, s.core.table.counter + 1);
    BeginsNext(cfg, s, n, call);
  }

  lemma BeginsNext(cfg: Config, s: State, n: nat, call: Call)
    requires Correlation.Inv(cfg.dialect, s.core) && Caller(n) !in s.core.held
    requires !call.Ping? ==> Framing(cfg.dialect, call, s.core.table.counter + 1).Some?
    ensures var s', id := CallNext(cfg, s, n, call), if call.Ping? then 0 else s.core.table.counter + 1;
            var key := if call.Ping? then PONG_KEY else cfg.dialect.KeyFor(id);
            && s'.core.table.futures == s.core.table.futures + [Fut(key, Rpc.Pending)]
            && if s.link.IsConnected() then
                 && s'.pcs == s.pcs[Caller(n) := CallSending(call, id)]
                 && s'.core.table.pending == s.core.table.pending[key := |s.core.table.futures|]
                 && s'.core.held == s.core.held[Caller(n) := Held(key, |s.core.table.futures|)]
               else
                 && s'.pcs == s.pcs[Caller(n) := CallDone(NotConnected)]
                 && s'.core.table.pending == s.core.table.pending - {key} && s'.core.held == s.core.held
  {
    if s.link.IsConnected() {
      BeginShape(cfg.dialect, s.core, Caller(n), call.Ping?);
    } else {
      BeginFailsShape(cfg.dialect, s.core, Caller(n), call.Ping?);
    }
  }

  // ---- how it ends --------------------------------------------------------------------------

  /** What the caller gets when its wait ends. A rejection is looked for in the answer to a request, not in a pong. */
  predicate Gets(d: Dialect, call: Call, how: How, outcome: Outcome, result: CallResult) {
    && (how.SendFails? ==> result == NotSent)
    && (how.TimesOut? ==> result == NoAnswer)
    && (how.TaskCancelled? ==> result == CallCancelled)
    && (how.Woken? && outcome.Result? && (call.Ping? || !d.Rejects(outcome.msg)) ==> result == Returned(outcome.msg))
    && (how.Woken? && outcome.Result? && !call.Ping? && d.Rejects(outcome.msg) ==> result == Rejected(outcome.msg))
    && (how.Woken? && outcome.Failed? ==> result == Dropped(outcome.error))
    && (how.Woken? && outcome.Cancelled? ==> result == CallCancelled)
  }

  /** A caller that is woken gets what its own future holds: the answer, as a rejection if the dialect says so, or the
      error of the drop. One that is not woken gets no answer. */
  lemma WaitEndsCall(cfg: Config, s: State, n: nat, how: How, call: Call, id: nat)
    requires Possible(s, EndWait(Caller(n), how)) && InCall(s, n, call, id)
    ensures var pcs := Next(cfg, s, EndWait(Caller(n), how)).pcs;
            && pcs - {Caller(n)} == s.pcs - {Caller(n)} && Caller(n) in pcs && pcs[Caller(n)].CallDone?
            && Gets(cfg.dialect, call, how, OutcomeAt(s.core.table, s.core.held[Caller(n)].fut), pcs[Caller(n)].result)
  {
  }

  /** What any task leaves behind when its wait ends: it holds nothing any more; its own registration is gone, if it was
      still there, and no other; and its own future is cancelled if it was still pending and the wait timed out or was
      cancelled, while no other future changes. */
  lemma WaitLeaves(cfg: Config, s: State, t: Task, how: How, f: nat)
    requires EngineInvariants.Inv(cfg, s) && Possible(s, EndWait(t, how)) && f < |s.core.table.futures|
    ensures var c, c', h := s.core, Next(cfg, s, EndWait(t, how)).core, s.core.held[t];
            && c'.held == c.held - {t} && |c'.table.futures| == |c.table.futures|
            && c'.table.pending == (if h.key in c.table.pending && c.table.pending[h.key] == h.fut
                                    then c.table.pending - {h.key} else c.table.pending)
            && c'.table.futures[f].key == c.table.futures[f].key
            && c'.table.futures[f].outcome
               == if f == h.fut && c.table.futures[f].outcome.Pending? && !Sending(s.pcs[t])
                     && (how.TimesOut? || how.TaskCancelled?)
                  then Cancelled else c.table.futures[f].outcome
  {
    WaitCore(cfg, s, t, how);
    CoreReleased(cfg.dialect, s.core, t, !Sending(s.pcs[t]) && (how.TimesOut? || how.TaskCancelled?), f);
  }

  lemma CoreReleased(d: Dialect, c: Core, t: Task, cancel: bool, f: nat)
    requires Correlation.Inv(d, c) && t in c.held && f < |c.table.futures|
    ensures var c', h := DoFinish(c, t, cancel), c.held[t];
            && c'.held == c.held - {t} && |c'.table.futures| == |c.table.futures|
            && c'.table.pending == (if h.key in c.table.pending && c.table.pending[h.key] == h.fut
                                    then c.table.pending - {h.key} else c.table.pending)
            && c'.table.futures[f].key == c.table.futures[f].key
            && c'.table.futures[f].outcome
               == if f == h.fut && c.table.futures[f].outcome.Pending? && cancel
                  then Cancelled else c.table.futures[f].outcome
  {
    FinishShape(d, c, t, cancel);
  }

  /** In every reachable state these are exactly the steps of caller `n`: it begins once; while it sends it can succeed,
      fail or be cancelled; while it waits it can time out or be cancelled at any time, and be woken when its future is
      done. */
  predicate CallerMay(s: State, n: nat, step: Step) {
    match step
    case CallBegin(_, _) => Caller(n) !in s.pcs
    case Sent(_) => Caller(n) in s.pcs && s.pcs[Caller(n)].CallSending?
    case EndWait(_, how) =>
      Caller(n) in s.pcs
      && (match how
          case SendFails => s.pcs[Caller(n)].CallSending?
          case TimesOut => s.pcs[Caller(n)].CallAwaiting?
          case Woken => s.pcs[Caller(n)].CallAwaiting? && Caller(n) in s.core.held
                        && SettledIn(s.core, s.core.held[Caller(n)].fut)
          case TaskCancelled => s.pcs[Caller(n)].CallSending? || s.pcs[Caller(n)].CallAwaiting?)
    case _ => false
  }

  predicate StepOfCaller(step: Step, n: nat) {
    (step.CallBegin? && step.n == n) || ((step.Sent? || step.EndWait?) && step.task == Caller(n))
  }

  lemma CallerDeparts(s: State, n: nat, step: Step)
    requires Kinds(s) && WaitersHold(s) && StepOfCaller(step, n)
    ensures Possible(s, step) <==> CallerMay(s, n, step)
  {
    assert Caller(n) in s.core.held <==> Suspended(s, Caller(n));
    assert Caller(n) in s.pcs ==> FitsTask(Caller(n), s.pcs[Caller(n)]);
  }

  // ---- in between ---------------------------------------------------------------------------

  /** Caller `n` is in the same call and waits on the same future. */
  predicate SameWait(s: State, s': State, n: nat, call: Call, id: nat) {
    InCall(s', n, call, id) && Caller(n) in s.core.held && Caller(n) in s'.core.held
    && s'.core.held[Caller(n)] == s.core.held[Caller(n)]
  }

  lemma StillInCall(cfg: Config, s: State, step: Step, n: nat, call: Call, id: nat)
    requires Kinds(s) && Attempts(s) && Possible(s, step)
    requires !EndsWaitOf(step, Caller(n)) && InCall(s, n, call, id)
    ensures InCall(Next(cfg, s, step), n, call, id)
  {
    if step == Sent(Caller(n)) {
      SentCall(cfg, s, n, call, id);
    } else {
      OthersLeaveCaller(cfg, s, step, n);
    }
  }

  /** Once sent, the call waits for its answer. */
  lemma SentCall(cfg: Config, s: State, n: nat, call: Call, id: nat)
    requires Possible(s, Sent(Caller(n))) && InCall(s, n, call, id)
    ensures Next(cfg, s, Sent(Caller(n))) == s.(pcs := s.pcs[Caller(n) := CallAwaiting(call, id)])
  {
  }

  /** Nobody else moves a caller. */
  lemma OthersLeaveCaller(cfg: Config, s: State, step: Step, n: nat)
    requires Kinds(s) && Attempts(s) && Possible(s, step)
    requires !EndsWaitOf(step, Caller(n)) && step != Sent(Caller(n)) && (step.CallBegin? ==> step.n != n)
    ensures PcOf(Next(cfg, s, step), Caller(n)) == PcOf(s, Caller(n))
  {
    if OfSupervisor(step) {
      SupervisorMoves(cfg, s, s.pcs[Supervisor], step);
    } else if OfHeartbeat(step) {
      HeartbeatMoves(cfg, s, step.n, s.pcs[Heartbeat(step.n)], step);
    } else if step.EndWait? {
      WaitMoves(cfg, s, step.task, step.how);
    }
  }

  lemma StillHolds(d: Dialect, c: Core, e: Effect, t: Task)
    requires Enabled(c, e) && t in c.held && !(e.Finish? && e.task == t)
    ensures t in Apply(d, c, e).held && Apply(d, c, e).held[t] == c.held[t]
  {
    HeldSlots(d, c, e);
    HeldAfter(d, c, e);
  }

  lemma StepInCall(cfg: Config, ss: seq<State>, steps: seq<Step>, i: nat, n: nat, call: Call, id: nat)
    requires IsRun(cfg, ss, steps) && i < |steps| && InCall(ss[i], n, call, id) && !EndsWaitOf(steps[i], Caller(n))
    ensures SameWait(ss[i], ss[i + 1], n, call, id)
  {
    CoreStep(cfg, ss, steps, i);
    StillInCall(cfg, ss[i], steps[i], n, call, id);
    EffectCauses(cfg, ss[i], steps[i]);
    assert Caller(n) in ss[i].core.held <==> Suspended(ss[i], Caller(n));
    StillHolds(cfg.dialect, ss[i].core, EffectOf(cfg, ss[i], steps[i]), Caller(n));
  }

  lemma CallerHolds(cfg: Config, ss: seq<State>, steps: seq<Step>, i: nat, n: nat, call: Call, id: nat)
    requires IsRun(cfg, ss, steps) && i < |ss| && InCall(ss[i], n, call, id)
    ensures SameWait(ss[i], ss[i], n, call, id)
  {
    Reachable(cfg, ss, steps, i);
    assert Caller(n) in ss[i].core.held <==> Suspended(ss[i], Caller(n));
  }

  lemma {:induction false} StaysInCall(cfg: Config, ss: seq<State>, steps: seq<Step>, i: nat, j: nat,
                                       n: nat, call: Call, id: nat)
    requires IsRun(cfg, ss, steps) && i <= j < |ss| && InCall(ss[i], n, call, id)
    requires forall m :: i <= m < j ==> !EndsWaitOf(steps[m], Caller(n))
    ensures SameWait(ss[i], ss[j], n, call, id)
    decreases j
  {
    if i < j {
      StaysInCall(cfg, ss, steps, i, j - 1, n, call, id);
      StepInCall(cfg, ss, steps, j - 1, n, call, id);
    } else {
      CallerHolds(cfg, ss, steps, i, n, call, id);
    }
  }

  // ---- from the settling step to the caller -------------------------------------------------

  /** Caller `n` waits in this call on future `f`. */
  predicate WaitsOn(s: State, n: nat, call: Call, id: nat, f: nat) {
    InCall(s, n, call, id) && Caller(n) in s.core.held && s.core.held[Caller(n)].fut == f
  }

  /** Caller `n` waits undisturbed from `i` to `j` and is then woken. */
  predicate WakesAt(cfg: Config, ss: seq<State>, steps: seq<Step>, i: nat, j: nat, n: nat) {
    && i <= j && Takes(cfg, ss, steps, j) && steps[j] == EndWait(Caller(n), Woken)
    && forall m :: i <= m < j && m < |steps| ==> !EndsWaitOf(steps[m], Caller(n))
  }

  /** Whatever happens in between, the caller of a call whose future is done gets what that future held then; and it can
      be woken at once if it has sent its frame. */
  lemma SettledCall(cfg: Config, ss: seq<State>, steps: seq<Step>, i: nat, j: nat, n: nat, call: Call, id: nat, f: nat)
    requires IsRun(cfg, ss, steps) && i < |ss| && WakesAt(cfg, ss, steps, i, j, n)
    requires WaitsOn(ss[i], n, call, id, f) && SettledIn(ss[i].core, f)
    ensures Caller(n) in ss[j + 1].pcs && ss[j + 1].pcs[Caller(n)].CallDone?
    ensures Gets(cfg.dialect, call, Woken, ss[i].core.table.futures[f].outcome, ss[j + 1].pcs[Caller(n)].result)
  {
    StaysInCall(cfg, ss, steps, i, j, n, call, id);
    SettledOnce(cfg, ss, steps, i, j, f);
    WaitEndsCall(cfg, ss[j], n, Woken, call, id);
  }

  lemma CanBeWoken(s: State, n: nat, call: Call, id: nat, f: nat)
    requires WaitsOn(s, n, call, id, f) && At(s, Caller(n), CallAwaiting(call, id))
    ensures Possible(s, EndWait(Caller(n), Woken)) <==> SettledIn(s.core, f)
  {
  }

  /** A caller's future that is pending is registered, unless it is that of a ping which a newer one has replaced. */
  lemma PendingIsRegistered(cfg: Config, s: State, n: nat, call: Call, id: nat, f: nat)
    requires EngineInvariants.Inv(cfg, s) && WaitsOn(s, n, call, id, f)
    ensures f < |s.core.table.futures|
    ensures !call.Ping? ==> s.core.held[Caller(n)].key == cfg.dialect.KeyFor(id)
    ensures !call.Ping? && s.core.table.futures[f].outcome.Pending? ==>
              cfg.dialect.KeyFor(id) in s.core.table.pending && s.core.table.pending[cfg.dialect.KeyFor(id)] == f
  {
    assert SlotFits(cfg.dialect, s.core.table.counter, s.pcs[Caller(n)], s.core.held[Caller(n)]);
    KeysAreFresh(cfg.dialect, id);
  }

  /** A request in flight when its connection drops ends in that drop's ConnectionError, once its caller is woken. */
  lemma DroppedRequest(cfg: Config, ss: seq<State>, steps: seq<Step>, i: nat, j: nat,
                       n: nat, call: Call, id: nat, f: nat)
    requires IsRun(cfg, ss, steps) && Takes(cfg, ss, steps, i) && Drops(cfg, ss[i], steps[i])
    requires WaitsOn(ss[i], n, call, id, f) && !call.Ping? && !SettledIn(ss[i].core, f)
    requires i < j && WakesAt(cfg, ss, steps, i + 1, j, n)
    ensures ss[j + 1].pcs[Caller(n)] == CallDone(Dropped(DropError(steps[i])))
  {
    DropSettles(cfg, ss, steps, i, n, call, id, f);
    SettledCall(cfg, ss, steps, i + 1, j, n, call, id, f);
  }

  lemma DropSettles(cfg: Config, ss: seq<State>, steps: seq<Step>, i: nat, n: nat, call: Call, id: nat, f: nat)
    requires IsRun(cfg, ss, steps) && Takes(cfg, ss, steps, i) && Drops(cfg, ss[i], steps[i])
    requires WaitsOn(ss[i], n, call, id, f) && !call.Ping? && !SettledIn(ss[i].core, f)
    ensures WaitsOn(ss[i + 1], n, call, id, f) && SettledIn(ss[i + 1].core, f)
    ensures ss[i + 1].core.table.futures[f].outcome == Failed(DropError(steps[i]))
  {
    Reachable(cfg, ss, steps, i);
    PendingIsRegistered(cfg, ss[i], n, call, id, f);
    StepInCall(cfg, ss, steps, i, n, call, id);
    DropLaw(cfg, ss[i], steps[i], f);
  }

  /** The frame, read literally, is an answer to request `id`: no pong, and with this request's key in the dialect's
      correlation field. */
  predicate AnswersRequest(d: Dialect, msg: Frame, id: nat) {
    Get(msg, "event") != Str("pong") && d.ResponseKey(msg) == Keyed(d.KeyFor(id))
  }

  /** A request whose answer is dispatched while it waits returns this answer, once its caller is woken; or raises, if
      the dialect calls it a rejection. */
  lemma AnsweredRequest(cfg: Config, ss: seq<State>, steps: seq<Step>, i: nat, j: nat,
                        n: nat, call: Call, id: nat, f: nat)
    requires IsRun(cfg, ss, steps) && Takes(cfg, ss, steps, i) && steps[i] == HookReturns
    requires WaitsOn(ss[i], n, call, id, f) && !call.Ping? && !SettledIn(ss[i].core, f)
    requires AnswersRequest(cfg.dialect, ss[i].pcs[Supervisor].msg, id)
    requires i < j && WakesAt(cfg, ss, steps, i + 1, j, n)
    ensures var msg := ss[i].pcs[Supervisor].msg;
            ss[j + 1].pcs[Caller(n)] == CallDone(if cfg.dialect.Rejects(msg) then Rejected(msg) else Returned(msg))
  {
    AnswerArrives(cfg, ss, steps, i, n, call, id, f);
    SettledCall(cfg, ss, steps, i + 1, j, n, call, id, f);
  }

  lemma AnswerArrives(cfg: Config, ss: seq<State>, steps: seq<Step>, i: nat, n: nat, call: Call, id: nat, f: nat)
    requires IsRun(cfg, ss, steps) && Takes(cfg, ss, steps, i) && steps[i] == HookReturns
    requires WaitsOn(ss[i], n, call, id, f) && !call.Ping? && !SettledIn(ss[i].core, f)
    requires AnswersRequest(cfg.dialect, ss[i].pcs[Supervisor].msg, id)
    ensures WaitsOn(ss[i + 1], n, call, id, f) && SettledIn(ss[i + 1].core, f)
    ensures ss[i + 1].core.table.futures[f].outcome == Result(ss[i].pcs[Supervisor].msg)
  {
    StepInCall(cfg, ss, steps, i, n, call, id);
    InFlight(cfg, ss, steps, i, n, call, id, f);
    KeysAreFresh(cfg.dialect, id);
    FrameSettles(cfg, ss, steps, i, cfg.dialect.KeyFor(id));
  }

  lemma InFlight(cfg: Config, ss: seq<State>, steps: seq<Step>, i: nat, n: nat, call: Call, id: nat, f: nat)
    requires IsRun(cfg, ss, steps) && i < |ss| && WaitsOn(ss[i], n, call, id, f)
    requires !call.Ping? && !SettledIn(ss[i].core, f)
    ensures HoldsSlot(ss[i], cfg.dialect.KeyFor(id), f)
  {
    Reachable(cfg, ss, steps, i);
    PendingIsRegistered(cfg, ss[i], n, call, id, f);
  }

  /** Future `f` is pending, and registered under `key`. */
  predicate HoldsSlot(s: State, key: Key, f: nat) {
    && key in s.core.table.pending && s.core.table.pending[key] == f
    && f < |s.core.table.futures| && s.core.table.futures[f].outcome.Pending?
  }

  lemma FrameSettles(cfg: Config, ss: seq<State>, steps: seq<Step>, i: nat, key: Key)
    requires IsRun(cfg, ss, steps) && Takes(cfg, ss, steps, i) && steps[i] == HookReturns
    requires key in ss[i].core.table.pending && HoldsSlot(ss[i], key, ss[i].core.table.pending[key])
    requires Answers(cfg.dialect, key, ss[i].pcs[Supervisor].msg)
    ensures var f := ss[i].core.table.pending[key];
            SettledIn(ss[i + 1].core, f)
            && ss[i + 1].core.table.futures[f].outcome == Result(ss[i].pcs[Supervisor].msg)
  {
    Reachable(cfg, ss, steps, i);
    HookAnswers(cfg, ss[i], key);
  }

  /** A ping is answered by a frame with the event "pong" while it holds the slot, and returns whatever that says. */
  lemma AnsweredPing(cfg: Config, ss: seq<State>, steps: seq<Step>, i: nat, j: nat, n: nat, id: nat, f: nat)
    requires IsRun(cfg, ss, steps) && Takes(cfg, ss, steps, i) && steps[i] == HookReturns
    requires WaitsOn(ss[i], n, Ping, id, f)
    requires HoldsSlot(ss[i], PONG_KEY, f) && Get(ss[i].pcs[Supervisor].msg, "event") == Str("pong")
    requires i < j && WakesAt(cfg, ss, steps, i + 1, j, n)
    ensures ss[j + 1].pcs[Caller(n)] == CallDone(Returned(ss[i].pcs[Supervisor].msg))
  {
    PongArrives(cfg, ss, steps, i, n, id, f);
    SettledCall(cfg, ss, steps, i + 1, j, n, Ping, id, f);
  }

  lemma PongArrives(cfg: Config, ss: seq<State>, steps: seq<Step>, i: nat, n: nat, id: nat, f: nat)
    requires IsRun(cfg, ss, steps) && Takes(cfg, ss, steps, i) && steps[i] == HookReturns
    requires WaitsOn(ss[i], n, Ping, id, f) && HoldsSlot(ss[i], PONG_KEY, f)
    requires Get(ss[i].pcs[Supervisor].msg, "event") == Str("pong")
    ensures WaitsOn(ss[i + 1], n, Ping, id, f) && SettledIn(ss[i + 1].core, f)
    ensures ss[i + 1].core.table.futures[f].outcome == Result(ss[i].pcs[Supervisor].msg)
  {
    StepInCall(cfg, ss, steps, i, n, Ping, id);
    FrameSettles(cfg, ss, steps, i, PONG_KEY);
  }

  lemma HookAnswers(cfg: Config, s: State, key: Key)
    requires Correlation.Inv(cfg.dialect, s.core) && Possible(s, HookReturns)
    requires key in s.core.table.pending && s.core.table.futures[s.core.table.pending[key]].outcome.Pending?
    requires Answers(cfg.dialect, key, s.pcs[Supervisor].msg)
    ensures OutcomeAt(Next(cfg, s, HookReturns).core.table, s.core.table.pending[key]) == Result(s.pcs[Supervisor].msg)
  {
    var msg := s.pcs[Supervisor].msg;
    NextCore(cfg, s, HookReturns);
    AnswersSettle(cfg.dialect, s.core, key, msg);
    RoutingLaw(s.core.table, msg, cfg.dialect.ResponseKey(msg));
  }
}
