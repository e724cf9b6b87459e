/** What holds over every run of the heartbeats: which connection they may close, and when. */
module HeartbeatTheorems {
  import opened Wire
  import opened Dialects
  import opened Rpc
  import opened Correlation
  import opened Connections
  import opened Engine
  import opened EngineInvariants
  import opened EngineTheorems

  /** The program points between a heartbeat's ping and the end of its reaction to it. */
  predicate Pinged(pc: Pc) {
    pc.BeatSending? || pc.BeatAwaiting? || pc.BeatClosing?
  }

  function PingedOn(pc: Pc): nat
    requires Pinged(pc)
  {
    if pc.BeatClosing? then pc.target else pc.sentOn
  }

  /** The steps that heartbeat `n` itself takes. */
  predicate TakenBy(step: Step, n: nat) {
    (OfHeartbeat(step) && step.n == n) || (step.Sent? && step.task == Heartbeat(n))
    || (step.EndWait? && step.task == Heartbeat(n))
  }

  /** Heartbeat `n` is where it was, or has just been created. */
  predicate LeftAlone(s: State, s': State, n: nat) {
    PcOf(s', Heartbeat(n)) == PcOf(s, Heartbeat(n)) || PcOf(s', Heartbeat(n)) == Some(BeatTop)
  }

  lemma MoverLeaves(d: Dialect, s: State, s': State, e: Effect, t: Task, n: nat)
    requires Moves(d, s, s', e, t) && t != Heartbeat(n)
    ensures LeftAlone(s, s', n)
  {
  }

  lemma TasksLeave(cfg: Config, s: State, step: Step, n: nat)
    requires EngineInvariants.Inv(cfg, s) && Possible(s, step) && !TakenBy(step, n)
    requires OfSupervisor(step) || OfHeartbeat(step)
    ensures LeftAlone(s, Next(cfg, s, step), n)
  {
    if OfSupervisor(step) {
      SupervisorMoves(cfg, s, s.pcs[Supervisor], step);
      MoverLeaves(cfg.dialect, s, Next(cfg, s, step), EffectOf(cfg, s, step), Supervisor, n);
    } else {
      HeartbeatMoves(cfg, s, step.n, s.pcs[Heartbeat(step.n)], step);
      MoverLeaves(cfg.dialect, s, Next(cfg, s, step), EffectOf(cfg, s, step), Heartbeat(step.n), n);
    }
  }

  lemma LifecycleLeaves(cfg: Config, s: State, step: Step, n: nat)
    requires Possible(s, step) && OfLifecycle(step)
    ensures LeftAlone(s, Next(cfg, s, step), n)
  {
  }

  /** Nobody else moves a heartbeat; start() creates new ones. */
  lemma OthersLeave(cfg: Config, s: State, step: Step, n: nat)
    requires EngineInvariants.Inv(cfg, s) && Possible(s, step) && !TakenBy(step, n)
    ensures LeftAlone(s, Next(cfg, s, step), n)
  {
    if OfSupervisor(step) || OfHeartbeat(step) {
      TasksLeave(cfg, s, step, n);
    } else if OfLifecycle(step) {
      LifecycleLeaves(cfg, s, step, n);
    } else if step.EndWait? {
      WaitMoves(cfg, s, step.task, step.how);
    }
  }

  /** What ending its wait does to a heartbeat: it starts to close only on a timeout, and then only the connection
      that the ping was sent on, while that is current and open. */
  predicate ClosesRightly(link: Link, pc: Pc, how: How, pc': Pc) {
    Pinged(pc') ==>
      && pc'.BeatClosing? && how == TimesOut && (pc.BeatSending? || pc.BeatAwaiting?)
      && pc'.target == pc.sentOn && pc'.born == pc.born && link.conn == Some(pc.sentOn) && link.IsConnected()
  }

  lemma BeatWaitCloses(d: Dialect, link: Link, n: nat, pc: Pc, how: How, outcome: Outcome, made: nat)
    requires FitsTask(Heartbeat(n), pc) && Waiting(pc) && BeatFits(pc, made)
    ensures ClosesRightly(link, pc, how, WaitPc(d, link, pc, how, outcome))
  {
  }

  lemma WaitCloses(cfg: Config, s: State, n: nat, how: How)
    requires EngineInvariants.Inv(cfg, s) && Possible(s, EndWait(Heartbeat(n), how))
    ensures var s' := Next(cfg, s, EndWait(Heartbeat(n), how));
            Heartbeat(n) in s'.pcs && ClosesRightly(s.link, s.pcs[Heartbeat(n)], how, s'.pcs[Heartbeat(n)])
  {
    var t := Heartbeat(n);
    BeatWaitCloses(cfg.dialect, s.link, n, s.pcs[t], how, OutcomeAt(s.core.table, s.core.held[t].fut), |s.link.conns|);
  }

  /** The step in which heartbeat `n` decides to close. */
  predicate Decides(s: State, step: Step, n: nat, target: nat, born: nat) {
    && step == EndWait(Heartbeat(n), TimesOut) && Heartbeat(n) in s.pcs && s.pcs[Heartbeat(n)].BeatAwaiting?
    && s.pcs[Heartbeat(n)].sentOn == target && s.pcs[Heartbeat(n)].born == born
    && s.link.conn == Some(target) && s.link.IsConnected()
  }

  lemma OwnPcPings(s: State, n: nat, pc: Pc, step: Step)
    requires HeartbeatMay(s, n, pc, step)
    ensures Pinged(HeartbeatPc(s, n, pc, step)) ==> step.BeatWakes? && HeartbeatPc(s, n, pc, step).BeatSending?
  {
  }

  lemma OwnStepPings(cfg: Config, s: State, step: Step, n: nat)
    requires Possible(s, step) && OfHeartbeat(step) && step.n == n
    ensures var pcs := Next(cfg, s, step).pcs;
            && Heartbeat(n) in pcs
            && (Pinged(pcs[Heartbeat(n)]) ==> step == BeatWakes(n) && pcs[Heartbeat(n)].BeatSending?)
  {
    OwnPcPings(s, n, s.pcs[Heartbeat(n)], step);
  }

  lemma CloseLink(cfg: Config, s: State, n: nat)
    requires Possible(s, BeatCloseDone(n))
    ensures Next(cfg, s, BeatCloseDone(n)).link == s.link.WithOpen(s.pcs[Heartbeat(n)].target, false)
  {
  }

  /** After a step that is not a new ping, a heartbeat that is on a ping was on the same one before. If it is closing
      and was not, this step has decided so. */
  predicate OnSamePing(s: State, step: Step, s': State, n: nat) {
    var pc, pc' := PcOf(s, Heartbeat(n)), PcOf(s', Heartbeat(n));
    pc'.Some? && Pinged(pc'.value) ==>
      && pc.Some? && Pinged(pc.value) && pc'.value.born == pc.value.born && PingedOn(pc'.value) == PingedOn(pc.value)
      && (pc'.value.BeatClosing? ==>
            pc.value.BeatClosing? || Decides(s, step, n, pc'.value.target, pc'.value.born))
  }

  lemma LeftOnPing(s: State, step: Step, s': State, n: nat)
    requires LeftAlone(s, s', n)
    ensures OnSamePing(s, step, s', n)
  {
  }

  lemma OwnCarries(cfg: Config, s: State, step: Step, n: nat)
    requires Possible(s, step) && OfHeartbeat(step) && step.n == n && step != BeatWakes(n)
    ensures OnSamePing(s, step, Next(cfg, s, step), n)
  {
    OwnStepPings(cfg, s, step, n);
  }

  lemma SentCarries(cfg: Config, s: State, n: nat)
    requires Possible(s, Sent(Heartbeat(n))) && FitsTask(Heartbeat(n), s.pcs[Heartbeat(n)])
    ensures OnSamePing(s, Sent(Heartbeat(n)), Next(cfg, s, Sent(Heartbeat(n))), n)
  {
  }

  lemma WaitCarries(cfg: Config, s: State, n: nat, how: How)
    requires EngineInvariants.Inv(cfg, s) && Possible(s, EndWait(Heartbeat(n), how))
    ensures OnSamePing(s, EndWait(Heartbeat(n), how), Next(cfg, s, EndWait(Heartbeat(n), how)), n)
  {
    WaitCloses(cfg, s, n, how);
  }

  /** Every step but a new ping leaves a heartbeat on the ping it is on. It decides to close only when that ping has
      timed out, and then only the connection that the ping was sent on, while that is current and open. */
  lemma HeartbeatDecides(cfg: Config, s: State, step: Step, n: nat)
    requires EngineInvariants.Inv(cfg, s) && Possible(s, step) && step != BeatWakes(n)
    ensures OnSamePing(s, step, Next(cfg, s, step), n)
  {
    if !TakenBy(step, n) {
      OthersLeave(cfg, s, step, n);
      LeftOnPing(s, step, Next(cfg, s, step), n);
    } else if OfHeartbeat(step) {
      OwnCarries(cfg, s, step, n);
    } else if step.EndWait? {
      WaitCarries(cfg, s, n, step.how);
    } else {
      SentCarries(cfg, s, n);
    }
  }

  /** What holds when heartbeat `n` sends its ping: the connection it goes out on is current and open, and `born`
      connections have been made. */
  predicate Pings(s: State, step: Step, n: nat, on: nat, born: nat) {
    step == BeatWakes(n) && s.link.conn == Some(on) && s.link.IsConnected() && born == |s.link.conns|
  }

  lemma WakeSends(cfg: Config, s: State, n: nat)
    requires Possible(s, BeatWakes(n))
    ensures var pcs := Next(cfg, s, BeatWakes(n)).pcs;
            && Heartbeat(n) in pcs
            && (Pinged(pcs[Heartbeat(n)]) ==>
                  Pings(s, BeatWakes(n), n, PingedOn(pcs[Heartbeat(n)]), pcs[Heartbeat(n)].born))
  {
  }

  /** The ping behind a heartbeat's program counter. */
  lemma {:induction false} PingBehind(cfg: Config, ss: seq<State>, steps: seq<Step>, i: nat, n: nat) returns (w: nat)
    requires IsRun(cfg, ss, steps) && i < |ss| && Heartbeat(n) in ss[i].pcs
    requires Pinged(ss[i].pcs[Heartbeat(n)])
    ensures var pc := ss[i].pcs[Heartbeat(n)];
            w < i && Pings(ss[w], steps[w], n, PingedOn(pc), pc.born)
  {
    w := i - 1;
    Reachable(cfg, ss, steps, w);
    assert Takes(cfg, ss, steps, w);
    if steps[w] == BeatWakes(n) {
      WakeSends(cfg, ss[w], n);
    } else {
      HeartbeatDecides(cfg, ss[w], steps[w], n);
      w := PingBehind(cfg, ss, steps, w, n);
    }
  }

  lemma ClosingBehind(cfg: Config, s: State, step: Step, n: nat)
    requires EngineInvariants.Inv(cfg, s) && Possible(s, step)
    ensures var pc, pc' := PcOf(s, Heartbeat(n)), PcOf(Next(cfg, s, step), Heartbeat(n));
            pc'.Some? && pc'.value.BeatClosing? ==>
              pc == pc' || Decides(s, step, n, pc'.value.target, pc'.value.born)
  {
    if step == BeatWakes(n) {
      OwnStepPings(cfg, s, step, n);
    } else {
      HeartbeatDecides(cfg, s, step, n);
    }
  }

  /** The decision behind a close that is under way. */
  lemma {:induction false} DecisionBehind(cfg: Config, ss: seq<State>, steps: seq<Step>, i: nat, n: nat)
    returns (x: nat)
    requires IsRun(cfg, ss, steps) && i < |ss|
    requires Heartbeat(n) in ss[i].pcs && ss[i].pcs[Heartbeat(n)].BeatClosing?
    ensures var pc := ss[i].pcs[Heartbeat(n)];
            x < i && Decides(ss[x], steps[x], n, pc.target, pc.born)
  {
    x := i - 1;
    Reachable(cfg, ss, steps, x);
    assert Takes(cfg, ss, steps, x);
    ClosingBehind(cfg, ss[x], steps[x], n);
    var pc := ss[i].pcs[Heartbeat(n)];
    if !Decides(ss[x], steps[x], n, pc.target, pc.born) {
      x := DecisionBehind(cfg, ss, steps, x, n);
    }
  }

  /** Heartbeat epoch safety over a run. Behind every completed close there is, first, a ping that the same heartbeat
      sent on that very connection while it was current (step `w`), and then, when that ping timed out, a decision
      taken while the connection was still current and open (step `x`). The close leaves alone every connection made
      since the ping. */
  lemma HeartbeatEpochSafety(cfg: Config, ss: seq<State>, steps: seq<Step>, i: nat, n: nat) returns (w: nat, x: nat)
    requires IsRun(cfg, ss, steps) && i < |steps| && steps[i] == BeatCloseDone(n)
    ensures Heartbeat(n) in ss[i].pcs && ss[i].pcs[Heartbeat(n)].BeatClosing?
    ensures var pc := ss[i].pcs[Heartbeat(n)];
            && w < x < i && Pings(ss[w], steps[w], n, pc.target, pc.born)
            && Decides(ss[x], steps[x], n, pc.target, pc.born)
    ensures LeavesSince(ss[i].link, ss[i + 1].link, |ss[w].link.conns|)
  {
    Reachable(cfg, ss, steps, i);
    assert Takes(cfg, ss, steps, i);
    x := DecisionBehind(cfg, ss, steps, i, n);
    w := PingBehind(cfg, ss, steps, x, n);
    HeartbeatCloses(cfg, ss[i], n);
  }

  /** No connection numbered `born` or higher has changed. */
  predicate LeavesSince(l: Link, l': Link, born: nat) {
    |l'.conns| == |l.conns| && forall c :: born <= c < |l.conns| ==> l'.conns[c] == l.conns[c]
  }

  /** What a heartbeat closes was made before its ping; so a connection made after the ping is never closed by it. Which
      connection is current does not change. */
  lemma HeartbeatCloses(cfg: Config, s: State, n: nat)
    requires EngineInvariants.Inv(cfg, s) && Possible(s, BeatCloseDone(n))
    ensures ClosesOnly(s.link, Next(cfg, s, BeatCloseDone(n)).link,
                       s.pcs[Heartbeat(n)].target, s.pcs[Heartbeat(n)].born)
  {
    CloseLink(cfg, s, n);
    assert BeatFits(s.pcs[Heartbeat(n)], |s.link.conns|);
    OneCloses(s.link, s.pcs[Heartbeat(n)].target, s.pcs[Heartbeat(n)].born);
  }

  lemma OneCloses(l: Link, target: nat, born: nat)
    requires target < born <= |l.conns|
    ensures ClosesOnly(l, l.WithOpen(target, false), target, born)
  {
  }

  predicate ClosesOnly(l: Link, l': Link, target: nat, born: nat) {
    && LeavesSince(l, l', born) && l'.conn == l.conn && target < |l'.conns| && !l'.conns[target].open
    && forall c :: 0 <= c < |l.conns| && c != target ==> l'.conns[c] == l.conns[c]
  }

  // ---- what a heartbeat does next -----------------------------------------------------------

  /** What heartbeat `n` may do at each of its suspension points when nobody stops it. */
  predicate Departs(s: State, n: nat, pc: Pc, next: Step) {
    match pc
    case BeatTop => next == BeatEnters(n)
    case BeatAsleep => next == BeatWakes(n)
    case BeatSending(_, _, _) => next == Sent(Heartbeat(n)) || next == EndWait(Heartbeat(n), SendFails)
    case BeatAwaiting(_, _, _) =>
      || next == EndWait(Heartbeat(n), TimesOut)
      || (next == EndWait(Heartbeat(n), Woken)
          && Heartbeat(n) in s.core.held && SettledIn(s.core, s.core.held[Heartbeat(n)].fut))
    case BeatRetry => next == BeatRetryEnds(n)
    case BeatClosing(_, _) => next == BeatCloseDone(n)
    case _ => false
  }

  /** The stop() that is under way cancels the last heartbeat it knows, wherever that is. */
  predicate Cancels(s: State, n: nat, next: Step) {
    && s.stopping.JoinHeartbeat? && n + 1 == s.stopping.known && !Finished(s, Heartbeat(n))
    && next == if Waiting(s.pcs[Heartbeat(n)]) then EndWait(Heartbeat(n), TaskCancelled) else BeatCancelled(n)
  }

  /** In every reachable state these are exactly the steps a heartbeat can take: it is never stuck. */
  lemma DepartureLaw(s: State, n: nat, next: Step)
    requires Kinds(s) && WaitersHold(s) && TakenBy(next, n)
    ensures Possible(s, next)
            <==> Heartbeat(n) in s.pcs && (Departs(s, n, s.pcs[Heartbeat(n)], next) || Cancels(s, n, next))
  {
    if Heartbeat(n) in s.pcs {
      assert FitsTask(Heartbeat(n), s.pcs[Heartbeat(n)]);
      assert Heartbeat(n) in s.core.held <==> Suspended(s, Heartbeat(n));
      if OfHeartbeat(next) {
        OwnDeparture(s, n, s.pcs[Heartbeat(n)], next);
      } else {
        WaitDeparture(s, n, s.pcs[Heartbeat(n)], next);
      }
    }
  }

  lemma OwnDeparture(s: State, n: nat, pc: Pc, next: Step)
    requires PcOf(s, Heartbeat(n)) == Some(pc) && OfHeartbeat(next) && next.n == n
    ensures HeartbeatMay(s, n, pc, next) <==> Departs(s, n, pc, next) || Cancels(s, n, next)
  {
  }

  lemma WaitDeparture(s: State, n: nat, pc: Pc, next: Step)
    requires PcOf(s, Heartbeat(n)) == Some(pc) && FitsTask(Heartbeat(n), pc)
    requires Heartbeat(n) in s.core.held <==> Waiting(pc)
    requires next == Sent(Heartbeat(n)) || (next.EndWait? && next.task == Heartbeat(n))
    ensures Possible(s, next) <==> Departs(s, n, pc, next) || Cancels(s, n, next)
  {
  }

  /** The connection that was pinged is still current and open. */
  predicate StillOn(s: State, n: nat) {
    && Heartbeat(n) in s.pcs && s.pcs[Heartbeat(n)].BeatAwaiting?
    && s.link.conn == Some(s.pcs[Heartbeat(n)].sentOn) && s.link.IsConnected()
  }

  function Waited(s: State, n: nat): Outcome {
    if Heartbeat(n) in s.core.held then OutcomeAt(s.core.table, s.core.held[Heartbeat(n)].fut) else Rpc.Pending
  }

  /** `_heartbeat_loop` as an order of steps: what heartbeat `n` does after it has taken `step` in `s`. A ping that is
      answered leads to the next one; one that times out closes its connection first if that is still current and
      open; anything else that goes wrong makes the heartbeat pause and go on. */
  predicate Follows(s: State, step: Step, n: nat, next: Step) {
    match step
    case StartReady => next == BeatEnters(n)
    case BeatEnters(_) => s.link.running && next == BeatWakes(n)
    case BeatWakes(_) =>
      s.link.running
      && if s.link.IsConnected() then next == Sent(Heartbeat(n)) || next == EndWait(Heartbeat(n), SendFails)
         else next == BeatRetryEnds(n)
    case Sent(_) => next == EndWait(Heartbeat(n), TimesOut) || next == EndWait(Heartbeat(n), Woken)
    case EndWait(_, how) =>
      if how.SendFails? || (how.Woken? && Waited(s, n).Failed?) then next == BeatRetryEnds(n)
      else if how.TimesOut? && StillOn(s, n) then next == BeatCloseDone(n)
      else (how.TimesOut? || Waited(s, n).Result?) && next == BeatEnters(n)
    case BeatRetryEnds(_) => next == BeatEnters(n)
    case BeatCloseDone(_) => next == BeatEnters(n)
    case _ => false
  }

  /** The step that ends a heartbeat: where it finds the client stopped, or is cancelled, or its future was. */
  predicate Ends(s: State, step: Step, n: nat) {
    || ((step == BeatEnters(n) || step == BeatWakes(n)) && !s.link.running)
    || step == BeatCancelled(n) || step == EndWait(Heartbeat(n), TaskCancelled)
    || (step == EndWait(Heartbeat(n), Woken) && Waited(s, n).Cancelled?)
  }

  lemma OwnLeads(s: State, n: nat, pc: Pc, step: Step, t: State, next: Step)
    requires HeartbeatMay(s, n, pc, step) && step.n == n
    ensures var pc' := HeartbeatPc(s, n, pc, step);
            && (pc'.Over? <==> Ends(s, step, n))
            && (Departs(t, n, pc', next) ==> Follows(s, step, n, next))
  {
  }

  lemma WaitLeads(cfg: Config, s: State, n: nat, how: How, t: State, next: Step)
    requires EngineInvariants.Inv(cfg, s) && Possible(s, EndWait(Heartbeat(n), how))
    ensures var pc := PcOf(Next(cfg, s, EndWait(Heartbeat(n), how)), Heartbeat(n));
            && pc.Some? && (pc.value.Over? <==> Ends(s, EndWait(Heartbeat(n), how), n))
            && (Departs(t, n, pc.value, next) ==> Follows(s, EndWait(Heartbeat(n), how), n, next))
  {
    var pc := s.pcs[Heartbeat(n)];
    assert FitsTask(Heartbeat(n), pc) && BeatFits(pc, |s.link.conns|);
    WaitPcLeads(cfg.dialect, s, n, pc, how, t, next);
  }

  lemma WaitPcLeads(d: Dialect, s: State, n: nat, pc: Pc, how: How, t: State, next: Step)
    requires FitsTask(Heartbeat(n), pc) && PcOf(s, Heartbeat(n)) == Some(pc) && WaitMayEnd(s, Heartbeat(n), how)
    requires BeatFits(pc, |s.link.conns|)
    ensures var pc' := WaitPc(d, s.link, pc, how, OutcomeAt(s.core.table, s.core.held[Heartbeat(n)].fut));
            && (pc'.Over? <==> Ends(s, EndWait(Heartbeat(n), how), n))
            && (Departs(t, n, pc', next) ==> Follows(s, EndWait(Heartbeat(n), how), n, next))
  {
  }

  /** Exactly when a heartbeat ends. Nothing that happens to its pings or its connections ends it. */
  lemma EndingLaw(cfg: Config, s: State, step: Step, n: nat)
    requires EngineInvariants.Inv(cfg, s) && Possible(s, step) && !Finished(s, Heartbeat(n))
    ensures Finished(Next(cfg, s, step), Heartbeat(n)) <==> Ends(s, step, n)
  {
    if TakenBy(step, n) {
      StepEnds(cfg, s, step, n);
    } else {
      OthersEndNot(cfg, s, step, n);
    }
  }

  lemma OthersEndNot(cfg: Config, s: State, step: Step, n: nat)
    requires Kinds(s) && Attempts(s) && Possible(s, step) && !TakenBy(step, n) && !Finished(s, Heartbeat(n))
    ensures !Finished(Next(cfg, s, step), Heartbeat(n)) && !Ends(s, step, n)
  {
    OthersKeep(cfg, s, step, n);
    EndsItself(s, step, n);
  }

  lemma EndsItself(s: State, step: Step, n: nat)
    ensures Ends(s, step, n) ==> TakenBy(step, n)
  {
  }

  lemma StepEnds(cfg: Config, s: State, step: Step, n: nat)
    requires EngineInvariants.Inv(cfg, s) && Possible(s, step) && TakenBy(step, n)
    ensures var pc := PcOf(Next(cfg, s, step), Heartbeat(n)); pc.Some? && (pc.value.Over? <==> Ends(s, step, n))
  {
    if OfHeartbeat(step) {
      OwnStepLeads(cfg, s, step, n, s, step);
    } else if step.EndWait? {
      WaitLeads(cfg, s, n, step.how, s, step);
    } else {
      SentLeads(cfg, s, n);
    }
  }

  lemma StepLeads(cfg: Config, s: State, step: Step, n: nat, t: State, next: Step)
    requires EngineInvariants.Inv(cfg, s) && Possible(s, step) && TakenBy(step, n)
    ensures var pc := PcOf(Next(cfg, s, step), Heartbeat(n));
            pc.Some? && (Departs(t, n, pc.value, next) ==> Follows(s, step, n, next))
  {
    if OfHeartbeat(step) {
      OwnStepLeads(cfg, s, step, n, t, next);
    } else if step.EndWait? {
      WaitLeads(cfg, s, n, step.how, t, next);
    } else {
      SentLeads(cfg, s, n);
    }
  }

  lemma OwnStepLeads(cfg: Config, s: State, step: Step, n: nat, t: State, next: Step)
    requires Possible(s, step) && OfHeartbeat(step) && step.n == n
    ensures var pc := PcOf(Next(cfg, s, step), Heartbeat(n));
            && pc.Some? && (pc.value.Over? <==> Ends(s, step, n))
            && (Departs(t, n, pc.value, next) ==> Follows(s, step, n, next))
  {
    OwnLeads(s, n, s.pcs[Heartbeat(n)], step, t, next);
  }

  lemma SentLeads(cfg: Config, s: State, n: nat)
    requires Kinds(s) && Possible(s, Sent(Heartbeat(n)))
    ensures var pc := PcOf(Next(cfg, s, Sent(Heartbeat(n))), Heartbeat(n)); pc.Some? && pc.value.BeatAwaiting?
  {
    assert FitsTask(Heartbeat(n), s.pcs[Heartbeat(n)]);
  }

  /** Nobody else moves a heartbeat that exists. */
  lemma OthersKeep(cfg: Config, s: State, step: Step, n: nat)
    requires Kinds(s) && Attempts(s) && Possible(s, step) && !TakenBy(step, n) && Heartbeat(n) in s.pcs
    ensures PcOf(Next(cfg, s, step), Heartbeat(n)) == PcOf(s, Heartbeat(n))
  {
    if OfSupervisor(step) {
      SupervisorMoves(cfg, s, s.pcs[Supervisor], step);
    } else if OfHeartbeat(step) {
      HeartbeatMoves(cfg, s, step.n, s.pcs[Heartbeat(step.n)], step);
    } else if step.EndWait? {
      WaitMoves(cfg, s, step.task, step.how);
    }
  }

  /** Heartbeat `n` takes no step from `i` up to `j`. */
  predicate Rests(steps: seq<Step>, n: nat, i: nat, j: nat) {
    forall m :: i <= m < j && m < |steps| ==> !TakenBy(steps[m], n)
  }

  lemma {:induction false} RestingHeartbeat(cfg: Config, ss: seq<State>, steps: seq<Step>, n: nat, i: nat, j: nat)
    requires IsRun(cfg, ss, steps) && i <= j < |ss| && Rests(steps, n, i, j) && Heartbeat(n) in ss[i].pcs
    ensures PcOf(ss[j], Heartbeat(n)) == PcOf(ss[i], Heartbeat(n))
    decreases j
  {
    if i < j {
      RestingHeartbeat(cfg, ss, steps, n, i, j - 1);
      Reachable(cfg, ss, steps, j - 1);
      assert Takes(cfg, ss, steps, j - 1);
      OthersKeep(cfg, ss[j - 1], steps[j - 1], n);
    }
  }

  /** start() creates a heartbeat, the next one, exactly if one is configured. */
  lemma StartBeats(cfg: Config, s: State)
    requires Possible(s, StartReady)
    ensures var s' := Next(cfg, s, StartReady);
            if cfg.heartbeat then
              s'.beats == s.beats + 1 && s'.pcs == s.pcs[Supervisor := SupTop][Heartbeat(s.beats) := BeatTop]
            else s'.beats == s.beats && s'.pcs == s.pcs[Supervisor := SupTop]
  {
  }

  /** A step of heartbeat `n`, or the one that creates it. */
  predicate Drives(cfg: Config, s: State, step: Step, n: nat) {
    TakenBy(step, n) || (step.StartReady? && cfg.heartbeat && s.beats == n)
  }

  /** What a heartbeat does over a run, step by step and whatever happens in between: after any step of its own that
      does not end it, its next one is the one that the loop prescribes there, unless a stop() cancels it. */
  lemma OwnStepsFollow(cfg: Config, ss: seq<State>, steps: seq<Step>, n: nat, i: nat, j: nat)
    requires IsRun(cfg, ss, steps) && i < j < |steps| && Drives(cfg, ss[i], steps[i], n)
    requires Rests(steps, n, i + 1, j) && TakenBy(steps[j], n)
    ensures Follows(ss[i], steps[i], n, steps[j]) || Cancels(ss[j], n, steps[j])
  {
    DrivenIn(cfg, ss, steps, n, i);
    RestingHeartbeat(cfg, ss, steps, n, i + 1, j);
    OwnPair(cfg, ss, steps, n, i, j);
  }

  lemma DrivenIn(cfg: Config, ss: seq<State>, steps: seq<Step>, n: nat, i: nat)
    requires IsRun(cfg, ss, steps) && i < |steps| && Drives(cfg, ss[i], steps[i], n)
    ensures Heartbeat(n) in ss[i + 1].pcs
  {
    Reachable(cfg, ss, steps, i);
    assert Takes(cfg, ss, steps, i);
    if TakenBy(steps[i], n) {
      StepEnds(cfg, ss[i], steps[i], n);
    }
  }

  lemma OwnPair(cfg: Config, ss: seq<State>, steps: seq<Step>, n: nat, i: nat, j: nat)
    requires IsRun(cfg, ss, steps) && i < j < |steps| && Drives(cfg, ss[i], steps[i], n) && TakenBy(steps[j], n)
    requires PcOf(ss[j], Heartbeat(n)) == PcOf(ss[i + 1], Heartbeat(n))
    ensures Follows(ss[i], steps[i], n, steps[j]) || Cancels(ss[j], n, steps[j])
  {
    Reachable(cfg, ss, steps, i);
    Reachable(cfg, ss, steps, j);
    assert Takes(cfg, ss, steps, i) && Takes(cfg, ss, steps, j);
    NextOwnStep(cfg, ss[i], steps[i], n, ss[j], steps[j]);
  }

  lemma NextOwnStep(cfg: Config, s: State, step: Step, n: nat, t: State, next: Step)
    requires EngineInvariants.Inv(cfg, s) && Possible(s, step) && Drives(cfg, s, step, n)
    requires EngineInvariants.Inv(cfg, t) && Possible(t, next) && TakenBy(next, n)
    requires PcOf(t, Heartbeat(n)) == PcOf(Next(cfg, s, step), Heartbeat(n))
    ensures Follows(s, step, n, next) || Cancels(t, n, next)
  {
    DepartureLaw(t, n, next);
    if TakenBy(step, n) {
      StepLeads(cfg, s, step, n, t, next);
    } else {
      StartBeats(cfg, s);
    }
  }
}
