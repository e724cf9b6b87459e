/** What holds over every run of the supervisor: when it ends, what it does next, and that it always can go on. */
module SupervisorTheorems {
  import opened Wire
  import opened Dialects
  import opened Rpc
  import opened Correlation
  import opened Reconnect
  import opened Connections
  import opened Engine
  import opened EngineInvariants
  import opened EngineTheorems
  import opened DropTheorems
  import opened DispatchTheorems

  // ---- how it is created --------------------------------------------------------------------

  /** start() is refused while the client runs. Else it sets the flags, the one of an earlier stop() included, and
      makes a new connection current. */
  lemma StartBegins(cfg: Config, s: State)
    ensures s.link.running ==> !Possible(s, StartCall)
    ensures Possible(s, StartCall) ==>
              var n, link := |s.link.conns|, Next(cfg, s, StartCall).link;
              && link.running && !link.shutdown && link.conn == Some(n)
              && link.conns == s.link.conns + [Conn(false, None)]
              && Next(cfg, s, StartCall) == s.(link := link, starting := StartConnecting(n), quiet := false)
  {
  }

  /** start() returns with a new supervisor, on attempt 0 and with nothing held against it, whose connection is up from
      now on. The registry and the table are as they were. */
  lemma StartEnds(cfg: Config, s: State)
    requires EngineInvariants.Inv(cfg, s) && Possible(s, StartReady)
    ensures var s', c := Next(cfg, s, StartReady), s.starting.c;
            && At(s', Supervisor, SupTop) && s'.attempt == 0 && s'.ended == [] && s'.starting.NotStarting?
            && c < |s'.link.conns| && s'.link.conns[c].connectedAt == Some(s.clock)
            && s'.link.conn == s.link.conn && s'.link.running == s.link.running
            && s'.core == s.core && s'.subs == s.subs
  {
  }

  /** A start() that fails changes nothing but that it is over. So the client goes on being marked running although
      nobody supervises it, and the next start() is refused. */
  lemma FailedStartBlocks(cfg: Config, s: State)
    requires EngineInvariants.Inv(cfg, s) && Possible(s, StartFails)
    ensures var s' := Next(cfg, s, StartFails);
            && s' == s.(starting := NotStarting) && Finished(s', Supervisor)
            && (s.link.running ==> s'.link.running && !Possible(s', StartCall))
  {
  }

  // ---- when it ends -------------------------------------------------------------------------

  /** The step in which the supervisor of a stopped client ends: where it next looks at the flag, or is cancelled. */
  predicate NoticesStop(cfg: Config, s: State, step: Step)
    requires Possible(s, step)
  {
    || step.SupEnters? || step.FrameArrives? || step.PumpEnds? || step.SupWakes? || step.SupCancelled?
    || (step.HookReturns? && RoutingAt(cfg, s, s.pcs[Supervisor].msg).Raised?)
    || step == EndWait(Supervisor, TaskCancelled)
  }

  /** Reconnecting is enabled and the policy answers attempt number `attempt` with a delay. */
  predicate WaitsAt(cfg: Config, attempt: nat) {
    cfg.reconnect.Some? && cfg.reconnect.value(attempt).Wait?
  }

  /** While the client runs, by a drop that the policy does not answer with a delay; in a stopped client, where it
      notices. */
  predicate Ends(cfg: Config, s: State, step: Step, s': State)
    requires Possible(s, step)
  {
    if s.link.running then Drops(cfg, s, step) && !WaitsAt(cfg, s'.attempt) else NoticesStop(cfg, s, step)
  }

  /** Exactly when a supervisor ends: while the client runs, by a drop that the policy does not answer with a delay;
      in a stopped client, where it notices. Nothing else ends it: no failed reconnect, no failed replay, no frame.
      */
  lemma EndingLaw(cfg: Config, s: State, step: Step)
    requires EngineInvariants.Inv(cfg, s) && Possible(s, step) && !Finished(s, Supervisor)
    ensures Finished(Next(cfg, s, step), Supervisor) <==> Ends(cfg, s, step, Next(cfg, s, step))
  {
    if OfSupervisor(step) {
      OwnEnding(cfg, s, s.pcs[Supervisor], step);
    } else {
      OtherStepEnds(cfg, s, step);
    }
  }

  lemma OtherStepEnds(cfg: Config, s: State, step: Step)
    requires EngineInvariants.Inv(cfg, s) && Possible(s, step) && !Finished(s, Supervisor) && !OfSupervisor(step)
    ensures Finished(Next(cfg, s, step), Supervisor) <==> step == EndWait(Supervisor, TaskCancelled)
    ensures step == EndWait(Supervisor, TaskCancelled) ==> !s.link.running
  {
    if step.EndWait? && step.task == Supervisor {
      WaitEnding(cfg, s, step.how);
    } else if step == Sent(Supervisor) {
      ReplaySent(cfg, s);
    } else {
      OthersLeave(cfg, s, step);
    }
  }

  lemma OwnEnding(cfg: Config, s: State, pc: Pc, step: Step)
    requires StopFits(s) && PcOf(s, Supervisor) == Some(pc) && Possible(s, step) && OfSupervisor(step)
    ensures var s' := SupervisorNext(cfg, s, pc, step); Finished(s', Supervisor) <==> Ends(cfg, s, step, s')
  {
    if EndsPump(step) {
      PumpEnding(cfg, s, pc, step);
    } else {
      OtherEnding(cfg, s, pc, step);
    }
  }

  lemma OtherEnding(cfg: Config, s: State, pc: Pc, step: Step)
    requires SupervisorMay(s, pc, step) && !EndsPump(step)
    ensures SupervisorPc(cfg, s, pc, step).Over?
            <==> !s.link.running && (step.SupEnters? || step.FrameArrives? || step.SupWakes?)
  {
  }

  lemma PumpEnding(cfg: Config, s: State, pc: Pc, step: Step)
    requires SupervisorMay(s, pc, step) && EndsPump(step) && (step.SupCancelled? ==> !s.link.running)
    ensures SupervisorPc(cfg, s, pc, step).Over?
            <==> (step.HookReturns? ==> RoutingAt(cfg, s, pc.msg).Raised?)
                 && (s.link.running ==> !WaitsAt(cfg, SupervisorFields(cfg, s, pc, step).attempt))
  {
  }

  lemma WaitEnding(cfg: Config, s: State, how: How)
    requires Kinds(s) && StopFits(s) && Unanswered(s.core) && Possible(s, EndWait(Supervisor, how))
    ensures Finished(Next(cfg, s, EndWait(Supervisor, how)), Supervisor) <==> how.TaskCancelled?
    ensures how.TaskCancelled? ==> !s.link.running
  {
    var pc := s.pcs[Supervisor];
    assert FitsTask(Supervisor, pc) && Waiting(pc);
    WaitPcEnding(cfg.dialect, s.link, pc, how, OutcomeAt(s.core.table, s.core.held[Supervisor].fut));
  }

  lemma WaitPcEnding(d: Dialect, link: Link, pc: Pc, how: How, outcome: Outcome)
    requires FitsTask(Supervisor, pc) && Waiting(pc) && (how.Woken? ==> !outcome.Cancelled?)
    ensures WaitPc(d, link, pc, how, outcome).Over? <==> how.TaskCancelled?
  {
  }

  /** So a supervisor that ends while the client goes on running has been ended by a policy that raised. */
  lemma OnlyPolicyEndsIt(cfg: Config, s: State, step: Step)
    requires EngineInvariants.Inv(cfg, s) && Possible(s, step) && !Finished(s, Supervisor)
    ensures var s' := Next(cfg, s, step);
            s'.link.running && Finished(s', Supervisor) <==>
            Drops(cfg, s, step) && cfg.reconnect.Some? && cfg.reconnect.value(s'.attempt).Raises?
  {
    EndingLaw(cfg, s, step);
    if Drops(cfg, s, step) {
      DropFlags(cfg, s, step);
    } else if Next(cfg, s, step).link.running {
      NeverRestarted(cfg, s, step);
    }
  }

  lemma DropFlags(cfg: Config, s: State, step: Step)
    requires Possible(s, step) && Drops(cfg, s, step)
    ensures var s' := Next(cfg, s, step);
            s'.link.running <==> cfg.reconnect.Some? && !cfg.reconnect.value(s'.attempt).GiveUp?
  {
    DropNext(cfg, s, step);
  }

  lemma NeverRestarted(cfg: Config, s: State, step: Step)
    requires Lifecycle(s) && Kinds(s) && Attempts(s) && Possible(s, step) && !Finished(s, Supervisor)
    ensures Next(cfg, s, step).link.running ==> s.link.running
  {
    if OfSupervisor(step) {
      SupervisorFrame(cfg, s, s.pcs[Supervisor], step);
    } else if OfHeartbeat(step) {
      HeartbeatMoves(cfg, s, step.n, s.pcs[Heartbeat(step.n)], step);
    } else if step.EndWait? {
      WaitMoves(cfg, s, step.task, step.how);
    }
  }

  // ---- what it does next --------------------------------------------------------------------

  predicate ReadsOn(next: Step) {
    next.FrameArrives? || next.PumpEnds?
  }

  /** After a drop: the wait that the policy asked for, and without one the next connection at once. */
  predicate Reconnects(cfg: Config, s: State, next: Step) {
    WaitsAt(cfg, s.attempt)
    && if cfg.reconnect.value(s.attempt).delay > 0.0 then next.SupWakes? else next.Connected? || next.ReconnectFails?
  }

  /** The next attempt of a replay: it sends if there was an open connection, and otherwise is over already. */
  predicate Replays(s: State, next: Step) {
    if s.link.IsConnected() then next == Sent(Supervisor) || next == EndWait(Supervisor, SendFails) else next.GapEnds?
  }

  /** `_supervise` as an order of steps: what the supervisor that has taken `step` in `s`, to get to `s'`, does next
      when nobody stops it. */
  predicate Follows(cfg: Config, s: State, step: Step, s': State, next: Step) {
    match step
    case StartReady => next.SupEnters?
    case SupEnters => ReadsOn(next)
    case FrameArrives(_) => next.HookReturns?
    case HookReturns =>
      Supervisor in s.pcs && s.pcs[Supervisor].SupHook?
      && (match RoutingAt(cfg, s, s.pcs[Supervisor].msg)
          case Consumed => ReadsOn(next)
          case Push => next.DeliverReturns? || next.PumpEnds?
          case Raised => Reconnects(cfg, s', next))
    case DeliverReturns => ReadsOn(next)
    case PumpEnds(_) => Reconnects(cfg, s', next)
    case SupWakes => next.Connected? || next.ReconnectFails?
    case Connected => next.HandshakeDone? || next.ReconnectFails?
    case ReconnectFails => next.SupEnters?
    case HandshakeDone => if s.subs == [] then next.SupEnters? else Replays(s, next)
    case Sent(_) => next == EndWait(Supervisor, TimesOut)
    case EndWait(_, _) => next.GapEnds?
    case GapEnds =>
      Supervisor in s.pcs && s.pcs[Supervisor].ReplayGap?
      && if |s.pcs[Supervisor].r.sent| < |s.pcs[Supervisor].r.snapshot| then Replays(s, next) else next.SupEnters?
    case _ => false
  }

  /** The stop() that is under way cancels it, wherever it is. */
  predicate Cancels(s: State, next: Step) {
    && s.stopping.JoinSupervisor? && !Finished(s, Supervisor)
    && next == if Waiting(s.pcs[Supervisor]) then EndWait(Supervisor, TaskCancelled) else SupCancelled
  }

  /** What a supervisor may do at each of its suspension points when nobody stops it. A replay that waits for its answer
      can only time out. */
  predicate Departs(pc: Pc, next: Step) {
    match pc
    case SupTop => next.SupEnters?
    case SupPump => ReadsOn(next)
    case SupHook(_) => next.HookReturns?
    case SupDeliver(_) => next.DeliverReturns? || next.PumpEnds?
    case SupAsleep => next.SupWakes?
    case SupConnecting(_) => next.Connected? || next.ReconnectFails?
    case SupHandshake(_) => next.HandshakeDone? || next.ReconnectFails?
    case ReplaySending(_) => next == Sent(Supervisor) || next == EndWait(Supervisor, SendFails)
    case ReplayAwaiting(_) => next == EndWait(Supervisor, TimesOut)
    case ReplayGap(_) => next.GapEnds?
    case _ => false
  }

  /** In every reachable state these are exactly the steps the supervisor can take. So it is never stuck, and never
      asked for anything else; frames and errors may be of any kind. */
  lemma DepartureLaw(cfg: Config, s: State, next: Step)
    requires EngineInvariants.Inv(cfg, s) && MovesSupervisor(next)
    ensures Possible(s, next)
            <==> Supervisor in s.pcs && (Departs(s.pcs[Supervisor], next) || Cancels(s, next))
  {
    if Supervisor in s.pcs {
      assert FitsTask(Supervisor, s.pcs[Supervisor]);
      if OfSupervisor(next) {
        OwnDeparture(s, s.pcs[Supervisor], next);
      } else {
        assert Supervisor in s.core.held <==> Suspended(s, Supervisor);
        WaitDeparture(s, s.pcs[Supervisor], next);
      }
    }
  }

  lemma OwnDeparture(s: State, pc: Pc, next: Step)
    requires PcOf(s, Supervisor) == Some(pc) && OfSupervisor(next)
    ensures SupervisorMay(s, pc, next) <==> Departs(pc, next) || Cancels(s, next)
  {
  }

  lemma WaitDeparture(s: State, pc: Pc, next: Step)
    requires PcOf(s, Supervisor) == Some(pc) && FitsTask(Supervisor, pc)
    requires Unanswered(s.core) && (Supervisor in s.core.held <==> Waiting(pc))
    requires next == Sent(Supervisor) || (next.EndWait? && next.task == Supervisor)
    ensures Possible(s, next) <==> Departs(pc, next) || Cancels(s, next)
  {
  }

  /** Where a step leaves the supervisor, seen from what may come next there. */
  lemma OwnLeadsTo(cfg: Config, s: State, pc: Pc, step: Step, next: Step)
    requires PcOf(s, Supervisor) == Some(pc) && SupervisorMay(s, pc, step) && !step.SupCancelled?
    requires Departs(SupervisorPc(cfg, s, pc, step), next)
    ensures Follows(cfg, s, step, SupervisorNext(cfg, s, pc, step), next)
  {
    if EndsPump(step) {
      PumpLeadsTo(cfg, s, next);
    } else if step.HandshakeDone? {
      ReplayLeadsTo(cfg, s, NewReplay(s), next);
    } else if step.GapEnds? {
      ReplayLeadsTo(cfg, s, pc.r, next);
    }
  }

  lemma PumpLeadsTo(cfg: Config, s: State, next: Step)
    ensures Departs(PumpPc(cfg, s), next) ==> Reconnects(cfg, AfterPump(cfg, s), next)
  {
  }

  lemma ReplayLeadsTo(cfg: Config, s: State, r: Replay, next: Step)
    ensures Departs(ReplayPc(cfg, s, r), next) ==>
              if |r.sent| < |r.snapshot| then Replays(s, next) else next.SupEnters?
  {
  }

  lemma WaitLeadsTo(cfg: Config, s: State, step: Step, next: Step)
    requires EngineInvariants.Inv(cfg, s) && Possible(s, step)
    requires step == Sent(Supervisor) || (step.EndWait? && step.task == Supervisor)
    ensures var s' := Next(cfg, s, step);
            Supervisor in s'.pcs && (Departs(s'.pcs[Supervisor], next) ==> Follows(cfg, s, step, s', next))
  {
    if step.EndWait? {
      EndsInGap(cfg, s, step.how);
    } else {
      SendsOn(cfg, s);
    }
    WaitPcLeadsTo(cfg, s, step, Next(cfg, s, step), next);
  }

  lemma WaitPcLeadsTo(cfg: Config, s: State, step: Step, s': State, next: Step)
    requires PcOf(s', Supervisor).Some?
    requires step.Sent? ==> s'.pcs[Supervisor].ReplayAwaiting?
    requires step.EndWait? ==> s'.pcs[Supervisor].Over? || s'.pcs[Supervisor].ReplayGap?
    ensures (step.Sent? || step.EndWait?) && Departs(s'.pcs[Supervisor], next) ==> Follows(cfg, s, step, s', next)
  {
  }

  lemma EndsInGap(cfg: Config, s: State, how: How)
    requires EngineInvariants.Inv(cfg, s) && Possible(s, EndWait(Supervisor, how))
    ensures var pc := PcOf(Next(cfg, s, EndWait(Supervisor, how)), Supervisor);
            pc.Some? && (pc.value.Over? || pc.value.ReplayGap?)
  {
    WaitRegisters(cfg.dialect, s.link, Supervisor, s.pcs[Supervisor], how,
                  OutcomeAt(s.core.table, s.core.held[Supervisor].fut));
  }

  lemma SendsOn(cfg: Config, s: State)
    requires Kinds(s) && Possible(s, Sent(Supervisor))
    ensures var pc := PcOf(Next(cfg, s, Sent(Supervisor)), Supervisor); pc.Some? && pc.value.ReplayAwaiting?
  {
    assert FitsTask(Supervisor, s.pcs[Supervisor]);
  }

  /** A step of the supervisor, or the one that creates it. */
  predicate Drives(step: Step) {
    MovesSupervisor(step) || step.StartReady?
  }

  lemma StepLeadsTo(cfg: Config, s: State, step: Step, next: Step)
    requires EngineInvariants.Inv(cfg, s) && Possible(s, step) && Drives(step)
    ensures var s' := Next(cfg, s, step);
            Supervisor in s'.pcs && (Departs(s'.pcs[Supervisor], next) ==> Follows(cfg, s, step, s', next))
  {
    if OfSupervisor(step) {
      OwnStepLeadsTo(cfg, s, s.pcs[Supervisor], step, next);
    } else if MovesSupervisor(step) {
      WaitLeadsTo(cfg, s, step, next);
    }
  }

  lemma OwnStepLeadsTo(cfg: Config, s: State, pc: Pc, step: Step, next: Step)
    requires StopFits(s) && PcOf(s, Supervisor) == Some(pc) && SupervisorMay(s, pc, step)
    ensures var s' := SupervisorNext(cfg, s, pc, step);
            Supervisor in s'.pcs && (Departs(s'.pcs[Supervisor], next) ==> Follows(cfg, s, step, s', next))
  {
    if step.SupCancelled? {
      PumpEnding(cfg, s, pc, step);
    } else if Departs(SupervisorPc(cfg, s, pc, step), next) {
      OwnLeadsTo(cfg, s, pc, step, next);
    }
  }

  /** What the supervisor does over a run, step by step and whatever happens in between: after any step of its own that
      does not end it, its next one is the one that the loop prescribes there, unless a stop() cancels it. In particular
      it goes back to the pump after the handlers have returned, and after a reconnect that failed. */
  lemma OwnStepsFollow(cfg: Config, ss: seq<State>, steps: seq<Step>, i: nat, j: nat)
    requires IsRun(cfg, ss, steps) && i < j < |steps| && Drives(steps[i]) && !Finished(ss[i + 1], Supervisor)
    requires Rests(steps, i + 1, j) && MovesSupervisor(steps[j])
    ensures Follows(cfg, ss[i], steps[i], ss[i + 1], steps[j]) || Cancels(ss[j], steps[j])
  {
    RestingSupervisor(cfg, ss, steps, i + 1, j);
    OwnPair(cfg, ss, steps, i, j);
  }

  lemma OwnPair(cfg: Config, ss: seq<State>, steps: seq<Step>, i: nat, j: nat)
    requires IsRun(cfg, ss, steps) && i < j < |steps| && Drives(steps[i]) && MovesSupervisor(steps[j])
    requires PcOf(ss[j], Supervisor) == PcOf(ss[i + 1], Supervisor)
    ensures Follows(cfg, ss[i], steps[i], ss[i + 1], steps[j]) || Cancels(ss[j], steps[j])
  {
    Reachable(cfg, ss, steps, i);
    Reachable(cfg, ss, steps, j);
    assert Takes(cfg, ss, steps, i) && Takes(cfg, ss, steps, j);
    NextOwnStep(cfg, ss[i], steps[i], ss[j], steps[j]);
  }

  lemma NextOwnStep(cfg: Config, s: State, step: Step, t: State, next: Step)
    requires EngineInvariants.Inv(cfg, s) && Possible(s, step) && Drives(step)
    requires EngineInvariants.Inv(cfg, t) && Possible(t, next) && MovesSupervisor(next)
    requires PcOf(t, Supervisor) == PcOf(Next(cfg, s, step), Supervisor)
    ensures Follows(cfg, s, step, Next(cfg, s, step), next) || Cancels(t, next)
  {
    StepLeadsTo(cfg, s, step, next);
    DepartureLaw(cfg, t, next);
  }

  /** The same for as long as the client runs: nothing but a drop can end it, so after a failed reconnect it enters its
      loop again, and from there it reads from the connection that failed, or drops it. */
  lemma FailedReconnectGoesOn(cfg: Config, ss: seq<State>, steps: seq<Step>, i: nat, j: nat, k: nat)
    requires IsRun(cfg, ss, steps) && i < j < k < |steps| && steps[i].ReconnectFails?
    requires Rests(steps, i + 1, j) && MovesSupervisor(steps[j]) && Rests(steps, j + 1, k) && MovesSupervisor(steps[k])
    requires ss[j].link.running && ss[k].link.running
    ensures steps[j].SupEnters? && (steps[k].FrameArrives? || steps[k].PumpEnds?)
  {
    GoesOn(cfg, ss, steps, i);
    OwnStepsFollow(cfg, ss, steps, i, j);
    RunningIsNotStopped(cfg, ss, steps, j);
    GoesOn(cfg, ss, steps, j);
    OwnStepsFollow(cfg, ss, steps, j, k);
    RunningIsNotStopped(cfg, ss, steps, k);
  }

  lemma RunningIsNotStopped(cfg: Config, ss: seq<State>, steps: seq<Step>, i: nat)
    requires IsRun(cfg, ss, steps) && i < |steps| && ss[i].link.running
    ensures ss[i].stopping.NotStopping?
  {
    Reachable(cfg, ss, steps, i);
  }

  lemma GoesOn(cfg: Config, ss: seq<State>, steps: seq<Step>, i: nat)
    requires IsRun(cfg, ss, steps) && i < |steps|
    requires steps[i].ReconnectFails? || (steps[i].SupEnters? && ss[i].link.running)
    ensures !Finished(ss[i + 1], Supervisor)
  {
    Reachable(cfg, ss, steps, i);
    assert Takes(cfg, ss, steps, i);
    EndingLaw(cfg, ss[i], steps[i]);
  }

  /** Under the default policy it takes 1025 unhealthy connections in a row, and nothing else will do. */
  lemma DefaultEndsLate(cfg: Config, s: State, step: Step)
    requires EngineInvariants.Inv(cfg, s) && Possible(s, step) && !Finished(s, Supervisor)
    requires cfg.reconnect == Some(a => DefaultBackoff(a))
    ensures var s' := Next(cfg, s, step);
            s'.link.running && Finished(s', Supervisor) <==> Drops(cfg, s, step) && LastUnhealthy(s'.ended, 1025)
  {
    OnlyPolicyEndsIt(cfg, s, step);
    if Drops(cfg, s, step) {
      DropTheorems.DefaultDies(cfg, s, step);
    }
  }

  // ---- it always can go on ------------------------------------------------------------------

  predicate AllOfSupervisor(steps: seq<Step>) {
    forall i :: 0 <= i < |steps| ==> MovesSupervisor(steps[i])
  }

  /** The supervisor alone gets from `s` to reading in `s'`, where it has replayed `r`. */
  ghost predicate GetsToRead(cfg: Config, s: State, steps: seq<Step>, s': State, r: Replay) {
    && Leads(cfg, s, steps, s') && AllOfSupervisor(steps)
    && At(s', Supervisor, SupPump) && s'.link == s.link && s'.subs == s.subs && s'.clock == s.clock
    && s'.replays == s.replays + [r]
  }

  /** The client runs, on an open connection. */
  predicate OnTheAir(s: State) {
    s.link.running && s.link.IsConnected()
  }

  /** Nothing but the supervisor's place, its attempt and the table has changed. */
  predicate SameSituation(s: State, s': State) {
    s'.link == s.link && s'.subs == s.subs && s'.clock == s.clock && s'.replays == s.replays
  }

  lemma EntersPump(cfg: Config, s: State)
    requires OnTheAir(s) && At(s, Supervisor, SupTop)
    ensures Possible(s, SupEnters)
    ensures var s' := Next(cfg, s, SupEnters); At(s', Supervisor, SupPump) && SameSituation(s, s')
  {
  }

  lemma SendingWaits(cfg: Config, s: State, r: Replay)
    requires At(s, Supervisor, ReplaySending(r))
    ensures Possible(s, Sent(Supervisor))
    ensures var s' := Next(cfg, s, Sent(Supervisor)); At(s', Supervisor, ReplayAwaiting(r)) && SameSituation(s, s')
  {
  }

  lemma WaitingPauses(cfg: Config, s: State, r: Replay)
    requires WaitersHold(s) && At(s, Supervisor, ReplayAwaiting(r))
    ensures Possible(s, EndWait(Supervisor, TimesOut))
    ensures var s' := Next(cfg, s, EndWait(Supervisor, TimesOut));
            At(s', Supervisor, ReplayGap(r)) && SameSituation(s, s')
  {
    assert Supervisor in s.core.held <==> Suspended(s, Supervisor);
    WaitTimedOut(cfg, s, r);
  }

  lemma WaitTimedOut(cfg: Config, s: State, r: Replay)
    requires Supervisor in s.core.held && At(s, Supervisor, ReplayAwaiting(r))
    ensures var s' := WaitNext(cfg, s, Supervisor, TimesOut);
            At(s', Supervisor, ReplayGap(r)) && SameSituation(s, s')
  {
  }

  /** After the pause, the next attempt or the end of the pass. */
  lemma PauseEnds(cfg: Config, s: State, r: Replay)
    requires OnTheAir(s) && At(s, Supervisor, ReplayGap(r))
    ensures Possible(s, GapEnds)
    ensures var s' := Next(cfg, s, GapEnds);
            if |r.sent| < |r.snapshot| then
              SameSituation(s, s')
              && At(s', Supervisor, ReplaySending(Extended(cfg.dialect, r, s.core.table.counter + 1)))
            else Completed(s, s', r) && At(s', Supervisor, SupTop)
  {
    PausedNext(cfg, s, r);
  }

  lemma PausedNext(cfg: Config, s: State, r: Replay)
    requires OnTheAir(s)
    ensures var s' := SupervisorNext(cfg, s, ReplayGap(r), GapEnds);
            if |r.sent| < |r.snapshot| then
              SameSituation(s, s')
              && At(s', Supervisor, ReplaySending(Extended(cfg.dialect, r, s.core.table.counter + 1)))
            else Completed(s, s', r) && At(s', Supervisor, SupTop)
  {
  }

  predicate Completed(s: State, s': State, r: Replay) {
    s'.link == s.link && s'.subs == s.subs && s'.clock == s.clock && s'.replays == s.replays + [r]
  }

  lemma PauseKept(cfg: Config, s: State, r: Replay) returns (s': State)
    requires EngineInvariants.Inv(cfg, s) && OnTheAir(s) && At(s, Supervisor, ReplayGap(r)) && |r.sent| < |r.snapshot|
    ensures Possible(s, GapEnds) && s' == Next(cfg, s, GapEnds) && EngineInvariants.Inv(cfg, s')
    ensures SameSituation(s, s')
              && At(s', Supervisor, ReplaySending(Extended(cfg.dialect, r, s.core.table.counter + 1)))
  {
    PauseEnds(cfg, s, r);
    InvKept(cfg, s, GapEnds);
    s' := Next(cfg, s, GapEnds);
  }

  lemma SendingKept(cfg: Config, s: State, r: Replay) returns (s': State)
    requires EngineInvariants.Inv(cfg, s) && At(s, Supervisor, ReplaySending(r))
    ensures Possible(s, Sent(Supervisor)) && s' == Next(cfg, s, Sent(Supervisor)) && EngineInvariants.Inv(cfg, s')
    ensures SameSituation(s, s') && At(s', Supervisor, ReplayAwaiting(r))
  {
    SendingWaits(cfg, s, r);
    InvKept(cfg, s, Sent(Supervisor));
    s' := Next(cfg, s, Sent(Supervisor));
  }

  lemma FirstThen(cfg: Config, s: State, step: Step, s1: State, steps: seq<Step>, s': State)
    requires Possible(s, step) && s1 == Next(cfg, s, step) && Leads(cfg, s1, steps, s')
    ensures Leads(cfg, s, [step] + steps, s')
    ensures MovesSupervisor(step) && AllOfSupervisor(steps) ==> AllOfSupervisor([step] + steps)
  {
    Prepend(cfg, s, step, steps, s');
  }

  /** Where the pause leads when nothing else happens: to the pause after the next attempt, which nobody answers. */
  lemma OneMoreAttempt(cfg: Config, s: State, r: Replay) returns (steps: seq<Step>, s': State, r': Replay)
    requires EngineInvariants.Inv(cfg, s) && OnTheAir(s) && At(s, Supervisor, ReplayGap(r)) && |r.sent| < |r.snapshot|
    ensures Leads(cfg, s, steps, s') && AllOfSupervisor(steps)
    ensures EngineInvariants.Inv(cfg, s') && SameSituation(s, s') && At(s', Supervisor, ReplayGap(r'))
    ensures r'.snapshot == r.snapshot && |r'.sent| == |r.sent| + 1
  {
    r' := Extended(cfg.dialect, r, s.core.table.counter + 1);
    var s1 := PauseKept(cfg, s, r);
    steps, s' := AttemptTimesOut(cfg, s1, r');
    FirstThen(cfg, s, GapEnds, s1, steps, s');
    steps := [GapEnds] + steps;
  }

  /** One attempt that nobody answers: sent, and timed out. */
  lemma AttemptTimesOut(cfg: Config, s: State, r: Replay) returns (steps: seq<Step>, s': State)
    requires EngineInvariants.Inv(cfg, s) && At(s, Supervisor, ReplaySending(r))
    ensures Leads(cfg, s, steps, s') && AllOfSupervisor(steps) && EngineInvariants.Inv(cfg, s')
    ensures At(s', Supervisor, ReplayGap(r)) && SameSituation(s, s')
  {
    var s1 := SendingKept(cfg, s, r);
    steps, s' := WaitTimesOut(cfg, s1, r);
    FirstThen(cfg, s, Sent(Supervisor), s1, steps, s');
    steps := [Sent(Supervisor)] + steps;
  }

  lemma WaitTimesOut(cfg: Config, s: State, r: Replay) returns (steps: seq<Step>, s': State)
    requires EngineInvariants.Inv(cfg, s) && At(s, Supervisor, ReplayAwaiting(r))
    ensures Leads(cfg, s, steps, s') && AllOfSupervisor(steps) && EngineInvariants.Inv(cfg, s')
    ensures At(s', Supervisor, ReplayGap(r)) && SameSituation(s, s')
  {
    WaitingPauses(cfg, s, r);
    s' := Next(cfg, s, EndWait(Supervisor, TimesOut));
    FirstThen(cfg, s, EndWait(Supervisor, TimesOut), s', [], s');
    steps := [EndWait(Supervisor, TimesOut)] + [];
    InvKept(cfg, s, EndWait(Supervisor, TimesOut));
  }

  lemma PassEnds(cfg: Config, s: State, r: Replay) returns (steps: seq<Step>, s': State)
    requires OnTheAir(s) && At(s, Supervisor, ReplayGap(r)) && |r.sent| >= |r.snapshot|
    ensures GetsToRead(cfg, s, steps, s', r)
  {
    PauseEnds(cfg, s, r);
    steps, s' := TopReads(cfg, Next(cfg, s, GapEnds));
    Prepend(cfg, s, GapEnds, steps, s');
    steps := [GapEnds] + steps;
  }

  lemma TopReads(cfg: Config, s: State) returns (steps: seq<Step>, s': State)
    requires OnTheAir(s) && At(s, Supervisor, SupTop)
    ensures Leads(cfg, s, steps, s') && AllOfSupervisor(steps)
    ensures At(s', Supervisor, SupPump) && SameSituation(s, s')
  {
    EntersPump(cfg, s);
    s' := Next(cfg, s, SupEnters);
    Prepend(cfg, s, SupEnters, [], s');
    steps := [SupEnters] + [];
  }

  /** However many entries there are, the pass comes to its end. */
  lemma {:induction false} ReplayEnds(cfg: Config, s: State, r: Replay)
    returns (steps: seq<Step>, s': State, r': Replay)
    requires EngineInvariants.Inv(cfg, s) && OnTheAir(s) && At(s, Supervisor, ReplayGap(r))
    ensures GetsToRead(cfg, s, steps, s', r') && r'.snapshot == r.snapshot
    decreases |r.snapshot| - |r.sent|
  {
    if |r.sent| < |r.snapshot| {
      var before, s1, r1 := OneMoreAttempt(cfg, s, r);
      var after;
      after, s', r' := ReplayEnds(cfg, s1, r1);
      steps := before + after;
      ReadsLater(cfg, s, before, s1, after, s', r');
    } else {
      r' := r;
      steps, s' := PassEnds(cfg, s, r);
    }
  }

  lemma ReadsLater(cfg: Config, s: State, a: seq<Step>, t: State, b: seq<Step>, u: State, r: Replay)
    requires Leads(cfg, s, a, t) && AllOfSupervisor(a) && SameSituation(s, t) && GetsToRead(cfg, t, b, u, r)
    ensures GetsToRead(cfg, s, a + b, u, r)
  {
    Joined(cfg, s, a, t, b, u);
  }

  lemma {:induction false} Joined(cfg: Config, s: State, a: seq<Step>, t: State, b: seq<Step>, u: State)
    requires Leads(cfg, s, a, t) && Leads(cfg, t, b, u)
    ensures Leads(cfg, s, a + b, u)
    decreases |a|
  {
    if a == [] {
      assert a + b == b;
    } else {
      Joined(cfg, Next(cfg, s, a[0]), a[1..], t, b, u);
      assert (a + b)[1..] == a[1..] + b;
    }
  }

  /** The client is back: it reads from connection `c`, which is current, open and authenticated, and has attempted
      every subscription of the registry once more. */
  predicate Recovered(s: State, s': State, c: nat, r: Replay) {
    && OnTheAir(s') && s'.link.conn == Some(c) && s'.link.conns[c].connectedAt == Some(s.clock)
    && At(s', Supervisor, SupPump) && s'.subs == s.subs && s'.replays == s.replays + [r] && r.snapshot == s.subs
  }

  lemma SocketThere(cfg: Config, s: State, c: nat) returns (s': State)
    requires EngineInvariants.Inv(cfg, s) && s.link.running && At(s, Supervisor, SupConnecting(c))
    ensures Possible(s, Connected) && s' == Next(cfg, s, Connected) && EngineInvariants.Inv(cfg, s')
    ensures OnTheAir(s') && s'.link.conn == Some(c) && At(s', Supervisor, SupHandshake(c))
    ensures s'.subs == s.subs && s'.clock == s.clock && s'.replays == s.replays
  {
    s' := Next(cfg, s, Connected);
    InvKept(cfg, s, Connected);
  }

  /** The pass begins with a snapshot of the registry, and with the first attempt if there is anything to attempt. */
  lemma HandshakeThere(cfg: Config, s: State, c: nat) returns (s': State, r: Replay)
    requires EngineInvariants.Inv(cfg, s) && OnTheAir(s) && s.link.conn == Some(c)
    requires At(s, Supervisor, SupHandshake(c))
    ensures Possible(s, HandshakeDone) && s' == Next(cfg, s, HandshakeDone) && EngineInvariants.Inv(cfg, s')
    ensures OnTheAir(s') && s'.link.conn == Some(c) && s'.link.conns[c].connectedAt == Some(s.clock)
    ensures s'.subs == s.subs && s'.clock == s.clock && r.snapshot == s.subs
    ensures if s.subs == [] then At(s', Supervisor, SupTop) && s'.replays == s.replays + [r]
            else At(s', Supervisor, ReplaySending(r)) && s'.replays == s.replays
  {
    s' := Next(cfg, s, HandshakeDone);
    r := HandshakeNext(cfg, s, c);
    InvKept(cfg, s, HandshakeDone);
  }

  lemma HandshakeNext(cfg: Config, s: State, c: nat) returns (r: Replay)
    requires OnTheAir(s) && s.link.conn == Some(c)
    ensures var s' := SupervisorNext(cfg, s, SupHandshake(c), HandshakeDone);
            && OnTheAir(s') && s'.link.conn == Some(c) && s'.link.conns[c].connectedAt == Some(s.clock)
            && s'.subs == s.subs && s'.clock == s.clock && r.snapshot == s.subs
            && if s.subs == [] then At(s', Supervisor, SupTop) && s'.replays == s.replays + [r]
               else At(s', Supervisor, ReplaySending(r)) && s'.replays == s.replays
  {
    r := NewReplay(s);
    if s.subs != [] {
      r := Extended(cfg.dialect, r, s.core.table.counter + 1);
    }
  }

  /** From the accepted handshake to the pump. */
  lemma ConnectedReads(cfg: Config, s: State, c: nat) returns (steps: seq<Step>, s': State, r: Replay)
    requires EngineInvariants.Inv(cfg, s) && OnTheAir(s) && s.link.conn == Some(c)
    requires At(s, Supervisor, SupHandshake(c))
    ensures Leads(cfg, s, steps, s') && AllOfSupervisor(steps) && Recovered(s, s', c, r)
  {
    var s1;
    s1, r := HandshakeThere(cfg, s, c);
    if s.subs == [] {
      steps, s' := TopReads(cfg, s1);
    } else {
      steps, s', r := SendingEnds(cfg, s1, r);
    }
    FirstThen(cfg, s, HandshakeDone, s1, steps, s');
    steps := [HandshakeDone] + steps;
  }

  lemma SendingEnds(cfg: Config, s: State, r: Replay) returns (steps: seq<Step>, s': State, r': Replay)
    requires EngineInvariants.Inv(cfg, s) && OnTheAir(s) && At(s, Supervisor, ReplaySending(r))
    ensures GetsToRead(cfg, s, steps, s', r') && r'.snapshot == r.snapshot
  {
    var before, s1 := AttemptTimesOut(cfg, s, r);
    var after;
    after, s', r' := ReplayEnds(cfg, s1, r);
    steps := before + after;
    ReadsLater(cfg, s, before, s1, after, s', r');
  }

  lemma ConnectingReads(cfg: Config, s: State, c: nat) returns (steps: seq<Step>, s': State, r: Replay)
    requires EngineInvariants.Inv(cfg, s) && s.link.running && At(s, Supervisor, SupConnecting(c))
    ensures Leads(cfg, s, steps, s') && AllOfSupervisor(steps) && Recovered(s, s', c, r)
  {
    var s1 := SocketThere(cfg, s, c);
    steps, s', r := ConnectedReads(cfg, s1, c);
    FirstThen(cfg, s, Connected, s1, steps, s');
    steps := [Connected] + steps;
  }

  lemma WakesUp(cfg: Config, s: State) returns (s': State)
    requires EngineInvariants.Inv(cfg, s) && s.link.running && At(s, Supervisor, SupAsleep)
    ensures Possible(s, SupWakes) && s' == Next(cfg, s, SupWakes) && EngineInvariants.Inv(cfg, s')
    ensures s'.link.running && At(s', Supervisor, SupConnecting(|s.link.conns|))
    ensures s'.subs == s.subs && s'.clock == s.clock && s'.replays == s.replays
  {
    s' := Next(cfg, s, SupWakes);
    InvKept(cfg, s, SupWakes);
  }

  /** After a drop that the policy answers with a delay the supervisor can bring the client back by itself: on a new
      connection, with its whole registry replayed, even if no replayed subscribe is ever answered. */
  lemma DropRecovers(cfg: Config, s: State, step: Step) returns (steps: seq<Step>, s': State, r: Replay)
    requires EngineInvariants.Inv(cfg, s) && Possible(s, step) && Drops(cfg, s, step)
    requires WaitsAt(cfg, Next(cfg, s, step).attempt)
    ensures Leads(cfg, s, [step] + steps, s') && AllOfSupervisor(steps) && Recovered(s, s', |s.link.conns|, r)
  {
    var s1 := DropWaits(cfg, s, step);
    if At(s1, Supervisor, SupAsleep) {
      var s2 := WakesUp(cfg, s1);
      steps, s', r := ConnectingReads(cfg, s2, |s.link.conns|);
      FirstThen(cfg, s1, SupWakes, s2, steps, s');
      steps := [SupWakes] + steps;
    } else {
      steps, s', r := ConnectingReads(cfg, s1, |s.link.conns|);
    }
    FirstThen(cfg, s, step, s1, steps, s');
  }

  lemma DropWaits(cfg: Config, s: State, step: Step) returns (s': State)
    requires EngineInvariants.Inv(cfg, s) && Possible(s, step) && Drops(cfg, s, step)
    requires WaitsAt(cfg, Next(cfg, s, step).attempt)
    ensures s' == Next(cfg, s, step) && EngineInvariants.Inv(cfg, s') && s'.link.running
    ensures s'.subs == s.subs && s'.clock == s.clock && s'.replays == s.replays
    ensures (At(s', Supervisor, SupAsleep) && |s'.link.conns| == |s.link.conns|)
            || At(s', Supervisor, SupConnecting(|s.link.conns|))
  {
    s' := Next(cfg, s, step);
    DropNext(cfg, s, step);
    PumpWaits(cfg, s);
    InvKept(cfg, s, step);
  }

  lemma PumpWaits(cfg: Config, s: State)
    requires s.link.running && WaitsAt(cfg, AfterPump(cfg, s).attempt)
    ensures var s1, pc, n := AfterPump(cfg, s), PumpPc(cfg, s), |s.link.conns|;
            && s1.link.running && s1.subs == s.subs && s1.clock == s.clock && s1.replays == s.replays
            && ((pc == SupAsleep && |s1.link.conns| == n) || pc == SupConnecting(n))
  {
  }
}
