/** What becomes of every frame over every run: it is dispatched once, on the table it finds, and handed on at most
    once. */
module DispatchTheorems {
  import opened Wire
  import opened Dialects
  import opened Rpc
  import opened Correlation
  import opened Dispatch
  import opened Engine
  import opened EngineInvariants
  import opened EngineTheorems

  // ---- the supervisor between its own steps -------------------------------------------------

  predicate MovesSupervisor(step: Step) {
    || OfSupervisor(step) || (step.Sent? && step.task == Supervisor)
    || (step.EndWait? && step.task == Supervisor)
  }

  /** The supervisor takes no step from `i` up to `j`. */
  predicate Rests(steps: seq<Step>, i: nat, j: nat) {
    forall m :: i <= m < j && m < |steps| ==> !MovesSupervisor(steps[m])
  }

  lemma MoverLeavesSupervisor(d: Dialect, s: State, s': State, e: Effect, t: Task)
    requires Moves(d, s, s', e, t) && t != Supervisor
    ensures PcOf(s', Supervisor) == PcOf(s, Supervisor)
  {
  }

  /** Nobody else moves a supervisor that is not over. */
  lemma OthersLeave(cfg: Config, s: State, step: Step)
    requires EngineInvariants.Inv(cfg, s) && Possible(s, step) && !MovesSupervisor(step) && !Finished(s, Supervisor)
    ensures PcOf(Next(cfg, s, step), Supervisor) == PcOf(s, Supervisor)
  {
    if OfHeartbeat(step) {
      HeartbeatMoves(cfg, s, step.n, s.pcs[Heartbeat(step.n)], step);
    } else if OfLifecycle(step) {
      LifecycleLeaves(cfg, s, step);
    } else if step.EndWait? {
      WaitMoves(cfg, s, step.task, step.how);
    }
  }

  lemma LifecycleLeaves(cfg: Config, s: State, step: Step)
    requires Lifecycle(s) && Possible(s, step) && OfLifecycle(step) && !Finished(s, Supervisor)
    ensures PcOf(Next(cfg, s, step), Supervisor) == PcOf(s, Supervisor)
  {
  }

  lemma {:induction false} RestingSupervisor(cfg: Config, ss: seq<State>, steps: seq<Step>, i: nat, j: nat)
    requires IsRun(cfg, ss, steps) && i <= j < |ss| && Rests(steps, i, j) && !Finished(ss[i], Supervisor)
    ensures PcOf(ss[j], Supervisor) == PcOf(ss[i], Supervisor)
    decreases j
  {
    if i < j {
      RestingSupervisor(cfg, ss, steps, i, j - 1);
      Reachable(cfg, ss, steps, j - 1);
      assert Takes(cfg, ss, steps, j - 1);
      OthersLeave(cfg, ss[j - 1], steps[j - 1]);
    }
  }

  // ---- forwards -----------------------------------------------------------------------------

  /** The step that takes `msg` from the socket. */
  predicate TakesFrame(s: State, step: Step, msg: Frame) {
    step == FrameArrives(msg) && s.link.running
  }

  /** The step that hands `msg` on to the handlers, by the table of that moment. */
  predicate HandsOn(cfg: Config, s: State, step: Step, msg: Frame) {
    step == HookReturns && PcOf(s, Supervisor) == Some(SupHook(msg)) && RoutingAt(cfg, s, msg).Push?
  }

  lemma FrameTaken(cfg: Config, s: State, msg: Frame)
    requires Possible(s, FrameArrives(msg)) && s.link.running
    ensures PcOf(Next(cfg, s, FrameArrives(msg)), Supervisor) == Some(SupHook(msg))
  {
  }

  /** The next thing the supervisor does with a frame that has arrived is to dispatch it, unless a stop() cancels it. */
  lemma FrameIsHooked(cfg: Config, ss: seq<State>, steps: seq<Step>, i: nat, j: nat, msg: Frame)
    requires IsRun(cfg, ss, steps) && i < j < |steps| && TakesFrame(ss[i], steps[i], msg)
    requires Rests(steps, i + 1, j) && MovesSupervisor(steps[j])
    ensures PcOf(ss[j], Supervisor) == Some(SupHook(msg)) && (steps[j].HookReturns? || steps[j].SupCancelled?)
  {
    assert Takes(cfg, ss, steps, i) && Takes(cfg, ss, steps, j);
    FrameTaken(cfg, ss[i], msg);
    RestingSupervisor(cfg, ss, steps, i + 1, j);
    MovesFromFrame(ss[j], steps[j], msg);
  }

  /** What a supervisor that is on a frame can do. */
  lemma MovesFromFrame(s: State, step: Step, msg: Frame)
    requires Possible(s, step) && MovesSupervisor(step)
    ensures PcOf(s, Supervisor) == Some(SupHook(msg)) ==> step.HookReturns? || step.SupCancelled?
    ensures PcOf(s, Supervisor) == Some(SupDeliver(msg)) ==>
              step.DeliverReturns? || step.PumpEnds? || step.SupCancelled?
  {
  }

  /** Where dispatching leads, by the table that is found then: a consumed frame is done with, one that is handed on
      goes to the handlers, and one that cannot be looked up ends the pump. */
  lemma HookLeads(cfg: Config, s: State)
    requires Possible(s, HookReturns)
    ensures var msg, pc := s.pcs[Supervisor].msg, PcOf(Next(cfg, s, HookReturns), Supervisor);
            match RoutingAt(cfg, s, msg)
            case Consumed => pc == Some(SupPump)
            case Push => pc == Some(SupDeliver(msg))
            case Raised => pc == Some(PumpPc(cfg, s))
  {
  }

  /** The next thing the supervisor does with a frame that is handed on is to come back from its handlers, or out of the
      pump if its channel cannot be looked up, unless a stop() cancels it. */
  lemma DeliveryEnds(cfg: Config, ss: seq<State>, steps: seq<Step>, k: nat, j: nat, msg: Frame)
    requires IsRun(cfg, ss, steps) && k < j < |steps| && HandsOn(cfg, ss[k], steps[k], msg)
    requires Rests(steps, k + 1, j) && MovesSupervisor(steps[j])
    ensures PcOf(ss[j], Supervisor) == Some(SupDeliver(msg))
    ensures steps[j].DeliverReturns? || steps[j].PumpEnds? || steps[j].SupCancelled?
  {
    assert Takes(cfg, ss, steps, k) && Takes(cfg, ss, steps, j);
    HookLeads(cfg, ss[k]);
    RestingSupervisor(cfg, ss, steps, k + 1, j);
    MovesFromFrame(ss[j], steps[j], msg);
  }

  // ---- backwards ----------------------------------------------------------------------------

  /** What can lead the supervisor to a frame. */
  lemma FrameComesFrom(cfg: Config, s: State, pc: Pc, step: Step, msg: Frame)
    requires PcOf(s, Supervisor) == Some(pc) && SupervisorMay(s, pc, step)
    ensures SupervisorPc(cfg, s, pc, step) == SupHook(msg) ==> TakesFrame(s, step, msg)
    ensures SupervisorPc(cfg, s, pc, step) == SupDeliver(msg) ==> HandsOn(cfg, s, step, msg)
  {
  }

  /** No step but these leads it there. */
  predicate FrameFrom(cfg: Config, s: State, step: Step, s': State, msg: Frame) {
    && (PcOf(s', Supervisor) == Some(SupHook(msg)) ==>
          if MovesSupervisor(step) then TakesFrame(s, step, msg) else PcOf(s, Supervisor) == Some(SupHook(msg)))
    && (PcOf(s', Supervisor) == Some(SupDeliver(msg)) ==>
          if MovesSupervisor(step) then HandsOn(cfg, s, step, msg) else PcOf(s, Supervisor) == Some(SupDeliver(msg)))
  }

  lemma OwnFrameFrom(cfg: Config, s: State, step: Step, msg: Frame)
    requires EngineInvariants.Inv(cfg, s) && Possible(s, step) && OfSupervisor(step)
    ensures FrameFrom(cfg, s, step, Next(cfg, s, step), msg)
  {
    FrameComesFrom(cfg, s, s.pcs[Supervisor], step, msg);
  }

  lemma WaitFrameFrom(cfg: Config, s: State, step: Step, msg: Frame)
    requires EngineInvariants.Inv(cfg, s) && Possible(s, step)
    requires (step.Sent? || step.EndWait?) && step.task == Supervisor
    ensures FrameFrom(cfg, s, step, Next(cfg, s, step), msg)
  {
    if step.EndWait? {
      ReplayGoesOn(cfg, s, step.how);
    } else {
      ReplaySent(cfg, s);
    }
  }

  lemma ReplaySent(cfg: Config, s: State)
    requires Kinds(s) && Possible(s, Sent(Supervisor))
    ensures var pc := PcOf(Next(cfg, s, Sent(Supervisor)), Supervisor); pc.Some? && Replaying(pc.value)
  {
    SendRegisters(cfg.dialect, s.core, Supervisor, s.pcs[Supervisor]);
  }

  lemma OthersFrameFrom(cfg: Config, s: State, step: Step, msg: Frame)
    requires EngineInvariants.Inv(cfg, s) && Possible(s, step) && !MovesSupervisor(step)
    ensures FrameFrom(cfg, s, step, Next(cfg, s, step), msg)
  {
    OthersBefore(cfg, s, step);
  }

  lemma FramesFrom(cfg: Config, s: State, step: Step, msg: Frame)
    requires EngineInvariants.Inv(cfg, s) && Possible(s, step)
    ensures FrameFrom(cfg, s, step, Next(cfg, s, step), msg)
  {
    if OfSupervisor(step) {
      OwnFrameFrom(cfg, s, step, msg);
    } else if MovesSupervisor(step) {
      WaitFrameFrom(cfg, s, step, msg);
    } else {
      OthersFrameFrom(cfg, s, step, msg);
    }
  }

  lemma RunFramesFrom(cfg: Config, ss: seq<State>, steps: seq<Step>, i: nat, msg: Frame)
    requires IsRun(cfg, ss, steps) && i < |steps|
    ensures FrameFrom(cfg, ss[i], steps[i], ss[i + 1], msg)
  {
    Reachable(cfg, ss, steps, i);
    assert Takes(cfg, ss, steps, i);
    FramesFrom(cfg, ss[i], steps[i], msg);
  }

  lemma OthersBefore(cfg: Config, s: State, step: Step)
    requires EngineInvariants.Inv(cfg, s) && Possible(s, step) && !MovesSupervisor(step)
    ensures var pc, pc' := PcOf(s, Supervisor), PcOf(Next(cfg, s, step), Supervisor); pc' == pc || pc' == Some(SupTop)
  {
    if OfHeartbeat(step) {
      HeartbeatMoves(cfg, s, step.n, s.pcs[Heartbeat(step.n)], step);
    } else if OfLifecycle(step) {
      LifecycleBefore(cfg, s, step);
    } else if step.EndWait? {
      WaitMoves(cfg, s, step.task, step.how);
    }
  }

  lemma LifecycleBefore(cfg: Config, s: State, step: Step)
    requires Possible(s, step) && OfLifecycle(step)
    ensures var pc, pc' := PcOf(s, Supervisor), PcOf(Next(cfg, s, step), Supervisor); pc' == pc || pc' == Some(SupTop)
  {
  }

  lemma ReplayGoesOn(cfg: Config, s: State, how: How)
    requires EngineInvariants.Inv(cfg, s) && Possible(s, EndWait(Supervisor, how))
    ensures var pc := PcOf(Next(cfg, s, EndWait(Supervisor, how)), Supervisor);
            pc.Some? && (pc.value.Over? || Replaying(pc.value))
  {
    WaitRegisters(cfg.dialect, s.link, Supervisor, s.pcs[Supervisor], how,
                  OutcomeAt(s.core.table, s.core.held[Supervisor].fut));
  }

  /** Behind a frame that the supervisor is on there is its arrival, and the supervisor has done nothing since. */
  lemma {:induction false} HookBehind(cfg: Config, ss: seq<State>, steps: seq<Step>, k: nat, msg: Frame)
    returns (i: nat)
    requires IsRun(cfg, ss, steps) && k < |ss| && PcOf(ss[k], Supervisor) == Some(SupHook(msg))
    ensures i < k && TakesFrame(ss[i], steps[i], msg) && Rests(steps, i + 1, k)
  {
    i := k - 1;
    RunFramesFrom(cfg, ss, steps, i, msg);
    if !MovesSupervisor(steps[i]) {
      i := HookBehind(cfg, ss, steps, i, msg);
    }
  }

  /** Behind a frame that is with the handlers there is the step that handed it on by the table of that moment. */
  lemma {:induction false} DeliverBehind(cfg: Config, ss: seq<State>, steps: seq<Step>, j: nat, msg: Frame)
    returns (k: nat)
    requires IsRun(cfg, ss, steps) && j < |ss| && PcOf(ss[j], Supervisor) == Some(SupDeliver(msg))
    ensures k < j && HandsOn(cfg, ss[k], steps[k], msg) && Rests(steps, k + 1, j)
  {
    k := j - 1;
    RunFramesFrom(cfg, ss, steps, k, msg);
    if !MovesSupervisor(steps[k]) {
      k := DeliverBehind(cfg, ss, steps, k, msg);
    }
  }

  /** Frames are dispatched once each and in the order of their arrival: behind two dispatching steps of a run there are
      two arrivals, the second of them after the first dispatching step. */
  lemma DispatchedOnce(cfg: Config, ss: seq<State>, steps: seq<Step>, k: nat, l: nat) returns (i: nat, j: nat)
    requires IsRun(cfg, ss, steps) && k < l < |steps| && steps[k] == HookReturns && steps[l] == HookReturns
    requires Possible(ss[k], HookReturns) && Possible(ss[l], HookReturns)
    ensures i < k < j < l
    ensures steps[i] == FrameArrives(ss[k].pcs[Supervisor].msg) && steps[j] == FrameArrives(ss[l].pcs[Supervisor].msg)
    ensures Rests(steps, i + 1, k) && Rests(steps, j + 1, l)
  {
    i := HookBehind(cfg, ss, steps, k, ss[k].pcs[Supervisor].msg);
    j := HookBehind(cfg, ss, steps, l, ss[l].pcs[Supervisor].msg);
    assert MovesSupervisor(steps[k]);
  }

  // ---- streams in runs ----------------------------------------------------------------------

  /** What the supervisor has dispatched between two moments of a run, each frame with the table it found;
      `handlers(k)` is the handler registry at moment `k`. */
  function DispatchedIn(ss: seq<State>, steps: seq<Step>, handlers: nat -> Handlers, a: nat, b: nat): seq<Arrival>
    decreases b
  {
    if b <= a then []
    else
      DispatchedIn(ss, steps, handlers, a, b - 1)
      + if b <= |steps| && b <= |ss| && steps[b - 1] == HookReturns && Possible(ss[b - 1], HookReturns)
        then [Parsed(ss[b - 1].pcs[Supervisor].msg, ss[b - 1].core.table, handlers(b - 1))] else []
  }

  lemma {:induction false} FoundTables(cfg: Config, ss: seq<State>, steps: seq<Step>, handlers: nat -> Handlers,
                                       a: nat, b: nat)
    requires IsRun(cfg, ss, steps)
    ensures forall x :: x in DispatchedIn(ss, steps, handlers, a, b) ==> x.Parsed? && WellFormed(x.found)
    decreases b
  {
    if b > a {
      FoundTables(cfg, ss, steps, handlers, a, b - 1);
      if b <= |ss| {
        Reachable(cfg, ss, steps, b - 1);
      }
    }
  }

  /** The stream law holds of every stretch of every run, with the tables that the interleaving of callers, heartbeats,
      timeouts and drops has brought about; and each dispatching step leaves the table as the dispatcher does. */
  lemma RunStream(cfg: Config, ss: seq<State>, steps: seq<Step>, u: Setup, handlers: nat -> Handlers, a: nat, b: nat)
    requires IsRun(cfg, ss, steps) && u.dialect == cfg.dialect
    ensures var stream := DispatchedIn(ss, steps, handlers, a, b);
            var p := PumpAll(u, stream);
            && p.read <= |stream| && (!p.raised ==> p.read == |stream|) && TraceIs(u, p, stream[..p.read])
            && forall x :: x in stream ==> x.Parsed? && WellFormed(x.found) && SettlesAtMostOne(u, x)
  {
    FoundTables(cfg, ss, steps, handlers, a, b);
    StreamLaw(u, DispatchedIn(ss, steps, handlers, a, b));
  }
}
