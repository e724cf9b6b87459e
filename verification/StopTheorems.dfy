/** What stop() achieves, at whatever point it is called, and exactly when it does not. */
module StopTheorems {
  import opened Wire
  import opened Dialects
  import opened Rpc
  import opened Correlation
  import opened Reconnect
  import opened Connections
  import opened Engine
  import opened EngineInvariants
  import opened EngineTheorems
  import opened DropTheorems

  // ---- stop() can always be carried through -------------------------------------------------

  /** The steps of stop() itself, and the cancellations it delivers. */
  predicate OfStop(step: Step) {
    || step.StopCall? || step.StopJoinedSupervisor? || step.StopJoinedHeartbeat? || step.StopClosed?
    || step.SupCancelled? || step.BeatCancelled? || (step.EndWait? && step.how.TaskCancelled?)
  }

  predicate AllOfStop(steps: seq<Step>) {
    forall i :: 0 <= i < |steps| ==> OfStop(steps[i])
  }

  /** A cancelled supervisor is over, and the stop goes on where it was. */
  lemma CancelledSupervisor(cfg: Config, s: State)
    requires Possible(s, SupCancelled) && !s.link.running
    ensures var s' := Next(cfg, s, SupCancelled);
            Finished(s', Supervisor) && s'.stopping == s.stopping && s'.starting == s.starting
  {
  }

  lemma CancelledWait(cfg: Config, s: State, t: Task)
    requires Kinds(s) && Possible(s, EndWait(t, TaskCancelled)) && !t.Caller?
    ensures var s' := Next(cfg, s, EndWait(t, TaskCancelled));
            Finished(s', t) && s'.stopping == s.stopping && s'.starting == s.starting
  {
    CancelledPc(cfg.dialect, s.link, t, s.pcs[t], OutcomeAt(s.core.table, s.core.held[t].fut));
    WaitMoves(cfg, s, t, TaskCancelled);
  }

  lemma CancelledPc(d: Dialect, link: Link, t: Task, pc: Pc, outcome: Outcome)
    requires FitsTask(t, pc) && Waiting(pc) && !t.Caller?
    ensures WaitPc(d, link, pc, TaskCancelled, outcome).Over?
  {
  }

  lemma CancelledHeartbeat(cfg: Config, s: State, n: nat)
    requires Possible(s, BeatCancelled(n))
    ensures var s' := Next(cfg, s, BeatCancelled(n));
            Finished(s', Heartbeat(n)) && s'.stopping == s.stopping && s'.starting == s.starting
  {
  }

  /** Wherever the supervisor is suspended, the cancellation that stop() delivers ends it in one step. */
  lemma CancelEndsSupervisor(cfg: Config, s: State) returns (step: Step)
    requires EngineInvariants.Inv(cfg, s) && s.stopping.JoinSupervisor? && !Finished(s, Supervisor)
    ensures Possible(s, step) && OfStop(step)
    ensures var s' := Next(cfg, s, step);
            Finished(s', Supervisor) && s'.stopping == s.stopping && s'.starting == s.starting
  {
    if Waiting(s.pcs[Supervisor]) {
      step := EndWait(Supervisor, TaskCancelled);
      WaitCancellable(s, Supervisor);
      CancelledWait(cfg, s, Supervisor);
    } else {
      step := SupCancelled;
      CancelledSupervisor(cfg, s);
    }
  }

  lemma WaitCancellable(s: State, t: Task)
    requires WaitersHold(s) && Suspended(s, t) && Cancellable(s, t)
    ensures Possible(s, EndWait(t, TaskCancelled))
  {
  }

  lemma CancelEndsHeartbeat(cfg: Config, s: State) returns (step: Step)
    requires EngineInvariants.Inv(cfg, s) && s.stopping.JoinHeartbeat? && !JoinedHeartbeat(s, s.stopping.known)
    ensures Possible(s, step) && OfStop(step)
    ensures var s' := Next(cfg, s, step);
            JoinedHeartbeat(s', s.stopping.known) && s'.stopping == s.stopping && s'.starting == s.starting
  {
    var n := s.stopping.known - 1;
    if Waiting(s.pcs[Heartbeat(n)]) {
      step := EndWait(Heartbeat(n), TaskCancelled);
      WaitCancellable(s, Heartbeat(n));
      CancelledWait(cfg, s, Heartbeat(n));
    } else {
      step := BeatCancelled(n);
      CancelledHeartbeat(cfg, s, n);
    }
  }

  /** A stop in progress can be completed from `s` within `n` steps of its own. */
  ghost predicate Completes(cfg: Config, s: State, steps: seq<Step>, s': State, n: nat) {
    && Leads(cfg, s, steps, s') && |steps| <= n && AllOfStop(steps)
    && s'.quiet && s'.starting == s.starting && EngineInvariants.Inv(cfg, s')
  }

  lemma PrependStop(cfg: Config, s: State, step: Step, steps: seq<Step>, s': State, n: nat)
    requires Possible(s, step) && OfStop(step) && Next(cfg, s, step).starting == s.starting
    requires Completes(cfg, Next(cfg, s, step), steps, s', n)
    ensures Completes(cfg, s, [step] + steps, s', n + 1)
  {
    Prepend(cfg, s, step, steps, s');
  }

  lemma StopStage(cfg: Config, s: State, step: Step)
    requires Possible(s, step) && OfStop(step) && OfLifecycle(step)
    ensures var s' := Next(cfg, s, step);
            && s'.starting == s.starting
            && (step.StopCall? && s.link.running ==>
                  s'.stopping == if Finished(s, Supervisor) then JoinHeartbeat(s.beats) else JoinSupervisor(s.beats))
            && (step.StopJoinedSupervisor? ==> s'.stopping == JoinHeartbeat(s.stopping.known))
            && (step.StopJoinedHeartbeat? ==> s'.stopping == Closing(s.stopping.known))
            && (step.StopClosed? ==> s'.stopping == NotStopping && s'.quiet)
  {
  }

  lemma StopStep(cfg: Config, s: State, step: Step, steps: seq<Step>, s': State, n: nat)
    requires Possible(s, step) && OfStop(step) && OfLifecycle(step)
    requires Completes(cfg, Next(cfg, s, step), steps, s', n)
    ensures Completes(cfg, s, [step] + steps, s', n + 1)
  {
    StopStage(cfg, s, step);
    PrependStop(cfg, s, step, steps, s', n);
  }

  lemma StageKept(cfg: Config, s: State, step: Step)
    requires EngineInvariants.Inv(cfg, s) && Possible(s, step) && OfStop(step) && OfLifecycle(step)
    ensures EngineInvariants.Inv(cfg, Next(cfg, s, step)) && Next(cfg, s, step).starting == s.starting
    ensures step.StopJoinedSupervisor? ==> Next(cfg, s, step).stopping.JoinHeartbeat?
    ensures step.StopJoinedHeartbeat? ==> Next(cfg, s, step).stopping.Closing?
    ensures step.StopClosed? ==> Next(cfg, s, step).quiet
    ensures step.StopCall? && s.link.running ==>
              Next(cfg, s, step).stopping.JoinHeartbeat? || Next(cfg, s, step).stopping.JoinSupervisor?
  {
    InvKept(cfg, s, step);
    StopStage(cfg, s, step);
  }

  lemma FinishStop(cfg: Config, s: State) returns (steps: seq<Step>, s': State)
    requires EngineInvariants.Inv(cfg, s) && s.stopping.Closing?
    ensures Completes(cfg, s, steps, s', 1)
  {
    StageKept(cfg, s, StopClosed);
    s' := Next(cfg, s, StopClosed);
    StopStep(cfg, s, StopClosed, [], s', 0);
    steps := [StopClosed] + [];
  }

  lemma CloseStop(cfg: Config, s: State) returns (steps: seq<Step>, s': State)
    requires EngineInvariants.Inv(cfg, s) && s.stopping.JoinHeartbeat? && JoinedHeartbeat(s, s.stopping.known)
    ensures Completes(cfg, s, steps, s', 2)
  {
    StageKept(cfg, s, StopJoinedHeartbeat);
    steps, s' := FinishStop(cfg, Next(cfg, s, StopJoinedHeartbeat));
    StopStep(cfg, s, StopJoinedHeartbeat, steps, s', 1);
    steps := [StopJoinedHeartbeat] + steps;
  }

  lemma JoinHeartbeatStop(cfg: Config, s: State) returns (steps: seq<Step>, s': State)
    requires EngineInvariants.Inv(cfg, s) && s.stopping.JoinHeartbeat?
    ensures Completes(cfg, s, steps, s', 3)
  {
    if JoinedHeartbeat(s, s.stopping.known) {
      steps, s' := CloseStop(cfg, s);
    } else {
      var cancel := CancelEndsHeartbeat(cfg, s);
      InvKept(cfg, s, cancel);
      steps, s' := CloseStop(cfg, Next(cfg, s, cancel));
      PrependStop(cfg, s, cancel, steps, s', 2);
      steps := [cancel] + steps;
    }
  }

  lemma JoinedSupervisorStop(cfg: Config, s: State) returns (steps: seq<Step>, s': State)
    requires EngineInvariants.Inv(cfg, s) && s.stopping.JoinSupervisor? && Finished(s, Supervisor)
    ensures Completes(cfg, s, steps, s', 4)
  {
    StageKept(cfg, s, StopJoinedSupervisor);
    steps, s' := JoinHeartbeatStop(cfg, Next(cfg, s, StopJoinedSupervisor));
    StopStep(cfg, s, StopJoinedSupervisor, steps, s', 3);
    steps := [StopJoinedSupervisor] + steps;
  }

  lemma JoinSupervisorStop(cfg: Config, s: State) returns (steps: seq<Step>, s': State)
    requires EngineInvariants.Inv(cfg, s) && s.stopping.JoinSupervisor?
    ensures Completes(cfg, s, steps, s', 5)
  {
    if Finished(s, Supervisor) {
      steps, s' := JoinedSupervisorStop(cfg, s);
    } else {
      var cancel := CancelEndsSupervisor(cfg, s);
      InvKept(cfg, s, cancel);
      steps, s' := JoinedSupervisorStop(cfg, Next(cfg, s, cancel));
      PrependStop(cfg, s, cancel, steps, s', 4);
      steps := [cancel] + steps;
    }
  }

  /** stop() can always be carried through: called at any point of a run at which the client runs, even while a
      start() is under way, and whatever the supervisor, the heartbeat and the callers are doing, its own steps and
      one cancellation of each task it joins lead to a quiet state. Where the client does not run it returns at once,
      and changes nothing. */
  lemma StopCompletes(cfg: Config, s: State) returns (steps: seq<Step>, s': State)
    requires EngineInvariants.Inv(cfg, s)
    ensures Possible(s, StopCall)
    ensures if s.link.running then Completes(cfg, s, [StopCall] + steps, s', 6)
            else s' == Next(cfg, s, StopCall) == s && steps == []
  {
    if s.link.running {
      steps, s' := RunningStop(cfg, s);
    } else {
      steps, s' := [], s;
      StopIgnored(cfg, s);
    }
  }

  lemma StopIgnored(cfg: Config, s: State)
    requires !s.link.running
    ensures Possible(s, StopCall) && Next(cfg, s, StopCall) == s
  {
  }

  lemma CalledStop(cfg: Config, s: State) returns (steps: seq<Step>, s': State)
    requires EngineInvariants.Inv(cfg, s) && (s.stopping.JoinHeartbeat? || s.stopping.JoinSupervisor?)
    ensures Completes(cfg, s, steps, s', 5)
  {
    if s.stopping.JoinHeartbeat? {
      steps, s' := JoinHeartbeatStop(cfg, s);
    } else {
      steps, s' := JoinSupervisorStop(cfg, s);
    }
  }

  lemma RunningStop(cfg: Config, s: State) returns (steps: seq<Step>, s': State)
    requires EngineInvariants.Inv(cfg, s) && s.link.running
    ensures Completes(cfg, s, [StopCall] + steps, s', 6)
  {
    StageKept(cfg, s, StopCall);
    steps, s' := CalledStop(cfg, Next(cfg, s, StopCall));
    StopStep(cfg, s, StopCall, steps, s', 5);
  }

  // ---- what a completed stop leaves ---------------------------------------------------------

  /** Of all connections, exactly the current one is closed. */
  predicate ClosesCurrent(l: Link, l': Link) {
    && l'.conn == None && |l'.conns| == |l.conns|
    && forall c: nat :: c < |l.conns| ==> (l'.conns[c].open <==> l.conns[c].open && l.conn != Some(c))
  }

  /** The step that completes a stop: the supervisor and the heartbeat it knew are over, the connection that was
      current is closed and forgotten, and every future that was registered is done. A supervisor that has been
      created meanwhile has not had its first turn, at which it ends. A connection that is open and not current stays
      open. */
  lemma StopClosesCurrent(cfg: Config, s: State, f: nat)
    requires EngineInvariants.Inv(cfg, s) && Possible(s, StopClosed)
    ensures var s' := Next(cfg, s, StopClosed);
            && s'.quiet && Idle(s') && JoinedHeartbeat(s', s.stopping.known) && ClosesCurrent(s.link, s'.link)
            && (f < |s.core.table.futures| && Registered(s.core.table, f) ==> SettledIn(s'.core, f))
  {
    CloseNext(cfg, s);
    CloseLinks(s.link);
    FlushSettles(s.core.table, f);
  }

  lemma CloseLinks(l: Link)
    ensures ClosesCurrent(l, l.Closed())
  {
  }

  lemma CloseNext(cfg: Config, s: State)
    requires Possible(s, StopClosed)
    ensures Next(cfg, s, StopClosed)
         == s.(link := s.link.Closed(), stopping := NotStopping, quiet := true,
               core := s.core.(table := Flush(s.core.table, Cancelled)))
  {
  }

  lemma FlushSettles(t: Table, f: nat)
    ensures f < |t.futures| && Registered(t, f) ==>
              !Flush(t, Cancelled).futures[f].outcome.Pending?
  {
  }

  // ---- connections that stay open -----------------------------------------------------------

  /** Connection `c` is open though it is not current. */
  predicate Stray(l: Link, c: nat) {
    c < |l.conns| && l.conns[c].open && l.conn != Some(c)
  }

  /** The socket of `c` drops, or a heartbeat that decided to close `c` while it was current does so. */
  predicate Closes(s: State, step: Step, c: nat) {
    || step == SocketDrops(c)
    || (step.BeatCloseDone? && Heartbeat(step.n) in s.pcs
        && s.pcs[Heartbeat(step.n)].BeatClosing? && s.pcs[Heartbeat(step.n)].target == c)
  }

  /** Another connection takes the place of `c`, which is open. */
  predicate Replaces(l: Link, l': Link, c: nat) {
    l.conn == Some(c) && l.IsConnected() && l'.conn.Some? && l'.conn != Some(c)
  }

  /** The socket of a start() that has been stopped meanwhile opens. */
  predicate OpensLate(s: State, step: Step, c: nat) {
    step == StartConnected && s.starting == StartConnecting(c) && s.link.conn != Some(c)
  }

  predicate StrayLaw(s: State, step: Step, l': Link, c: nat) {
    Stray(l', c) <==>
      (Stray(s.link, c) && !Closes(s, step, c)) || Replaces(s.link, l', c) || OpensLate(s, step, c)
  }

  lemma SupervisorStray(cfg: Config, s: State, pc: Pc, step: Step, c: nat)
    requires Lifecycle(s) && PcOf(s, Supervisor) == Some(pc) && SupervisorMay(s, pc, step)
    ensures StrayLaw(s, step, SupervisorNext(cfg, s, pc, step).link, c)
  {
    if EndsPump(step) {
      PumpStray(cfg, s, step, c);
    }
  }

  lemma PumpStray(cfg: Config, s: State, step: Step, c: nat)
    requires s.link.Valid() && EndsPump(step)
    ensures StrayLaw(s, step, AfterPump(cfg, s).link, c) && StrayLaw(s, step, s.link, c)
  {
  }

  lemma HeartbeatStray(cfg: Config, s: State, n: nat, pc: Pc, step: Step, c: nat)
    requires OfHeartbeat(step) && step.n == n && PcOf(s, Heartbeat(n)) == Some(pc) && HeartbeatMay(s, n, pc, step)
    ensures StrayLaw(s, step, HeartbeatNext(cfg, s, n, pc, step).link, c)
  {
  }

  lemma LifecycleStray(cfg: Config, s: State, step: Step, c: nat)
    requires Lifecycle(s) && LifecycleMay(s, step)
    ensures StrayLaw(s, step, LifecycleNext(cfg, s, step).link, c)
  {
  }

  /** How connections come to be open without being current, and cease to be so. Nobody but a heartbeat that had decided
      so closes such a connection; stop() does not. */
  lemma StrayStep(cfg: Config, s: State, step: Step, c: nat)
    requires EngineInvariants.Inv(cfg, s) && Possible(s, step)
    ensures StrayLaw(s, step, Next(cfg, s, step).link, c)
  {
    if OfSupervisor(step) {
      SupervisorStray(cfg, s, s.pcs[Supervisor], step, c);
    } else if OfHeartbeat(step) {
      HeartbeatStray(cfg, s, step.n, s.pcs[Heartbeat(step.n)], step, c);
    } else if OfLifecycle(step) {
      LifecycleStray(cfg, s, step, c);
    } else if step.EndWait? {
      WaitLink(cfg, s, step.task, step.how);
    }
  }

  // ---- quiescence ---------------------------------------------------------------------------

  predicate AllQuiet(s: State) {
    s.quiet && !s.link.running && s.link.conn == None && s.core.table.pending == map[] && Idle(s)
  }

  lemma QuietMeans(cfg: Config, s: State)
    requires EngineInvariants.Inv(cfg, s) && s.quiet
    ensures AllQuiet(s)
  {
  }

  /** No connection has been made, and none has come open. */
  predicate NothingOpened(l: Link, l': Link) {
    |l'.conns| == |l.conns| && forall c :: 0 <= c < |l.conns| && l'.conns[c].open ==> l.conns[c].open
  }

  /** No connection has been made, and none has come open but the one that a start() is still opening. */
  predicate OnlyStartOpens(s: State, s': State) {
    && |s'.link.conns| == |s.link.conns|
    && forall c: nat :: c < |s.link.conns| && s'.link.conns[c].open ==>
         s.link.conns[c].open || s.starting == StartConnecting(c)
  }

  /** No start() is under way, and the supervisor is over. */
  predicate Settled(s: State) {
    s.starting.NotStarting? && Finished(s, Supervisor)
  }

  /** A start() that is not already connecting will not be until it is called again. */
  predicate StartingOn(s: State, s': State) {
    && (s'.starting.StartConnecting? ==> s'.starting == s.starting)
    && (Settled(s) ==> Settled(s'))
  }

  lemma QuietSupervisor(cfg: Config, s: State, step: Step)
    requires EngineInvariants.Inv(cfg, s) && Possible(s, step) && s.quiet && OfSupervisor(step)
    ensures var s' := Next(cfg, s, step); s'.quiet && s'.link == s.link && s'.starting == s.starting && !Settled(s)
  {
    QuietOfSupervisor(cfg, s, s.pcs[Supervisor], step);
  }

  lemma QuietLifecycle(cfg: Config, s: State, step: Step)
    requires EngineInvariants.Inv(cfg, s) && Possible(s, step) && s.quiet && OfLifecycle(step) && step != StartCall
    ensures var s' := Next(cfg, s, step); s'.quiet && OnlyStartOpens(s, s') && StartingOn(s, s')
  {
  }

  /** Steps of heartbeats, callers and the environment: they leave the supervision alone. */
  predicate Aside(step: Step) {
    !OfSupervisor(step) && !OfLifecycle(step)
  }

  lemma AsideSupervision(cfg: Config, s: State, step: Step)
    requires EngineInvariants.Inv(cfg, s) && Possible(s, step) && Aside(step)
    ensures SameSupervision(s, Next(cfg, s, step))
  {
    if OfHeartbeat(step) {
      HeartbeatMoves(cfg, s, step.n, s.pcs[Heartbeat(step.n)], step);
    } else {
      match step
      case CallBegin(n, call) => CallMoves(cfg, s, n, call);
      case Sent(task) => SendMoves(cfg, s, task);
      case EndWait(task, how) => WaitMoves(cfg, s, task, how);
      case _ => EnvironmentStands(cfg, s, step);
    }
  }

  lemma AsideQuiet(s: State, s': State)
    requires s.quiet && Idle(s) && SameSupervision(s, s')
    ensures s'.quiet && OnlyStartOpens(s, s') && StartingOn(s, s')
  {
  }

  lemma StaysQuiet(cfg: Config, s: State, step: Step)
    requires EngineInvariants.Inv(cfg, s) && Possible(s, step) && s.quiet && step != StartCall
    ensures var s' := Next(cfg, s, step); s'.quiet && OnlyStartOpens(s, s') && StartingOn(s, s')
  {
    if OfSupervisor(step) {
      QuietSupervisor(cfg, s, step);
    } else if OfLifecycle(step) {
      QuietLifecycle(cfg, s, step);
    } else {
      AsideSupervision(cfg, s, step);
      AsideQuiet(s, Next(cfg, s, step));
    }
  }

  predicate KeptQuiet(s: State, s': State) {
    AllQuiet(s') && OnlyStartOpens(s, s') && StartingOn(s, s')
  }

  lemma QuietChain(s: State, s1: State, s2: State)
    requires KeptQuiet(s, s1) && KeptQuiet(s1, s2)
    ensures KeptQuiet(s, s2)
  {
  }

  lemma QuietStep(cfg: Config, s: State, step: Step)
    requires EngineInvariants.Inv(cfg, s) && Possible(s, step) && s.quiet && step != StartCall
    ensures KeptQuiet(s, Next(cfg, s, step))
  {
    StaysQuiet(cfg, s, step);
    InvKept(cfg, s, step);
    QuietMeans(cfg, Next(cfg, s, step));
  }

  lemma QuietTaken(cfg: Config, ss: seq<State>, steps: seq<Step>, j: nat)
    requires IsRun(cfg, ss, steps) && j < |steps| && ss[j].quiet && !steps[j].StartCall?
    ensures KeptQuiet(ss[j], ss[j + 1])
  {
    Reachable(cfg, ss, steps, j);
    assert Takes(cfg, ss, steps, j);
    QuietStep(cfg, ss[j], steps[j]);
  }

  lemma QuietItself(cfg: Config, s: State)
    requires EngineInvariants.Inv(cfg, s) && s.quiet
    ensures KeptQuiet(s, s)
  {
    QuietMeans(cfg, s);
  }

  /** Quiescence: from the completion of a stop to the next start() the pending map is empty at every scheduling point,
      nothing is current, the supervisor is over or about to end, no connection is made, and none comes open except the
      one that a start() under way was still connecting when the stop completed. */
  lemma {:induction false} QuietUntilStart(cfg: Config, ss: seq<State>, steps: seq<Step>, i: nat, j: nat)
    requires IsRun(cfg, ss, steps) && i <= j < |ss| && ss[i].quiet
    requires forall k :: i <= k < j ==> !steps[k].StartCall?
    ensures KeptQuiet(ss[i], ss[j])
    decreases j
  {
    if i < j {
      QuietUntilStart(cfg, ss, steps, i, j - 1);
      QuietTaken(cfg, ss, steps, j - 1);
      QuietChain(ss[i], ss[j - 1], ss[j]);
    } else {
      Reachable(cfg, ss, steps, j);
      QuietItself(cfg, ss[j]);
    }
  }

  // ---- exactly when -------------------------------------------------------------------------

  predicate NoStart(steps: seq<Step>) {
    StartCall !in steps
  }

  /** Nothing runs, is registered or connected, and nothing has come open since `s`. */
  predicate StillQuiet(s: State, s': State) {
    && !s'.link.running && !s'.link.IsConnected() && s'.core.table.pending == map[] && NothingOpened(s.link, s'.link)
  }

  /** Whatever happens from here on, short of a start(), the client stays quiet. */
  ghost predicate Quiesced(cfg: Config, s: State) {
    forall steps, s' :: NoStart(steps) && Leads(cfg, s, steps, s') ==> StillQuiet(s, s')
  }

  predicate Opening(s: State) {
    s.starting.StartConnecting? || (Supervisor in s.pcs && s.pcs[Supervisor].SupConnecting?)
  }

  /** Nothing runs, nothing is registered or connected, and nobody waits for a socket. */
  predicate Calm(s: State) {
    !s.link.running && !s.link.IsConnected() && s.core.table.pending == map[] && !Opening(s)
  }

  lemma BeginsConnected(cfg: Config, s: State, step: Step)
    requires Possible(s, step)
    ensures EffectOf(cfg, s, step).Begin? ==> s.link.IsConnected()
    ensures EffectOf(cfg, s, step).FlushAll? ==> s.link.running || step.StopClosed?
  {
  }

  lemma CalmTable(cfg: Config, s: State, step: Step)
    requires EngineInvariants.Inv(cfg, s) && Possible(s, step) && Calm(s)
    ensures Next(cfg, s, step).core.table.pending == map[]
  {
    BeginsConnected(cfg, s, step);
    EffectEnabled(cfg, s, step);
    NextCore(cfg, s, step);
    NothingRegistered(cfg.dialect, s.core, EffectOf(cfg, s, step));
  }

  /** The rest of calmness, and what it keeps. */
  predicate StaysCalm(s: State, s': State) {
    !s'.link.running && !s'.link.IsConnected() && !Opening(s') && NothingOpened(s.link, s'.link)
  }

  lemma CalmSupervisor(cfg: Config, s: State, pc: Pc, step: Step)
    requires Calm(s) && PcOf(s, Supervisor) == Some(pc) && SupervisorMay(s, pc, step)
    ensures StaysCalm(s, SupervisorNext(cfg, s, pc, step))
  {
  }

  lemma CalmLifecycle(cfg: Config, s: State, step: Step)
    requires Calm(s) && Lifecycle(s) && LifecycleMay(s, step) && step != StartCall
    ensures StaysCalm(s, LifecycleNext(cfg, s, step))
  {
  }

  lemma CalmAside(s: State, s': State)
    requires Calm(s) && SameSupervision(s, s')
    ensures StaysCalm(s, s')
  {
  }

  lemma CalmStays(cfg: Config, s: State, step: Step)
    requires EngineInvariants.Inv(cfg, s) && Possible(s, step) && Calm(s) && step != StartCall
    ensures StaysCalm(s, Next(cfg, s, step))
  {
    if OfSupervisor(step) {
      CalmSupervisor(cfg, s, s.pcs[Supervisor], step);
    } else if OfLifecycle(step) {
      CalmLifecycle(cfg, s, step);
    } else {
      AsideSupervision(cfg, s, step);
      CalmAside(s, Next(cfg, s, step));
    }
  }

  lemma CalmStep(cfg: Config, s: State, step: Step)
    requires EngineInvariants.Inv(cfg, s) && Possible(s, step) && Calm(s) && step != StartCall
    ensures Calm(Next(cfg, s, step)) && NothingOpened(s.link, Next(cfg, s, step).link)
  {
    CalmTable(cfg, s, step);
    CalmStays(cfg, s, step);
  }

  lemma {:induction false} CalmAlong(cfg: Config, s: State, steps: seq<Step>, s': State)
    requires EngineInvariants.Inv(cfg, s) && Calm(s) && Leads(cfg, s, steps, s') && NoStart(steps)
    ensures StillQuiet(s, s')
    decreases |steps|
  {
    if steps != [] {
      CalmStep(cfg, s, steps[0]);
      InvKept(cfg, s, steps[0]);
      CalmAlong(cfg, Next(cfg, s, steps[0]), steps[1..], s');
    }
  }

  /** Somebody who waits for a socket can get it. */
  lemma SocketOpens(cfg: Config, s: State) returns (after: seq<Step>, s': State)
    requires EngineInvariants.Inv(cfg, s) && Opening(s) && !s.link.IsConnected()
    ensures NoStart(after) && Leads(cfg, s, after, s') && !NothingOpened(s.link, s'.link)
  {
    var step := if s.starting.StartConnecting? then StartConnected else Connected;
    if s.starting.StartConnecting? {
      StartedOpens(cfg, s);
    } else {
      ReopenedOpens(cfg, s);
    }
    s' := Next(cfg, s, step);
    Prepend(cfg, s, step, [], s');
    after := [step] + [];
  }

  lemma StartedOpens(cfg: Config, s: State)
    requires EngineInvariants.Inv(cfg, s) && s.starting.StartConnecting?
    ensures Possible(s, StartConnected)
    ensures var c, link := s.starting.c, Next(cfg, s, StartConnected).link;
            && c < |s.link.conns| && !s.link.conns[c].open && |link.conns| == |s.link.conns| && link.conns[c].open
  {
  }

  lemma ReopenedOpens(cfg: Config, s: State)
    requires Lifecycle(s) && Supervisor in s.pcs && s.pcs[Supervisor].SupConnecting? && !s.link.IsConnected()
    ensures Possible(s, Connected)
    ensures var c, link := s.pcs[Supervisor].c, Next(cfg, s, Connected).link;
            && c < |s.link.conns| && !s.link.conns[c].open && |link.conns| == |s.link.conns| && link.conns[c].open
  {
  }

  lemma Disturbed(cfg: Config, s: State, steps: seq<Step>, s': State)
    requires NoStart(steps) && Leads(cfg, s, steps, s') && !StillQuiet(s, s')
    ensures !Quiesced(cfg, s)
  {
  }

  /** The client is quiesced exactly in the calm states. */
  lemma QuiescedIsCalm(cfg: Config, s: State)
    requires EngineInvariants.Inv(cfg, s)
    ensures Quiesced(cfg, s) <==> Calm(s)
  {
    if Calm(s) {
      forall steps, s' | NoStart(steps) && Leads(cfg, s, steps, s') ensures StillQuiet(s, s') {
        CalmAlong(cfg, s, steps, s');
      }
    } else if !StillQuiet(s, s) {
      Disturbed(cfg, s, [], s);
    } else {
      var after, s' := SocketOpens(cfg, s);
      Disturbed(cfg, s, after, s');
    }
  }

  // ---- stop() -------------------------------------------------------------------------------

  /** A stop() called in `s` has returned by `mid`, whatever steps have come in between. */
  ghost predicate Returned(cfg: Config, s: State, steps: seq<Step>, mid: State) {
    && steps != [] && steps[0] == StopCall && NoStart(steps) && Leads(cfg, s, steps, mid)
    && if s.link.running then mid.quiet else steps == [StopCall]
  }

  lemma StartingKept(cfg: Config, s: State, step: Step)
    requires EngineInvariants.Inv(cfg, s) && Possible(s, step) && step != StartCall
    ensures Next(cfg, s, step).starting.StartConnecting? ==> s.starting.StartConnecting?
  {
    if OfSupervisor(step) {
      SupervisorFrame(cfg, s, s.pcs[Supervisor], step);
    } else if Aside(step) {
      AsideSupervision(cfg, s, step);
    }
  }

  lemma {:induction false} StartingAlong(cfg: Config, s: State, steps: seq<Step>, s': State)
    requires EngineInvariants.Inv(cfg, s) && Leads(cfg, s, steps, s') && NoStart(steps)
    ensures EngineInvariants.Inv(cfg, s') && (s'.starting.StartConnecting? ==> s.starting.StartConnecting?)
    decreases |steps|
  {
    if steps != [] {
      StartingKept(cfg, s, steps[0]);
      InvKept(cfg, s, steps[0]);
      StartingAlong(cfg, Next(cfg, s, steps[0]), steps[1..], s');
    }
  }

  lemma StopsAreNoStarts(steps: seq<Step>)
    requires AllOfStop(steps)
    ensures NoStart(steps)
  {
  }

  /** A completed stop has quiesced the client unless a start() is still waiting for its socket. */
  lemma QuietIsCalm(cfg: Config, s: State)
    requires EngineInvariants.Inv(cfg, s) && s.quiet
    ensures Calm(s) <==> !s.starting.StartConnecting?
  {
    QuietMeans(cfg, s);
  }

  /** Called in a client that does not run, with no start() or stop() under way, a stop() leaves it quiesced exactly
      if it is so already: no open connection is current and nothing is registered. */
  lemma IgnoredIsCalm(cfg: Config, s: State)
    requires EngineInvariants.Inv(cfg, s) && !s.link.running && s.starting.NotStarting? && s.stopping.NotStopping?
    ensures Calm(s) <==> !s.link.IsConnected() && s.core.table.pending == map[]
  {
  }

  /** Where stop() quiesces the client: if it runs, everywhere but where a start() is waiting for its socket; if it does
      not, where it is calm already, for then stop() does nothing. */
  predicate StopSuffices(s: State) {
    if s.link.running then !s.starting.StartConnecting? else Calm(s)
  }

  lemma RunningStopQuiesces(cfg: Config, s: State, steps: seq<Step>, mid: State)
    requires EngineInvariants.Inv(cfg, s) && s.link.running && !s.starting.StartConnecting?
    requires Returned(cfg, s, steps, mid)
    ensures Quiesced(cfg, mid)
  {
    StartingAlong(cfg, s, steps, mid);
    QuietIsCalm(cfg, mid);
    QuiescedIsCalm(cfg, mid);
  }

  /** Where it does not, here is how it returns in a client that is not quiesced. */
  lemma StopFalls(cfg: Config, s: State) returns (steps: seq<Step>, mid: State)
    requires EngineInvariants.Inv(cfg, s) && !StopSuffices(s)
    ensures Returned(cfg, s, steps, mid) && !Quiesced(cfg, mid)
  {
    steps, mid := StopCompletes(cfg, s);
    steps := [StopCall] + steps;
    if s.link.running {
      StopsAreNoStarts(steps);
      QuietIsCalm(cfg, mid);
    } else {
      IgnoredReturns(cfg, s);
    }
    QuiescedIsCalm(cfg, mid);
  }

  lemma IgnoredReturns(cfg: Config, s: State)
    requires !s.link.running
    ensures Returned(cfg, s, [StopCall] + [], s)
  {
    StopIgnored(cfg, s);
    Prepend(cfg, s, StopCall, [], s);
  }

  lemma IgnoredMid(cfg: Config, s: State, steps: seq<Step>, mid: State)
    requires !s.link.running && Returned(cfg, s, steps, mid)
    ensures mid == s
  {
    StopIgnored(cfg, s);
    assert steps[1..] == [] && Leads(cfg, s, steps[1..], mid);
  }

  /** stop() quiesces the client, however it is interleaved and whatever follows, short of a start(), exactly where
      `StopSuffices`: in every state of every run. */
  lemma StopQuiesces(cfg: Config, s: State)
    requires EngineInvariants.Inv(cfg, s)
    ensures (forall steps, mid :: Returned(cfg, s, steps, mid) ==> Quiesced(cfg, mid)) <==> StopSuffices(s)
  {
    if StopSuffices(s) {
      forall steps, mid | Returned(cfg, s, steps, mid) ensures Quiesced(cfg, mid) {
        if s.link.running {
          RunningStopQuiesces(cfg, s, steps, mid);
        } else {
          IgnoredMid(cfg, s, steps, mid);
          QuiescedIsCalm(cfg, mid);
        }
      }
    } else {
      var steps, mid := StopFalls(cfg, s);
    }
  }

  /** Called with no start() under way, a stop leaves the supervisor over when it completes. */
  predicate Undisturbed(s: State) {
    s.starting.NotStarting? && (s.stopping.JoinSupervisor? || Finished(s, Supervisor))
  }

  lemma UndisturbedKept(cfg: Config, s: State, step: Step)
    requires EngineInvariants.Inv(cfg, s) && Possible(s, step) && step != StartCall
    requires Undisturbed(s) && !s.link.running
    ensures var s' := Next(cfg, s, step); Undisturbed(s') && !s'.link.running
  {
    if OfSupervisor(step) {
      UndisturbedSupervisor(cfg, s, step);
    } else if OfLifecycle(step) {
      UndisturbedLifecycle(cfg, s, step);
    } else {
      AsideSupervision(cfg, s, step);
      UndisturbedAside(s, Next(cfg, s, step));
    }
  }

  lemma UndisturbedAside(s: State, s': State)
    requires Undisturbed(s) && !s.link.running && SameSupervision(s, s')
    ensures Undisturbed(s') && !s'.link.running
  {
  }

  lemma UndisturbedSupervisor(cfg: Config, s: State, step: Step)
    requires EngineInvariants.Inv(cfg, s) && Possible(s, step) && OfSupervisor(step)
    requires Undisturbed(s) && !s.link.running
    ensures var s' := Next(cfg, s, step); Undisturbed(s') && !s'.link.running
  {
    SupervisorFrame(cfg, s, s.pcs[Supervisor], step);
  }

  lemma UndisturbedLifecycle(cfg: Config, s: State, step: Step)
    requires Possible(s, step) && OfLifecycle(step) && step != StartCall && Undisturbed(s) && !s.link.running
    ensures var s' := Next(cfg, s, step); Undisturbed(s') && !s'.link.running
  {
  }

  lemma {:induction false} UndisturbedAlong(cfg: Config, s: State, steps: seq<Step>, s': State)
    requires EngineInvariants.Inv(cfg, s) && Leads(cfg, s, steps, s') && NoStart(steps)
    requires Undisturbed(s) && !s.link.running
    ensures EngineInvariants.Inv(cfg, s') && Undisturbed(s') && !s'.link.running
    decreases |steps|
  {
    if steps != [] {
      UndisturbedKept(cfg, s, steps[0]);
      InvKept(cfg, s, steps[0]);
      UndisturbedAlong(cfg, Next(cfg, s, steps[0]), steps[1..], s');
    }
  }

  /** Called with no start() under way, a stop that completes, however it is interleaved, leaves the supervisor over and
      no start() under way; `QuietUntilStart` says that it stays so. */
  lemma StopSettles(cfg: Config, s: State, steps: seq<Step>, s': State)
    requires EngineInvariants.Inv(cfg, s) && s.link.running && s.starting.NotStarting? && Returned(cfg, s, steps, s')
    ensures AllQuiet(s') && Settled(s')
  {
    var s1 := Next(cfg, s, StopCall);
    InvKept(cfg, s, StopCall);
    StopStage(cfg, s, StopCall);
    CalledNext(cfg, s);
    UndisturbedAlong(cfg, s1, steps[1..], s');
    QuietMeans(cfg, s');
    assert s'.stopping.NotStopping?;
  }

  lemma CalledNext(cfg: Config, s: State)
    requires s.link.running && s.starting.NotStarting?
    ensures Possible(s, StopCall)
    ensures var s' := Next(cfg, s, StopCall); Undisturbed(s') && !s'.link.running
  {
  }

  // ---- both failing cases are reachable -----------------------------------------------------

  /** start(), and then stop() before the socket is there: it can complete, and the client is not quiesced. */
  lemma StopDuringStart(cfg: Config) returns (steps: seq<Step>, mid: State)
    ensures Possible(INITIAL_STATE, StartCall)
    ensures Returned(cfg, Next(cfg, INITIAL_STATE, StartCall), steps, mid) && mid.quiet && !Quiesced(cfg, mid)
  {
    InvInitially(cfg);
    InvKept(cfg, INITIAL_STATE, StartCall);
    FirstStart(cfg);
    steps, mid := StopFalls(cfg, Next(cfg, INITIAL_STATE, StartCall));
  }

  lemma FirstStart(cfg: Config)
    ensures Possible(INITIAL_STATE, StartCall)
    ensures var s := Next(cfg, INITIAL_STATE, StartCall);
            && s.link == INITIAL_LINK.Begun() && s.starting == StartConnecting(0) && s.stopping == NotStopping
            && s.core == IDLE && s.clock == 0.0
  {
  }

  /** The reconnect policy asks for nothing after a first short connection: it is absent, or gives up. */
  predicate GivesUpAtOnce(cfg: Config) {
    cfg.reconnect.Some? ==> cfg.reconnect.value(1) == GiveUp
  }

  /** The client as it stands on its first connection. */
  predicate OnFirstConnection(s: State, pc: Pc) {
    && s.link == Link(true, false, Some(0), [Conn(true, Some(0.0))]) && s.clock == 0.0
    && s.attempt == 0 && s.starting == NotStarting && s.stopping == NotStopping && s.core == IDLE
    && PcOf(s, Supervisor) == Some(pc)
  }

  lemma StartsUp(cfg: Config) returns (s: State)
    ensures Leads(cfg, INITIAL_STATE, [StartCall, StartConnected, StartReady], s) && OnFirstConnection(s, SupTop)
  {
    FirstStart(cfg);
    var s1 := Next(cfg, INITIAL_STATE, StartCall);
    FirstSocket(cfg, s1);
    var s2 := Next(cfg, s1, StartConnected);
    FirstHandshake(cfg, s2);
    s := Next(cfg, s2, StartReady);
    Prepend(cfg, s2, StartReady, [], s);
    Prepend(cfg, s1, StartConnected, [StartReady] + [], s);
    Prepend(cfg, INITIAL_STATE, StartCall, [StartConnected] + ([StartReady] + []), s);
    assert [StartCall] + ([StartConnected] + ([StartReady] + [])) == [StartCall, StartConnected, StartReady];
  }

  lemma FirstSocket(cfg: Config, s: State)
    requires s.link == INITIAL_LINK.Begun() && s.starting == StartConnecting(0) && s.stopping == NotStopping
    requires s.core == IDLE && s.clock == 0.0
    ensures Possible(s, StartConnected)
    ensures var s' := Next(cfg, s, StartConnected);
            && s'.link == Link(true, false, Some(0), [Conn(true, None)]) && s'.starting == StartHandshake(0)
            && s'.stopping == NotStopping && s'.core == IDLE && s'.clock == 0.0
  {
  }

  lemma FirstHandshake(cfg: Config, s: State)
    requires s.link == Link(true, false, Some(0), [Conn(true, None)]) && s.starting == StartHandshake(0)
    requires s.stopping == NotStopping && s.core == IDLE && s.clock == 0.0
    ensures Possible(s, StartReady) && OnFirstConnection(Next(cfg, s, StartReady), SupTop)
  {
  }

  /** A frame whose correlation id no dialect can look up. */
  const UNHASHABLE_FRAME: Frame := map["id" := List([])]

  lemma ReadsFrame(cfg: Config, s: State) returns (s': State)
    requires OnFirstConnection(s, SupTop)
    ensures Leads(cfg, s, [SupEnters, FrameArrives(UNHASHABLE_FRAME)], s')
    ensures OnFirstConnection(s', SupHook(UNHASHABLE_FRAME))
  {
    var s1 := Next(cfg, s, SupEnters);
    assert OnFirstConnection(s1, SupPump);
    s' := Next(cfg, s1, FrameArrives(UNHASHABLE_FRAME));
    Prepend(cfg, s1, FrameArrives(UNHASHABLE_FRAME), [], s');
    Prepend(cfg, s, SupEnters, [FrameArrives(UNHASHABLE_FRAME)] + [], s');
    assert [SupEnters] + ([FrameArrives(UNHASHABLE_FRAME)] + []) == [SupEnters, FrameArrives(UNHASHABLE_FRAME)];
  }

  /** A supervisor that gives up leaves the socket as it is. */
  lemma GiveUpKeepsSocket(cfg: Config, s: State, step: Step)
    requires Possible(s, step) && Drops(cfg, s, step)
    requires PumpDecision(cfg, s) == None || PumpDecision(cfg, s).value.answer == GiveUp
    ensures Next(cfg, s, step).link == s.link.Ended()
  {
    DropNext(cfg, s, step);
  }

  lemma GivesUp(cfg: Config, s: State)
    requires OnFirstConnection(s, SupHook(UNHASHABLE_FRAME)) && GivesUpAtOnce(cfg)
    ensures Possible(s, HookReturns)
    ensures var s' := Next(cfg, s, HookReturns);
            && !s'.link.running && s'.link.shutdown && s'.starting.NotStarting? && s'.stopping.NotStopping?
            && s'.link.IsConnected() && s'.core.table.pending == map[] && Finished(s', Supervisor)
  {
    assert RoutingAt(cfg, s, UNHASHABLE_FRAME).Raised?;
    assert Drops(cfg, s, HookReturns);
    GiveUpKeepsSocket(cfg, s, HookReturns);
    DropNext(cfg, s, HookReturns);
  }

  /** start(), and a frame that ends the pump without closing the socket, whereupon the supervisor gives up. A stop()
      then does nothing: a connection stays current and open, and the client is not quiesced. */
  lemma StopAfterGiveUp(cfg: Config) returns (steps: seq<Step>, s: State)
    requires GivesUpAtOnce(cfg)
    ensures Leads(cfg, INITIAL_STATE, steps, s) && EngineInvariants.Inv(cfg, s)
    ensures !s.link.running && s.link.shutdown && s.starting.NotStarting? && s.stopping.NotStopping?
    ensures Returned(cfg, s, [StopCall] + [], s) && s.link.IsConnected() && !Quiesced(cfg, s)
  {
    var s1 := StartsUp(cfg);
    var s2 := ReadsFrame(cfg, s1);
    GivesUp(cfg, s2);
    s := Next(cfg, s2, HookReturns);
    Prepend(cfg, s2, HookReturns, [], s);
    steps := [StartCall, StartConnected, StartReady]
             + ([SupEnters, FrameArrives(UNHASHABLE_FRAME)] + ([HookReturns] + []));
    Joins(cfg, s1, [SupEnters, FrameArrives(UNHASHABLE_FRAME)], s2, [HookReturns] + [], s);
    Joins(cfg, INITIAL_STATE, [StartCall, StartConnected, StartReady], s1,
          [SupEnters, FrameArrives(UNHASHABLE_FRAME)] + ([HookReturns] + []), s);
    InvInitially(cfg);
    InvAlong(cfg, INITIAL_STATE, steps, s);
    IgnoredReturns(cfg, s);
    QuiescedIsCalm(cfg, s);
  }

  lemma {:induction false} Joins(cfg: Config, s: State, a: seq<Step>, mid: State, b: seq<Step>, s': State)
    requires Leads(cfg, s, a, mid) && Leads(cfg, mid, b, s')
    ensures Leads(cfg, s, a + b, s')
    decreases |a|
  {
    if a == [] {
      assert a + b == b;
    } else {
      Joins(cfg, Next(cfg, s, a[0]), a[1..], mid, b, s');
      assert (a + b)[1..] == a[1..] + b;
    }
  }

  lemma {:induction false} InvAlong(cfg: Config, s: State, steps: seq<Step>, s': State)
    requires EngineInvariants.Inv(cfg, s) && Leads(cfg, s, steps, s')
    ensures EngineInvariants.Inv(cfg, s')
    decreases |steps|
  {
    if steps != [] {
      InvKept(cfg, s, steps[0]);
      InvAlong(cfg, Next(cfg, s, steps[0]), steps[1..], s');
    }
  }
}
