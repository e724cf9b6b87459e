/** The steps of the transition system on the shared fields are the sections of the client class: each lemma equates the
    effect of a step on the pending table and the connection state with what the contracts of the named methods give. */
module Sections {
  import opened Wire
  import opened Dialects
  import opened Rpc
  import opened Correlation
  import opened Registry
  import opened Connections
  import opened Dispatch
  import opened Engine
  import opened EngineInvariants
  import opened EngineTheorems

  // ---- registering and releasing ------------------------------------------------------------

  /** A registration in one section, whether or not it finds an open connection. */
  lemma RegisteringTable(d: Dialect, s: State, task: Task, ping: bool)
    requires task !in s.core.held
    ensures var t, connected := s.core.table, s.link.IsConnected();
            Do(d, s.core, Registering(s, task, ping)).table
            == if ping then PingTable(d, t, connected) else RequestTable(d, t, false, connected)
  {
    if !s.link.IsConnected() {
      TakenBack(d, s.core, task, ping);
    }
  }

  lemma TakenBack(d: Dialect, c: Core, task: Task, ping: bool)
    requires task !in c.held
    ensures Apply(d, c, BeginFails(task, ping)).table
         == if ping then PingTable(d, c.table, false) else RequestTable(d, c.table, false, false)
  {
    var h := DoBegin(d, c, task, ping).held[task];
    assert h == Held(if ping then PONG_KEY else d.KeyFor(c.table.counter + 1), |c.table.futures|);
  }

  /** `RequestBegins` and `PingBegins`. */
  lemma CallSection(cfg: Config, s: State, n: nat, call: Call)
    requires EngineInvariants.Inv(cfg, s) && Possible(s, CallBegin(n, call))
    ensures var s' := Next(cfg, s, CallBegin(n, call));
            var d, t, connected := cfg.dialect, s.core.table, s.link.IsConnected();
            && s'.link == s.link
            && s'.core.table == if call.Ping? then PingTable(d, t, connected)
                                else RequestTable(d, t, Framing(d, call, t.counter + 1) == None, connected)
  {
    assert Caller(n) in s.core.held <==> Suspended(s, Caller(n));
    CallTable(cfg, s, n, call);
  }

  lemma CallTable(cfg: Config, s: State, n: nat, call: Call)
    requires Caller(n) !in s.core.held
    ensures var d, t, connected := cfg.dialect, s.core.table, s.link.IsConnected();
            CallNext(cfg, s, n, call).core.table
            == if call.Ping? then PingTable(d, t, connected)
               else RequestTable(d, t, Framing(d, call, t.counter + 1) == None, connected)
  {
    RegisteringTable(cfg.dialect, s, Caller(n), call.Ping?);
  }

  /** `PingBegins` again, when a heartbeat wakes up in a client that still runs. */
  lemma BeatSection(cfg: Config, s: State, n: nat)
    requires EngineInvariants.Inv(cfg, s) && Possible(s, BeatWakes(n))
    ensures var s' := Next(cfg, s, BeatWakes(n));
            && s'.link == s.link
            && s'.core.table == if s.link.running then PingTable(cfg.dialect, s.core.table, s.link.IsConnected())
                                else s.core.table
  {
    assert Heartbeat(n) in s.core.held <==> Suspended(s, Heartbeat(n));
    RegisteringTable(cfg.dialect, s, Heartbeat(n), true);
  }

  /** `HandshakeAccepted` if the connection has just been opened, and then `RequestBegins` with the subscribe frame of
      the next entry, which no dialect refuses. At the end of the snapshot the table is left alone. */
  lemma ReplaySection(cfg: Config, s: State, step: Step)
    requires EngineInvariants.Inv(cfg, s) && Possible(s, step) && Attempting(step)
    ensures var pc, s' := s.pcs[Supervisor], Next(cfg, s, step);
            var r := PassOf(s, pc, step);
            && s'.link == (if step.HandshakeDone? then s.link.Authenticated(pc.c, s.clock) else s.link)
            && s'.core.table == if |r.sent| < |r.snapshot|
                                then RequestTable(cfg.dialect, s.core.table, false, s.link.IsConnected())
                                else s.core.table
  {
    assert Supervisor in s.core.held <==> Suspended(s, Supervisor);
    RegisteringTable(cfg.dialect, s, Supervisor, false);
  }

  lemma ReplayIsRequest(d: Dialect, channel: string, params: Frame, id: nat)
    ensures Framing(d, Subscribe(channel, params, false), id)
         == Some(Framed(SubscribeFrame(d, channel, params, id), d.KeyFor(id)))
  {
  }

  /** `RequestEnds` and `PingEnds`, after the future's own cancellation on a timeout. */
  lemma WaitSection(cfg: Config, s: State, task: Task, how: How)
    requires EngineInvariants.Inv(cfg, s) && Possible(s, EndWait(task, how))
    ensures var s' := Next(cfg, s, EndWait(task, how));
            var h := s.core.held[task];
            var cancelled := !Sending(s.pcs[task]) && (how.TimesOut? || how.TaskCancelled?);
            && s'.link == s.link
            && s'.core.table
               == Released(if cancelled then SettleAt(s.core.table, h.fut, Cancelled) else s.core.table, h)
  {
    WaitMoves(cfg, s, task, how);
    WaitCore(cfg, s, task, how);
  }

  // ---- frames and drops ---------------------------------------------------------------------

  /** `Dispatch`: once `on_message` has returned, the table is as the dispatcher leaves it. The supervisor reads on if
      the frame was consumed, and calls the handlers if it was not. */
  lemma HookSection(cfg: Config, s: State, u: Setup)
    requires EngineInvariants.Inv(cfg, s) && Possible(s, HookReturns) && u.dialect == cfg.dialect
    ensures var msg, s' := s.pcs[Supervisor].msg, Next(cfg, s, HookReturns);
            var routing := RoutingOf(s.core.table, msg, u.dialect.ResponseKey(msg));
            !routing.Raised? ==>
              && s'.core.table == DispatchOne(u, s.core.table, msg).table && s'.link == s.link
              && At(s', Supervisor, if routing.Consumed? then SupPump else SupDeliver(msg))
  {
    HookTable(cfg, s, s.pcs[Supervisor], u);
  }

  lemma HookTable(cfg: Config, s: State, pc: Pc, u: Setup)
    requires SupervisorMay(s, pc, HookReturns) && u.dialect == cfg.dialect
    ensures var s', routing := SupervisorNext(cfg, s, pc, HookReturns),
                               RoutingOf(s.core.table, pc.msg, u.dialect.ResponseKey(pc.msg));
            !routing.Raised? ==>
              && s'.core.table == DispatchOne(u, s.core.table, pc.msg).table && s'.link == s.link
              && At(s', Supervisor, if routing.Consumed? then SupPump else SupDeliver(pc.msg))
  {
  }

  /** What ends a pump: the read loop itself, or an exception out of `Dispatch`. */
  predicate EndsWith(cfg: Config, s: State, pc: Pc, step: Step, error: Option<Failure>) {
    || step == PumpEnds(error)
    || (step.HookReturns? && pc.SupHook? && RoutingAt(cfg, s, pc.msg).Raised? && error == Some(UNHASHABLE))
  }

  /** `PumpEnded`, followed by `NewConnection` when the policy asks for no delay. */
  lemma PumpSection(cfg: Config, s: State, step: Step, error: Option<Failure>)
    requires Possible(s, step) && Supervisor in s.pcs && EndsWith(cfg, s, s.pcs[Supervisor], step, error)
    ensures var s' := Next(cfg, s, step);
            var decision := DecisionOn(cfg.reconnect, s.link, s.attempt, s.clock);
            var after := AfterDecision(s.link, decision);
            if !s.link.running then s'.link == s.link && s'.core.table == s.core.table
            else s'.core.table == Flush(s.core.table, Failed(AsConnectionError(error)))
                 && s'.link == if ReopensAtOnce(decision) then after.Fresh() else after
  {
    PumpTable(cfg, s, s.pcs[Supervisor], step, error);
  }

  lemma PumpTable(cfg: Config, s: State, pc: Pc, step: Step, error: Option<Failure>)
    requires SupervisorMay(s, pc, step) && EndsWith(cfg, s, pc, step, error)
    ensures var s1 := SupervisorNext(cfg, s, pc, step);
            && s1.link == AfterPump(cfg, s).link
            && s1.core.table == if s.link.running then Flush(s.core.table, Failed(AsConnectionError(error)))
                                else s.core.table
  {
  }

  // ---- connections --------------------------------------------------------------------------

  /** What a step does to the connection state: the sections named on the right, and nothing in all other steps. */
  function LinkAfter(cfg: Config, s: State, step: Step): Link
    requires Possible(s, step)
  {
    match step
    case StartCall => s.link.Begun()                                          // StartBegins
    case StartConnected => s.link.WithOpen(s.starting.c, true)                // SocketOpened
    case StartReady => s.link.Authenticated(s.starting.c, s.clock)            // HandshakeAccepted
    case StopCall => if s.link.running then s.link.Ended() else s.link        // StopBegins
    case StopClosed => s.link.Closed()                                        // StopFinishes
    case SupWakes => if s.link.running then s.link.Fresh() else s.link        // NewConnection
    case Connected => s.link.WithOpen(s.pcs[Supervisor].c, true)              // SocketOpened
    case HandshakeDone => s.link.Authenticated(s.pcs[Supervisor].c, s.clock)  // HandshakeAccepted
    case BeatCloseDone(n) => s.link.WithOpen(s.pcs[Heartbeat(n)].target, false)  // HeartbeatCloses
    case SocketDrops(c) => s.link.WithOpen(c, false)                          // the environment
    case PumpEnds(_) => AfterPump(cfg, s).link                                // PumpEnded, see PumpSection
    case HookReturns =>
      if RoutingAt(cfg, s, s.pcs[Supervisor].msg).Raised? then AfterPump(cfg, s).link else s.link
    case _ => s.link
  }

  lemma LinkSections(cfg: Config, s: State, step: Step)
    requires EngineInvariants.Inv(cfg, s) && Possible(s, step)
    ensures Next(cfg, s, step).link == LinkAfter(cfg, s, step)
  {
    if OfSupervisor(step) {
      SupervisorLink(cfg, s, s.pcs[Supervisor], step);
    } else if step.EndWait? {
      WaitMoves(cfg, s, step.task, step.how);
    }
  }

  lemma SupervisorLink(cfg: Config, s: State, pc: Pc, step: Step)
    requires Lifecycle(s) && PcOf(s, Supervisor) == Some(pc) && SupervisorMay(s, pc, step) && Possible(s, step)
    ensures SupervisorNext(cfg, s, pc, step).link == LinkAfter(cfg, s, step)
  {
  }

  /** `HeartbeatExpires`. */
  lemma HeartbeatSection(cfg: Config, s: State, n: nat)
    requires EngineInvariants.Inv(cfg, s) && Possible(s, EndWait(Heartbeat(n), TimesOut))
    ensures var pc, pcs := s.pcs[Heartbeat(n)], Next(cfg, s, EndWait(Heartbeat(n), TimesOut)).pcs;
            && pc.BeatAwaiting? && Heartbeat(n) in pcs
            && (pcs[Heartbeat(n)].BeatClosing? <==> s.link.ClosesOnTimeout(pc.bound))
  {
    assert FitsTask(Heartbeat(n), s.pcs[Heartbeat(n)]);
  }

  /** `StopFinishes` on the table. */
  lemma StopSection(cfg: Config, s: State)
    requires Possible(s, StopClosed)
    ensures Next(cfg, s, StopClosed).core.table == Flush(s.core.table, Cancelled)
  {
  }

  // ---- the registry -------------------------------------------------------------------------

  /** `Subscribed` and `Unsubscribed`. */
  lemma RegistrySection(cfg: Config, s: State, n: nat)
    requires EngineInvariants.Inv(cfg, s) && Possible(s, EndWait(Caller(n), Woken)) && s.pcs[Caller(n)].CallAwaiting?
    requires ResultOf(cfg.dialect, s, n, Woken).Returned?
    ensures var s', call, id := Next(cfg, s, EndWait(Caller(n), Woken)), s.pcs[Caller(n)].call, s.pcs[Caller(n)].id;
            s'.subs == match call
                       case Subscribe(channel, params, persist) =>
                         if persist then Registry.Step(s.subs, Op(EntryOf(channel, params), true, params, id))
                         else s.subs
                       case Unsubscribe(channel, params) =>
                         Registry.Step(s.subs, Op(EntryOf(channel, params), false, params, id))
                       case _ => s.subs
  {
  }
}
