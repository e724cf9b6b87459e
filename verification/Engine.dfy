/** The client as a transition system. A step is one atomic section of one coroutine, from one await to the next,
    or an event of the environment. Everything that asyncio may interleave here may interleave. */
module Engine {
  import opened Wire
  import opened Dialects
  import opened Rpc
  import opened Correlation
  import opened Registry
  import opened Reconnect
  import opened Connections

  datatype Config = Config(dialect: Dialect, reconnect: Option<Policy>, heartbeat: bool)

  // ---- program counters ---------------------------------------------------------------------

  datatype Call =
    | Plain(verb: string, params: Frame, idempotencyKey: Option<string>, generated: string)
    | Subscribe(channel: string, params: Frame, persist: bool)
    | Unsubscribe(channel: string, params: Frame)
    | Ping

  datatype CallResult =
    | Returned(msg: Frame) | Rejected(msg: Frame) | Dropped(error: Failure)
    | NoAnswer | NotConnected | NotSent | NotImplemented | CallCancelled

  /** A replay pass: the registry snapshot, what has been attempted for its entries so far, and, for the record,
      the length of the history and the last number used when it began. */
  datatype Replay = Replay(snapshot: seq<Entry>, sent: seq<Attempted>, upto: nat, since: nat)

  datatype Attempted = Attempted(id: nat, frame: Frame)

  datatype Pc =
    // a request(), subscribe(), unsubscribe() or ping() caller
    | CallSending(call: Call, id: nat)
    | CallAwaiting(call: Call, id: nat)
    | CallDone(result: CallResult)
    // a heartbeat: `bound` is the connection it read first, `sentOn` the one send() then used
    | BeatTop
    | BeatAsleep
    | BeatSending(bound: Option<nat>, sentOn: nat, born: nat)
    | BeatAwaiting(bound: Option<nat>, sentOn: nat, born: nat)
    | BeatRetry
    | BeatClosing(target: nat, born: nat)
    // the supervisor
    | SupTop
    | SupPump
    | SupHook(msg: Frame)        // awaiting on_message
    | SupDeliver(msg: Frame)     // awaiting channel handlers
    | SupAsleep
    | SupConnecting(c: nat)
    | SupHandshake(c: nat)
    | ReplaySending(r: Replay)
    | ReplayAwaiting(r: Replay)
    | ReplayGap(r: Replay)
    | Over

  /** Suspended between `create` and its `finally`. */
  predicate Waiting(pc: Pc) {
    || pc.CallSending? || pc.CallAwaiting? || pc.BeatSending? || pc.BeatAwaiting?
    || pc.ReplaySending? || pc.ReplayAwaiting?
  }

  predicate Sending(pc: Pc) {
    pc.CallSending? || pc.BeatSending? || pc.ReplaySending?
  }

  predicate Pumping(pc: Pc) {
    pc.SupPump? || pc.SupHook? || pc.SupDeliver?
  }

  datatype Starting = NotStarting | StartConnecting(c: nat) | StartHandshake(c: nat)

  /** `known` is the number of heartbeats started when stop() was called; the last of them is the one it joins. */
  datatype Stopping =
    | NotStopping | JoinSupervisor(known: nat) | JoinHeartbeat(known: nat) | Closing(known: nat)

  /** The last four fields are history. */
  datatype State = State(
    core: Core,
    link: Link,
    subs: seq<Entry>,
    pcs: map<Task, Pc>,
    attempt: nat,
    clock: real,
    beats: nat,              // heartbeats started so far
    starting: Starting,
    stopping: Stopping,
    ops: seq<Op>,            // completed persistent operations
    ended: History,          // connections this supervisor run has decided on, healthy or not
    replays: seq<Replay>,    // completed replay passes
    quiet: bool              // a stop() has completed and no start() has begun since
  )

  const INITIAL_STATE := State(IDLE, INITIAL_LINK, [], map[], 0, 0.0, 0, NotStarting, NotStopping, [], [], [], false)

  // ---- steps --------------------------------------------------------------------------------

  /** How a wait ends. */
  datatype How = SendFails | Woken | TimesOut | TaskCancelled

  datatype Step =
    // environment
    | Tick(dt: real)
    | SocketDrops(c: nat)
    // start() and stop()
    | StartCall
    | StartConnected
    | StartReady
    | StartFails
    | StopCall
    | StopJoinedSupervisor
    | StopJoinedHeartbeat
    | StopClosed
    // whoever registers a future
    | CallBegin(n: nat, call: Call)
    | Sent(task: Task)
    | EndWait(task: Task, how: How)
    // the supervisor
    | SupEnters
    | FrameArrives(msg: Frame)
    | HookReturns
    | DeliverReturns
    | PumpEnds(error: Option<Failure>)
    | SupWakes
    | Connected
    | HandshakeDone
    | ReconnectFails
    | GapEnds
    | SupCancelled
    // a heartbeat
    | BeatEnters(n: nat)
    | BeatWakes(n: nat)
    | BeatRetryEnds(n: nat)
    | BeatCloseDone(n: nat)
    | BeatCancelled(n: nat)

  predicate At(s: State, task: Task, pc: Pc) {
    task in s.pcs && s.pcs[task] == pc
  }

  /** A task that was never created, or has ended. */
  predicate Finished(s: State, task: Task) {
    task !in s.pcs || s.pcs[task].Over?
  }

  /** The heartbeat that stop() joins, if there is one, is over. */
  predicate JoinedHeartbeat(s: State, known: nat) {
    known == 0 || Finished(s, Heartbeat(known - 1))
  }

  /** Only stop() cancels the supervisor and the heartbeat; anyone may cancel a caller. */
  predicate Cancellable(s: State, task: Task) {
    match task
    case Caller(_) => true
    case Supervisor => s.stopping.JoinSupervisor?
    case Heartbeat(n) => s.stopping.JoinHeartbeat? && n + 1 == s.stopping.known
  }

  predicate OfSupervisor(step: Step) {
    || step.SupEnters? || step.FrameArrives? || step.HookReturns? || step.DeliverReturns? || step.PumpEnds?
    || step.SupWakes? || step.Connected? || step.HandshakeDone? || step.ReconnectFails? || step.GapEnds?
    || step.SupCancelled?
  }

  predicate OfHeartbeat(step: Step) {
    step.BeatEnters? || step.BeatWakes? || step.BeatRetryEnds? || step.BeatCloseDone? || step.BeatCancelled?
  }

  /** The steps of start() and stop(). */
  predicate OfLifecycle(step: Step) {
    || step.StartCall? || step.StartConnected? || step.StartReady? || step.StartFails?
    || step.StopCall? || step.StopJoinedSupervisor? || step.StopJoinedHeartbeat? || step.StopClosed?
  }

  predicate WaitMayEnd(s: State, task: Task, how: How) {
    && task in s.pcs && task in s.core.held && Waiting(s.pcs[task])
    && match how
       case SendFails => Sending(s.pcs[task])
       case Woken => !Sending(s.pcs[task]) && s.core.held[task].fut < |s.core.table.futures|
                     && !s.core.table.futures[s.core.held[task].fut].outcome.Pending?
       case TimesOut => !Sending(s.pcs[task])
       case TaskCancelled => Cancellable(s, task)
  }

  predicate Possible(s: State, step: Step) {
    if OfSupervisor(step) then Supervisor in s.pcs && SupervisorMay(s, s.pcs[Supervisor], step)
    else if OfHeartbeat(step) then Heartbeat(step.n) in s.pcs && HeartbeatMay(s, step.n, s.pcs[Heartbeat(step.n)], step)
    else if OfLifecycle(step) then LifecycleMay(s, step)
    else
      match step
      case Tick(dt) => dt >= 0.0
      case SocketDrops(c) => c < |s.link.conns|
      case CallBegin(n, _) => Caller(n) !in s.pcs
      case Sent(task) => task in s.pcs && Sending(s.pcs[task])
      case EndWait(task, how) => WaitMayEnd(s, task, how)
      case _ => false
  }

  predicate LifecycleMay(s: State, step: Step) {
    match step
    case StartCall =>
      !s.link.running && s.starting.NotStarting? && s.stopping.NotStopping? && Finished(s, Supervisor)
    case StartConnected => s.starting.StartConnecting?
    case StartReady => s.starting.StartHandshake?
    case StartFails => !s.starting.NotStarting?
    case StopCall => true
    case StopJoinedSupervisor => s.stopping.JoinSupervisor? && Finished(s, Supervisor)
    case StopJoinedHeartbeat => s.stopping.JoinHeartbeat? && JoinedHeartbeat(s, s.stopping.known)
    case StopClosed => s.stopping.Closing?
    case _ => false
  }

  predicate SupervisorMay(s: State, pc: Pc, step: Step) {
    match step
    case SupEnters => pc.SupTop?
    case FrameArrives(_) => pc.SupPump?
    case HookReturns => pc.SupHook?
    case DeliverReturns => pc.SupDeliver?
    case PumpEnds(_) => pc.SupPump? || pc.SupDeliver?
    case SupWakes => pc.SupAsleep?
    case Connected => pc.SupConnecting?
    case HandshakeDone => pc.SupHandshake?
    case ReconnectFails => pc.SupConnecting? || pc.SupHandshake?
    case GapEnds => pc.ReplayGap?
    case SupCancelled => s.stopping.JoinSupervisor? && !Waiting(pc) && !pc.Over?
    case _ => false
  }

  predicate HeartbeatMay(s: State, n: nat, pc: Pc, step: Step) {
    match step
    case BeatEnters(_) => pc.BeatTop?
    case BeatWakes(_) => pc.BeatAsleep?
    case BeatRetryEnds(_) => pc.BeatRetry?
    case BeatCloseDone(_) => pc.BeatClosing?
    case BeatCancelled(_) => s.stopping.JoinHeartbeat? && n + 1 == s.stopping.known && !Waiting(pc) && !pc.Over?
    case _ => false
  }

  // ---- what a step does to the pending table ------------------------------------------------

  /** The frame of a call that is not a ping. */
  function Framing(d: Dialect, call: Call, id: nat): Option<Framed>
    requires !call.Ping?
  {
    match call
    case Plain(verb, params, key, generated) =>
      d.RequestFrame(verb, params, id, EffectiveKey(verb, key, generated), verb in ORDER_METHODS)
    case Subscribe(channel, params, _) => d.RequestFrame("subscribe", WithChannel(channel, params), id, None, false)
    case Unsubscribe(channel, params) => d.RequestFrame("unsubscribe", WithChannel(channel, params), id, None, false)
  }

  /** Register, then send if there is an open connection. */
  function Registering(s: State, task: Task, ping: bool): Effect {
    if s.link.IsConnected() then Begin(task, ping) else BeginFails(task, ping)
  }

  function CallEffect(cfg: Config, s: State, n: nat, call: Call): Effect {
    if call.Ping? then Registering(s, Caller(n), true)
    else if Framing(cfg.dialect, call, s.core.table.counter + 1) == None then TakeNumber
    else Registering(s, Caller(n), false)
  }

  function DropEffect(s: State, error: Option<Failure>): Effect {
    if s.link.running then FlushAll(Failed(AsConnectionError(error))) else Nothing
  }

  function ReplayEffect(s: State, r: Replay): Effect {
    if |r.sent| < |r.snapshot| then Registering(s, Supervisor, false) else Nothing
  }

  const UNHASHABLE := OtherError("unhashable correlation id")

  function RoutingAt(cfg: Config, s: State, msg: Frame): Routing {
    RoutingOf(s.core.table, msg, cfg.dialect.ResponseKey(msg))
  }

  function HookEffect(cfg: Config, s: State, msg: Frame): Effect {
    if RoutingAt(cfg, s, msg).Raised? then DropEffect(s, Some(UNHASHABLE)) else Reply(msg)
  }

  function SupervisorEffect(cfg: Config, s: State, pc: Pc, step: Step): Effect
    requires SupervisorMay(s, pc, step)
  {
    match step
    case HookReturns => HookEffect(cfg, s, pc.msg)
    case PumpEnds(error) => DropEffect(s, error)
    case SupCancelled => if Pumping(pc) then DropEffect(s, None) else Nothing
    case HandshakeDone => ReplayEffect(s, NewReplay(s))
    case GapEnds => ReplayEffect(s, pc.r)
    case _ => Nothing
  }

  /** A future is cancelled by its own waiter's timeout or cancellation, unless the frame is still being sent. */
  function WaitEffect(pc: Pc, task: Task, how: How): Effect {
    Finish(task, !Sending(pc) && (how.TimesOut? || how.TaskCancelled?))
  }

  function WakeEffect(s: State, n: nat): Effect {
    if s.link.running then Registering(s, Heartbeat(n), true) else Nothing
  }

  function HeartbeatEffect(s: State, n: nat, step: Step): Effect {
    if step.BeatWakes? then WakeEffect(s, n) else Nothing
  }

  function LifecycleEffect(step: Step): Effect {
    if step.StopClosed? then FlushAll(Outcome.Cancelled) else Nothing
  }

  function EffectOf(cfg: Config, s: State, step: Step): Effect
    requires Possible(s, step)
  {
    if OfSupervisor(step) then SupervisorEffect(cfg, s, s.pcs[Supervisor], step)
    else if OfHeartbeat(step) then HeartbeatEffect(s, step.n, step)
    else if OfLifecycle(step) then LifecycleEffect(step)
    else match step
         case CallBegin(n, call) => CallEffect(cfg, s, n, call)
         case EndWait(task, how) => WaitEffect(s.pcs[task], task, how)
         case _ => Nothing
  }

  // ---- where it leads -----------------------------------------------------------------------

  function Goto(s: State, task: Task, pc: Pc): State {
    s.(pcs := s.pcs[task := pc])
  }

  function NewReplay(s: State): Replay {
    Replay(s.subs, [], |s.ops|, s.core.table.counter)
  }

  /** The decision after a pump that has ended while the client runs. */
  function PumpDecision(cfg: Config, s: State): Option<Decision> {
    DecisionOn(cfg.reconnect, s.link, s.attempt, s.clock)
  }

  predicate ReopensAtOnce(decision: Option<Decision>) {
    decision.Some? && decision.value.answer.Wait? && decision.value.answer.delay <= 0.0
  }

  /** The supervisor after a pump has ended: out if stopped, else decide, then sleep, reconnect or end. */
  function PumpPc(cfg: Config, s: State): Pc {
    var decision := PumpDecision(cfg, s);
    if !s.link.running || decision == None || !decision.value.answer.Wait? then Over
    else if ReopensAtOnce(decision) then SupConnecting(|s.link.conns|)
    else SupAsleep
  }

  function HookPc(cfg: Config, s: State, msg: Frame): Pc {
    match RoutingAt(cfg, s, msg)
    case Consumed => SupPump
    case Push => SupDeliver(msg)
    case Raised => PumpPc(cfg, s)
  }

  function Extended(d: Dialect, r: Replay, id: nat): Replay
    requires |r.sent| < |r.snapshot|
  {
    var e := r.snapshot[|r.sent|];
    r.(sent := r.sent + [Attempted(id, SubscribeFrame(d, e.channel, e.params, id))])
  }

  /** Attempt the next entry of the snapshot, or finish the pass. */
  function ReplayPc(cfg: Config, s: State, r: Replay): Pc {
    if |r.sent| >= |r.snapshot| then SupTop
    else
      var r' := Extended(cfg.dialect, r, s.core.table.counter + 1);
      if s.link.IsConnected() then ReplaySending(r') else ReplayGap(r')
  }

  function SupervisorPc(cfg: Config, s: State, pc: Pc, step: Step): Pc
    requires SupervisorMay(s, pc, step)
  {
    match step
    case SupEnters => if s.link.running then SupPump else Over
    case FrameArrives(msg) => if s.link.running then SupHook(msg) else Over
    case HookReturns => HookPc(cfg, s, pc.msg)
    case DeliverReturns => SupPump
    case PumpEnds(_) => PumpPc(cfg, s)
    case SupWakes => if s.link.running then SupConnecting(|s.link.conns|) else Over
    case Connected => SupHandshake(pc.c)
    case HandshakeDone => ReplayPc(cfg, s, NewReplay(s))
    case ReconnectFails => SupTop
    case GapEnds => ReplayPc(cfg, s, pc.r)
    case SupCancelled => if Pumping(pc) then PumpPc(cfg, s) else Over
    case _ => pc
  }

  function WakePc(s: State): Pc {
    if !s.link.running then Over
    else if s.link.IsConnected() then BeatSending(s.link.conn, s.link.conn.value, |s.link.conns|)
    else BeatRetry
  }

  function HeartbeatPc(s: State, n: nat, pc: Pc, step: Step): Pc
    requires HeartbeatMay(s, n, pc, step)
  {
    match step
    case BeatEnters(_) => if s.link.running then BeatAsleep else Over
    case BeatWakes(_) => WakePc(s)
    case BeatRetryEnds(_) => BeatTop
    case BeatCloseDone(_) => BeatTop
    case BeatCancelled(_) => Over
    case _ => pc
  }

  function CallPc(cfg: Config, s: State, call: Call): Pc {
    var id := s.core.table.counter + 1;
    if !call.Ping? && Framing(cfg.dialect, call, id) == None then CallDone(NotImplemented)
    else if s.link.IsConnected() then CallSending(call, if call.Ping? then 0 else id)
    else CallDone(NotConnected)
  }

  function AfterSend(pc: Pc): Pc {
    match pc
    case CallSending(call, id) => CallAwaiting(call, id)
    case BeatSending(bound, sentOn, born) => BeatAwaiting(bound, sentOn, born)
    case ReplaySending(r) => ReplayAwaiting(r)
    case _ => pc
  }

  /** Only a request looks for a rejection in its answer; to a ping any answer is a pong. */
  function CallOutcome(d: Dialect, call: Call, how: How, outcome: Outcome): CallResult {
    match how
    case SendFails => NotSent
    case TimesOut => NoAnswer
    case TaskCancelled => CallCancelled
    case Woken =>
      match outcome
      case Result(msg) => if !call.Ping? && d.Rejects(msg) then Rejected(msg) else Returned(msg)
      case Failed(error) => Dropped(error)
      case _ => CallCancelled
  }

  function BeatWaitPc(link: Link, bound: Option<nat>, born: nat, how: How, outcome: Outcome): Pc {
    match how
    case SendFails => BeatRetry
    case TaskCancelled => Over
    case TimesOut => if link.ClosesOnTimeout(bound) then BeatClosing(bound.value, born) else BeatTop
    case Woken => if outcome.Result? then BeatTop else if outcome.Failed? then BeatRetry else Over
  }

  function ReplayWaitPc(r: Replay, how: How, outcome: Outcome): Pc {
    if how.TaskCancelled? || (how.Woken? && outcome.Cancelled?) then Over else ReplayGap(r)
  }

  function WaitPc(d: Dialect, link: Link, pc: Pc, how: How, outcome: Outcome): Pc {
    match pc
    case CallSending(call, _) => CallDone(CallOutcome(d, call, how, outcome))
    case CallAwaiting(call, _) => CallDone(CallOutcome(d, call, how, outcome))
    case BeatSending(bound, _, born) => BeatWaitPc(link, bound, born, how, outcome)
    case BeatAwaiting(bound, _, born) => BeatWaitPc(link, bound, born, how, outcome)
    case ReplaySending(r) => ReplayWaitPc(r, how, outcome)
    case ReplayAwaiting(r) => ReplayWaitPc(r, how, outcome)
    case _ => pc
  }

  // ---- what it does to the other fields -----------------------------------------------------

  function AfterPump(cfg: Config, s: State): State {
    var decision := PumpDecision(cfg, s);
    var link := AfterDecision(s.link, decision);
    if !s.link.running then s
    else if decision == None then s.(link := link)
    else s.(link := if ReopensAtOnce(decision) then link.Fresh() else link,
            attempt := decision.value.attempt,
            ended := s.ended + [s.link.LifeAt(s.clock).Healthy()])
  }

  function ReplaysAfter(s: State, r: Replay): seq<Replay> {
    if |r.sent| < |r.snapshot| then s.replays else s.replays + [r]
  }

  function SupervisorFields(cfg: Config, s: State, pc: Pc, step: Step): State
    requires SupervisorMay(s, pc, step)
  {
    match step
    case HookReturns => if RoutingAt(cfg, s, pc.msg).Raised? then AfterPump(cfg, s) else s
    case PumpEnds(_) => AfterPump(cfg, s)
    case SupWakes => if s.link.running then s.(link := s.link.Fresh()) else s
    case Connected => s.(link := s.link.WithOpen(pc.c, true))
    case HandshakeDone =>
      s.(link := s.link.Authenticated(pc.c, s.clock), replays := ReplaysAfter(s, NewReplay(s)))
    case GapEnds => s.(replays := ReplaysAfter(s, pc.r))
    case SupCancelled => if Pumping(pc) then AfterPump(cfg, s) else s
    case _ => s
  }

  function SupervisorRest(cfg: Config, s: State, pc: Pc, step: Step): State
    requires SupervisorMay(s, pc, step)
  {
    Goto(SupervisorFields(cfg, s, pc, step), Supervisor, SupervisorPc(cfg, s, pc, step))
  }

  function HeartbeatRest(s: State, n: nat, pc: Pc, step: Step): State
    requires HeartbeatMay(s, n, pc, step)
  {
    Goto(if step.BeatCloseDone? then s.(link := s.link.WithOpen(pc.target, false)) else s,
         Heartbeat(n), HeartbeatPc(s, n, pc, step))
  }

  /** The history entry of a call that has just been answered: only acknowledged, persistent ones leave one. */
  function Recorded(call: Call, id: nat, result: CallResult): seq<Op> {
    if !result.Returned? then []
    else match call
         case Subscribe(channel, params, persist) =>
           if persist then [Op(EntryOf(channel, params), true, params, id)] else []
         case Unsubscribe(channel, params) => [Op(EntryOf(channel, params), false, params, id)]
         case _ => []
  }

  function Record(s: State, ops: seq<Op>): State {
    if ops == [] then s else s.(ops := s.ops + [ops[0]], subs := Registry.Step(s.subs, ops[0]))
  }

  function WaitFields(d: Dialect, s: State, pc: Pc, how: How, outcome: Outcome): State {
    if pc.CallAwaiting? then Record(s, Recorded(pc.call, pc.id, CallOutcome(d, pc.call, how, outcome))) else s
  }

  function AfterWait(cfg: Config, s: State, task: Task, how: How): State
    requires task in s.pcs && task in s.core.held
  {
    var pc, outcome := s.pcs[task], OutcomeAt(s.core.table, s.core.held[task].fut);
    Goto(WaitFields(cfg.dialect, s, pc, how, outcome), task, WaitPc(cfg.dialect, s.link, pc, how, outcome))
  }

  /** start() returns: the supervisor's task is created, and the heartbeat's if there is to be one. */
  function AfterStart(cfg: Config, s: State, c: nat): State {
    var s1 := Goto(s, Supervisor, SupTop)
              .(link := s.link.Authenticated(c, s.clock), starting := NotStarting, attempt := 0, ended := []);
    if cfg.heartbeat then Goto(s1, Heartbeat(s.beats), BeatTop).(beats := s.beats + 1) else s1
  }

  /** stop() does nothing in a client that is not running. Else it looks up its tasks, and skips a supervisor that is
      done. */
  function AfterStopCall(s: State): State {
    if !s.link.running then s
    else
      s.(link := s.link.Ended(),
         stopping := if Finished(s, Supervisor) then JoinHeartbeat(s.beats) else JoinSupervisor(s.beats))
  }

  function LifecycleRest(cfg: Config, s: State, step: Step): State
    requires LifecycleMay(s, step)
  {
    match step
    case StartCall => s.(link := s.link.Begun(), starting := StartConnecting(|s.link.conns|), quiet := false)
    case StartConnected => s.(link := s.link.WithOpen(s.starting.c, true), starting := StartHandshake(s.starting.c))
    case StartReady => AfterStart(cfg, s, s.starting.c)
    case StartFails => s.(starting := NotStarting)
    case StopCall => AfterStopCall(s)
    case StopJoinedSupervisor => s.(stopping := JoinHeartbeat(s.stopping.known))
    case StopJoinedHeartbeat => s.(stopping := Closing(s.stopping.known))
    case StopClosed => s.(link := s.link.Closed(), stopping := NotStopping, quiet := true)
    case _ => s
  }

  // ---- the step relation --------------------------------------------------------------------

  function SupervisorNext(cfg: Config, s: State, pc: Pc, step: Step): State
    requires SupervisorMay(s, pc, step)
  {
    SupervisorRest(cfg, s, pc, step).(core := Do(cfg.dialect, s.core, SupervisorEffect(cfg, s, pc, step)))
  }

  function HeartbeatNext(cfg: Config, s: State, n: nat, pc: Pc, step: Step): State
    requires HeartbeatMay(s, n, pc, step)
  {
    HeartbeatRest(s, n, pc, step).(core := Do(cfg.dialect, s.core, HeartbeatEffect(s, n, step)))
  }

  function CallNext(cfg: Config, s: State, n: nat, call: Call): State {
    Goto(s, Caller(n), CallPc(cfg, s, call)).(core := Do(cfg.dialect, s.core, CallEffect(cfg, s, n, call)))
  }

  function WaitNext(cfg: Config, s: State, task: Task, how: How): State
    requires WaitMayEnd(s, task, how)
  {
    AfterWait(cfg, s, task, how).(core := Do(cfg.dialect, s.core, WaitEffect(s.pcs[task], task, how)))
  }

  function LifecycleNext(cfg: Config, s: State, step: Step): State
    requires LifecycleMay(s, step)
  {
    LifecycleRest(cfg, s, step).(core := Do(cfg.dialect, s.core, LifecycleEffect(step)))
  }

  function EnvironmentNext(s: State, step: Step): State {
    match step
    case Tick(dt) => s.(clock := s.clock + dt)
    case SocketDrops(c) => s.(link := s.link.WithOpen(c, false))
    case _ => s
  }

  function Next(cfg: Config, s: State, step: Step): State
    requires Possible(s, step)
  {
    if OfSupervisor(step) then SupervisorNext(cfg, s, s.pcs[Supervisor], step)
    else if OfHeartbeat(step) then HeartbeatNext(cfg, s, step.n, s.pcs[Heartbeat(step.n)], step)
    else if OfLifecycle(step) then LifecycleNext(cfg, s, step)
    else
      match step
      case CallBegin(n, call) => CallNext(cfg, s, n, call)
      case Sent(task) => Goto(s, task, AfterSend(s.pcs[task]))
      case EndWait(task, how) => WaitNext(cfg, s, task, how)
      case _ => EnvironmentNext(s, step)
  }
}
