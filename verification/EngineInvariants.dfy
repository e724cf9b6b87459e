/** The invariant of the transition system and its preservation by every step. The proofs go by who moves: the
    supervisor, a heartbeat, a caller or whoever waits, start() and stop(), or nobody. */
module EngineInvariants {
  import opened Wire
  import opened Dialects
  import opened Rpc
  import opened Correlation
  import opened Registry
  import opened Reconnect
  import opened Connections
  import opened Engine

  // ---- who waits ----------------------------------------------------------------------------

  predicate Suspended(s: State, t: Task) {
    t in s.pcs && Waiting(s.pcs[t])
  }

  /** Exactly the coroutines suspended between `create` and `finally` hold a future. */
  ghost predicate WaitersHold(s: State) {
    forall t :: t in s.core.held <==> Suspended(s, t)
  }

  predicate FitsTask(t: Task, pc: Pc) {
    match t
    case Caller(_) => pc.CallSending? || pc.CallAwaiting? || pc.CallDone?
    case Heartbeat(_) =>
      || pc.BeatTop? || pc.BeatAsleep? || pc.BeatSending? || pc.BeatAwaiting? || pc.BeatRetry? || pc.BeatClosing?
      || pc.Over?
    case Supervisor =>
      !(pc.CallSending? || pc.CallAwaiting? || pc.CallDone? || pc.BeatTop? || pc.BeatAsleep? || pc.BeatSending?
        || pc.BeatAwaiting? || pc.BeatRetry? || pc.BeatClosing?)
  }

  ghost predicate Kinds(s: State) {
    && (forall t :: t in s.pcs ==> FitsTask(t, s.pcs[t]))
    && (forall n: nat :: Heartbeat(n) in s.pcs ==> n < s.beats)
  }

  /** The effects that go with a move of task `t` that waited before (`waits`) and waits afterwards (`waits'`). */
  predicate Registers(e: Effect, t: Task, waits: bool, waits': bool) {
    match e
    case Begin(task, _) => task == t && !waits && waits'
    case BeginFails(task, _) => task == t && !waits && !waits'
    case Finish(task, _) => task == t && waits && !waits'
    case FlushAll(outcome) => waits == waits' && (outcome.Failed? || outcome.Cancelled?)
    case _ => waits == waits'
  }

  /** Task `t` moves, alone, to one of its own program points, with effect `e` on the table. */
  ghost predicate Moves(d: Dialect, s: State, s': State, e: Effect, t: Task) {
    && t in s'.pcs && s'.pcs == s.pcs[t := s'.pcs[t]] && s'.beats == s.beats
    && FitsTask(t, s'.pcs[t]) && (t.Heartbeat? ==> t in s.pcs)
    && Registers(e, t, Suspended(s, t), Waiting(s'.pcs[t]))
    && s'.core == Do(d, s.core, e)
  }

  /** Nobody moves, and nobody starts or ends a wait. */
  predicate Stands(d: Dialect, s: State, s': State, e: Effect) {
    && s'.pcs == s.pcs && s'.beats == s.beats && s'.core == Do(d, s.core, e)
    && !e.Begin? && !e.BeginFails? && !e.Finish? && (e.FlushAll? ==> e.outcome.Cancelled?)
  }

  lemma HeldAfter(d: Dialect, c: Core, e: Effect)
    requires Enabled(c, e)
    ensures Apply(d, c, e).held.Keys
         == match e
            case Begin(task, _) => c.held.Keys + {task}
            case Finish(task, _) => c.held.Keys - {task}
            case _ => c.held.Keys
  {
  }

  lemma MoveKeepsHolding(d: Dialect, s: State, s': State, e: Effect, t: Task)
    requires WaitersHold(s) && Moves(d, s, s', e, t)
    ensures Enabled(s.core, e) && WaitersHold(s')
  {
    assert t in s.core.held <==> Suspended(s, t);
    assert Enabled(s.core, e);
    HeldAfter(d, s.core, e);
    forall u ensures u in s'.core.held <==> Suspended(s', u) {
      assert u in s.core.held <==> Suspended(s, u);
    }
  }

  lemma StandingKeepsHolding(d: Dialect, s: State, s': State, e: Effect)
    requires WaitersHold(s) && Stands(d, s, s', e)
    ensures Enabled(s.core, e) && WaitersHold(s')
  {
    HeldAfter(d, s.core, e);
    forall u ensures u in s'.core.held <==> Suspended(s', u) {
      assert u in s.core.held <==> Suspended(s, u);
    }
  }

  // ---- start, stop and the supervisor's lifetime --------------------------------------------

  /** A supervisor that is over, or was created by a start() that has been stopped meanwhile and ends at its first
      turn. */
  predicate Idle(s: State) {
    Finished(s, Supervisor) || At(s, Supervisor, SupTop)
  }

  /** The connection that a start() is opening. */
  predicate StartFits(s: State) {
    !s.starting.NotStarting? ==>
      && Finished(s, Supervisor) && s.starting.c < |s.link.conns|
      && (s.link.running ==> s.link.conn == Some(s.starting.c))
      && s.link.conns[s.starting.c].connectedAt == None
      && (s.starting.StartConnecting? ==> !s.link.conns[s.starting.c].open)
  }

  predicate StopFits(s: State) {
    && (s.stopping != NotStopping ==> !s.link.running)
    && (s.stopping != NotStopping ==> s.stopping.known <= s.beats)
    && (s.stopping.JoinSupervisor? ==> s.starting.NotStarting?)
    && (s.stopping.Closing? ==> JoinedHeartbeat(s, s.stopping.known))
    && (!s.link.running && !s.stopping.JoinSupervisor? ==> Idle(s))
  }

  predicate OpeningFits(s: State) {
    Supervisor in s.pcs && (s.pcs[Supervisor].SupConnecting? || s.pcs[Supervisor].SupHandshake?) ==>
      && s.link.conn == Some(s.pcs[Supervisor].c) && s.pcs[Supervisor].c < |s.link.conns|
      && s.link.conns[s.pcs[Supervisor].c].connectedAt == None
  }

  predicate Lifecycle(s: State) {
    s.link.Valid() && StartFits(s) && StopFits(s) && OpeningFits(s)
  }

  /** After a completed stop nothing is current and nothing is registered, until the next start. */
  predicate Quiet(s: State) {
    s.quiet ==> !s.link.running && s.stopping.NotStopping? && s.link.conn == None && s.core.table.pending == map[]
  }

  /** In the absence of an open connection nothing stays registered. */
  lemma NothingRegistered(d: Dialect, c: Core, e: Effect)
    requires Correlation.Inv(d, c) && Enabled(c, e) && c.table.pending == map[] && !e.Begin?
    ensures Apply(d, c, e).table.pending == map[]
  {
    match e
    case BeginFails(task, ping) => BeginFailsShape(d, c, task, ping);
    case Finish(task, cancel) => FinishShape(d, c, task, cancel);
    case _ =>
  }

  // ---- who holds which slot -----------------------------------------------------------------

  /** A waiting task's future is registered under the key its call was framed with. */
  predicate SlotFits(d: Dialect, counter: nat, pc: Pc, h: Held) {
    match pc
    case CallSending(call, id) => if call.Ping? then h.key == PONG_KEY else id <= counter && h.key == d.KeyFor(id)
    case CallAwaiting(call, id) => if call.Ping? then h.key == PONG_KEY else id <= counter && h.key == d.KeyFor(id)
    case BeatSending(_, _, _) => h.key == PONG_KEY
    case BeatAwaiting(_, _, _) => h.key == PONG_KEY
    case ReplaySending(r) => r.sent != [] && h.key == d.KeyFor(r.sent[|r.sent| - 1].id)
    case ReplayAwaiting(r) => r.sent != [] && h.key == d.KeyFor(r.sent[|r.sent| - 1].id)
    case _ => true
  }

  ghost predicate Slots(d: Dialect, s: State) {
    forall t :: t in s.core.held && t in s.pcs ==> SlotFits(d, s.core.table.counter, s.pcs[t], s.core.held[t])
  }

  /** What a new registration of effect `e` holds. */
  function NewHeld(d: Dialect, c: Core, e: Effect): Held
    requires e.Begin?
  {
    Held(if e.ping then PONG_KEY else d.KeyFor(c.table.counter + 1), |c.table.futures|)
  }

  function CounterAfter(c: Core, e: Effect): nat {
    if e.TakeNumber? || ((e.Begin? || e.BeginFails?) && !e.ping) then c.table.counter + 1 else c.table.counter
  }

  /** Effects leave other tasks' slots alone; a new slot carries the pong key or the next request key. */
  lemma HeldSlots(d: Dialect, c: Core, e: Effect)
    requires Enabled(c, e)
    ensures var c' := Apply(d, c, e);
            && c'.table.counter == CounterAfter(c, e)
            && (forall t :: t in c.held && t in c'.held && !(e.Begin? && t == e.task) ==> c'.held[t] == c.held[t])
            && (e.Begin? ==> c'.held[e.task] == NewHeld(d, c, e))
  {
  }

  /** The move from `pc` to `pc'` suits what its owner then holds. */
  ghost predicate SlotMoves(d: Dialect, c: Core, e: Effect, pc: Option<Pc>, pc': Pc) {
    if e.Begin? then SlotFits(d, CounterAfter(c, e), pc', NewHeld(d, c, e))
    else Waiting(pc') ==>
      pc.Some? && forall h :: SlotFits(d, c.table.counter, pc.value, h) ==> SlotFits(d, CounterAfter(c, e), pc', h)
  }

  function PcOf(s: State, t: Task): Option<Pc> {
    if t in s.pcs then Some(s.pcs[t]) else None
  }

  lemma SlotsMoved(d: Dialect, s: State, s': State, e: Effect, t: Task)
    requires Slots(d, s) && WaitersHold(s) && Moves(d, s, s', e, t) && Enabled(s.core, e)
    requires SlotMoves(d, s.core, e, PcOf(s, t), s'.pcs[t])
    ensures Slots(d, s')
  {
    HeldSlots(d, s.core, e);
    HeldAfter(d, s.core, e);
    MoveKeepsHolding(d, s, s', e, t);
    forall u | u in s'.core.held && u in s'.pcs
      ensures SlotFits(d, s'.core.table.counter, s'.pcs[u], s'.core.held[u])
    {
      assert Suspended(s', u);
      if u != t {
        assert s'.pcs[u] == s.pcs[u] && s'.core.held[u] == s.core.held[u];
      }
    }
  }

  lemma SlotsStood(d: Dialect, s: State, s': State, e: Effect)
    requires Slots(d, s) && Stands(d, s, s', e) && Enabled(s.core, e)
    ensures Slots(d, s')
  {
    HeldSlots(d, s.core, e);
    HeldAfter(d, s.core, e);
  }

  // ---- heartbeats and connections -----------------------------------------------------------

  /** A heartbeat pings on the connection it bound, which existed then; what it may close is that one. */
  predicate BeatFits(pc: Pc, made: nat) {
    match pc
    case BeatSending(bound, sentOn, born) => bound == Some(sentOn) && sentOn < born <= made
    case BeatAwaiting(bound, sentOn, born) => bound == Some(sentOn) && sentOn < born <= made
    case BeatClosing(target, born) => target < born <= made
    case _ => true
  }

  ghost predicate Beats(s: State) {
    forall t :: t in s.pcs ==> BeatFits(s.pcs[t], |s.link.conns|)
  }

  lemma BeatsMoved(s: State, s': State, t: Task)
    requires Beats(s) && t in s'.pcs && s'.pcs == s.pcs[t := s'.pcs[t]]
    requires |s.link.conns| <= |s'.link.conns| && BeatFits(s'.pcs[t], |s'.link.conns|)
    ensures Beats(s')
  {
  }

  // ---- histories ----------------------------------------------------------------------------

  /** The attempt number is the streak of unhealthy connections of this supervisor run. */
  predicate Attempts(s: State) {
    s.attempt == Streak(s.ended)
  }

  /** The registry is what the history of acknowledged persistent operations says. */
  ghost predicate Records(s: State) {
    && s.subs == Contents(s.ops)
    && forall i :: 0 <= i < |s.ops| ==>
         && s.ops[i].entry == EntryOf(s.ops[i].entry.channel, s.ops[i].params)
         && s.ops[i].id <= s.core.table.counter
  }

  /** Nothing touches the registry. */
  predicate SameRecords(s: State, s': State) {
    s'.subs == s.subs && s'.ops == s.ops && s.core.table.counter <= s'.core.table.counter
  }

  /** A replay pass so far: one attempt per entry, in the order of the registry as it was when the pass began, each
      framing its entry under a number never used before. */
  ghost predicate Faithful(d: Dialect, s: State, r: Replay) {
    && r.upto <= |s.ops| && r.snapshot == Contents(s.ops[..r.upto]) && |r.sent| <= |r.snapshot|
    && (forall i :: 0 <= i < r.upto ==> s.ops[i].id <= r.since)
    && r.since <= s.core.table.counter
    && (forall j :: 0 <= j < |r.sent| ==>
          && r.sent[j].frame == SubscribeFrame(d, r.snapshot[j].channel, r.snapshot[j].params, r.sent[j].id)
          && r.since < r.sent[j].id <= s.core.table.counter)
    && (forall j, k :: 0 <= j < k < |r.sent| ==> r.sent[j].id < r.sent[k].id)
  }

  predicate Replaying(pc: Pc) {
    pc.ReplaySending? || pc.ReplayAwaiting? || pc.ReplayGap?
  }

  /** The replay that is under way, if one is. */
  function CurrentReplay(s: State): Option<Replay> {
    if Supervisor in s.pcs && Replaying(s.pcs[Supervisor]) then Some(s.pcs[Supervisor].r) else None
  }

  ghost predicate Replays(d: Dialect, s: State) {
    && (CurrentReplay(s).Some? ==> Faithful(d, s, CurrentReplay(s).value))
    && (forall i :: 0 <= i < |s.replays| ==>
          Faithful(d, s, s.replays[i]) && |s.replays[i].sent| == |s.replays[i].snapshot|)
  }

  /** Histories only grow, so what is faithful stays so. */
  ghost predicate Grows(s: State, s': State) {
    s.core.table.counter <= s'.core.table.counter && |s.ops| <= |s'.ops| && s'.ops[..|s.ops|] == s.ops
  }

  lemma FaithfulLater(d: Dialect, s: State, s': State, r: Replay)
    requires Faithful(d, s, r) && Grows(s, s')
    ensures Faithful(d, s', r)
  {
    assert s'.ops[..r.upto] == s.ops[..r.upto];
  }

  /** Completed passes stay as they are; the current one may only stay or end. */
  lemma ReplaysLater(d: Dialect, s: State, s': State)
    requires Replays(d, s) && Grows(s, s') && s'.replays == s.replays
    requires CurrentReplay(s').Some? ==> CurrentReplay(s') == CurrentReplay(s)
    ensures Replays(d, s')
  {
    forall i | 0 <= i < |s.replays| ensures Faithful(d, s', s.replays[i]) {
      FaithfulLater(d, s, s', s.replays[i]);
    }
    if CurrentReplay(s').Some? {
      FaithfulLater(d, s, s', CurrentReplay(s).value);
    }
  }

  lemma FaithfulExtended(d: Dialect, s: State, s': State, r: Replay)
    requires Faithful(d, s, r) && Grows(s, s') && |r.sent| < |r.snapshot|
    requires s'.core.table.counter == s.core.table.counter + 1
    ensures Faithful(d, s', Extended(d, r, s.core.table.counter + 1))
  {
    FaithfulLater(d, s, s', r);
    var n, r' := |r.sent|, Extended(d, r, s.core.table.counter + 1);
    forall j | 0 <= j < |r'.sent|
      ensures r'.sent[j].frame
           == SubscribeFrame(d, r.snapshot[j].channel, r.snapshot[j].params, r'.sent[j].id)
      ensures r.since < r'.sent[j].id <= s'.core.table.counter
      ensures j < n ==> r'.sent[j] == r.sent[j] && r'.sent[j].id < r'.sent[n].id
    {
      if j < n {
        assert r'.sent[j] == r.sent[j];
      }
    }
  }

  /** Where the supervisor stands after one more attempt, or after the end of the pass. */
  predicate Advanced(d: Dialect, s: State, s': State, r: Replay) {
    && s'.replays == ReplaysAfter(s, r)
    && if |r.sent| < |r.snapshot| then
         && CurrentReplay(s') == Some(Extended(d, r, s.core.table.counter + 1))
         && s'.core.table.counter == s.core.table.counter + 1
       else CurrentReplay(s') == None
  }

  lemma AdvancedReplays(d: Dialect, s: State, s': State, r: Replay)
    requires Replays(d, s) && Faithful(d, s, r) && Grows(s, s') && Advanced(d, s, s', r)
    ensures Replays(d, s')
  {
    FaithfulLater(d, s, s', r);
    forall i | 0 <= i < |s.replays| ensures Faithful(d, s', s.replays[i]) {
      FaithfulLater(d, s, s', s.replays[i]);
    }
    if |r.sent| < |r.snapshot| {
      FaithfulExtended(d, s, s', r);
    }
  }

  /** While a replay waits, nobody reads the socket, and nobody flushes the table: its future stays pending. */
  ghost predicate Unanswered(c: Core) {
    Supervisor in c.held && c.held[Supervisor].fut < |c.table.futures| ==>
      c.table.futures[c.held[Supervisor].fut].outcome.Pending?
  }

  lemma UnansweredKept(d: Dialect, c: Core, e: Effect)
    requires Unanswered(c) && Correlation.Inv(d, c) && Enabled(c, e)
    requires Supervisor in c.held ==> !e.Reply? && !e.FlushAll?
    ensures Unanswered(Apply(d, c, e))
  {
    var c' := Apply(d, c, e);
    HeldAfter(d, c, e);
    HeldSlots(d, c, e);
    if Supervisor in c.held {
      var f := c.held[Supervisor].fut;
      StepIsLater(d, c, e);
      if c'.table.futures[f] != c.table.futures[f] {
        SettledBy(d, c, e, f);
      }
    } else if Supervisor in c'.held {
      BeginShape(d, c, Supervisor, e.ping);
    }
  }

  // ---- all together -------------------------------------------------------------------------

  /** The invariants that only look at the table, the program counters and the number of connections. */
  ghost predicate TableInv(d: Dialect, s: State) {
    Correlation.Inv(d, s.core) && WaitersHold(s) && Kinds(s) && Slots(d, s) && Unanswered(s.core) && Beats(s)
  }

  /** Those that look at the other fields. */
  ghost predicate FieldInv(d: Dialect, s: State) {
    Lifecycle(s) && Quiet(s) && Attempts(s) && Records(s) && Replays(d, s)
  }

  ghost predicate Inv(cfg: Config, s: State) {
    TableInv(cfg.dialect, s) && FieldInv(cfg.dialect, s)
  }

  lemma InvInitially(cfg: Config)
    ensures Inv(cfg, INITIAL_STATE)
  {
  }

  /** What is common to all moves of one task. */
  lemma MoverKeeps(d: Dialect, s: State, s': State, e: Effect, t: Task)
    requires TableInv(d, s) && Moves(d, s, s', e, t) && SlotMoves(d, s.core, e, PcOf(s, t), s'.pcs[t])
    requires |s.link.conns| <= |s'.link.conns| && BeatFits(s'.pcs[t], |s'.link.conns|)
    requires e.Reply? || e.FlushAll? ==> t == Supervisor && !Suspended(s, t)
    ensures TableInv(d, s') && Enabled(s.core, e) && s'.core.table.counter == CounterAfter(s.core, e)
  {
    MoveKeepsHolding(d, s, s', e, t);
    assert Supervisor in s.core.held <==> Suspended(s, Supervisor);
    CoreKeeps(d, s.core, e);
    SlotsMoved(d, s, s', e, t);
    BeatsMoved(s, s', t);
  }

  lemma CoreKeeps(d: Dialect, c: Core, e: Effect)
    requires Correlation.Inv(d, c) && Unanswered(c) && Enabled(c, e)
    requires Supervisor in c.held ==> !e.Reply? && !e.FlushAll?
    ensures Correlation.Inv(d, Apply(d, c, e)) && Unanswered(Apply(d, c, e))
    ensures Apply(d, c, e).table.counter == CounterAfter(c, e)
  {
    InvHolds(d, c, e);
    HeldSlots(d, c, e);
    UnansweredKept(d, c, e);
  }

  // ---- the supervisor moves -----------------------------------------------------------------

  lemma ReplayRegisters(cfg: Config, s: State, r: Replay)
    ensures var e, pc' := ReplayEffect(s, r), ReplayPc(cfg, s, r);
            && FitsTask(Supervisor, pc') && Registers(e, Supervisor, false, Waiting(pc'))
            && SlotMoves(cfg.dialect, s.core, e, None, pc') && !e.Reply?
  {
  }

  lemma DropRegisters(cfg: Config, s: State, error: Option<Failure>)
    ensures var e, pc' := DropEffect(s, error), PumpPc(cfg, s);
            && FitsTask(Supervisor, pc') && Registers(e, Supervisor, false, Waiting(pc')) && !Waiting(pc')
            && !e.Begin? && !e.Reply?
  {
  }

  lemma SupervisorRegisters(cfg: Config, s: State, pc: Pc, step: Step)
    requires SupervisorMay(s, pc, step)
    ensures var e, pc' := SupervisorEffect(cfg, s, pc, step), SupervisorPc(cfg, s, pc, step);
            && !Waiting(pc) && FitsTask(Supervisor, pc') && Registers(e, Supervisor, false, Waiting(pc'))
            && SlotMoves(cfg.dialect, s.core, e, None, pc')
  {
    match step
    case HookReturns => DropRegisters(cfg, s, Some(UNHASHABLE));
    case PumpEnds(error) => DropRegisters(cfg, s, error);
    case SupCancelled => DropRegisters(cfg, s, None);
    case HandshakeDone => ReplayRegisters(cfg, s, NewReplay(s));
    case GapEnds => ReplayRegisters(cfg, s, pc.r);
    case _ =>
  }

  /** Everything but the link, the attempt counter and the completed replays stays as it is. */
  predicate SameElsewhere(s: State, s1: State) {
    && s1.core == s.core && s1.subs == s.subs && s1.pcs == s.pcs && s1.clock == s.clock && s1.beats == s.beats
    && s1.starting == s.starting && s1.stopping == s.stopping && s1.ops == s.ops && s1.quiet == s.quiet
  }

  lemma PumpAttempts(cfg: Config, s: State)
    requires Attempts(s)
    ensures Attempts(AfterPump(cfg, s))
  {
    var h := s.ended + [s.link.LifeAt(s.clock).Healthy()];
    assert h[..|s.ended|] == s.ended;
  }

  /** What the end of a pump leaves alone. */
  lemma PumpFields(cfg: Config, s: State)
    ensures var s1 := AfterPump(cfg, s);
            && SameElsewhere(s, s1) && s1.replays == s.replays && |s.link.conns| <= |s1.link.conns|
            && (!s.link.running ==> s1 == s)
            && (s1.link.running ==> s.link.running)
  {
  }

  lemma PumpOpens(cfg: Config, s: State)
    ensures var link, pc := AfterPump(cfg, s).link, PumpPc(cfg, s);
            && (s.link.Valid() ==> link.Valid())
            && (!link.running ==> pc.Over?)
            && (pc.SupConnecting? ==> link.conn == Some(pc.c)) && !pc.SupHandshake?
  {
  }

  /** What any move of the supervisor leaves alone. */
  lemma SupervisorFrame(cfg: Config, s: State, pc: Pc, step: Step)
    requires SupervisorMay(s, pc, step) && Attempts(s)
    ensures var s1 := SupervisorFields(cfg, s, pc, step);
            && SameElsewhere(s, s1)
            && |s.link.conns| <= |s1.link.conns| && Attempts(s1) && (s1.link.running ==> s.link.running)
  {
    if EndsPump(step) {
      PumpFields(cfg, s);
      PumpAttempts(cfg, s);
    }
  }

  predicate EndsPump(step: Step) {
    step.HookReturns? || step.PumpEnds? || step.SupCancelled?
  }

  lemma OpeningOfPump(cfg: Config, s: State, pc: Pc, step: Step)
    requires SupervisorMay(s, pc, step) && EndsPump(step) && s.link.Valid()
    ensures var link, pc' := SupervisorFields(cfg, s, pc, step).link, SupervisorPc(cfg, s, pc, step);
            && link.Valid() && (pc'.SupConnecting? || pc'.SupHandshake? ==> link.conn == Some(pc'.c))
  {
    PumpOpens(cfg, s);
  }

  lemma OpeningOfSupervisor(cfg: Config, s: State, pc: Pc, step: Step)
    requires SupervisorMay(s, pc, step) && s.link.Valid()
    requires pc.SupConnecting? || pc.SupHandshake? ==> s.link.conn == Some(pc.c)
    ensures var link, pc' := SupervisorFields(cfg, s, pc, step).link, SupervisorPc(cfg, s, pc, step);
            && link.Valid() && (pc'.SupConnecting? || pc'.SupHandshake? ==> link.conn == Some(pc'.c))
  {
    if EndsPump(step) {
      OpeningOfPump(cfg, s, pc, step);
    }
  }

  /** A supervisor that finds the client stopped, or ends it, is over. */
  lemma EndingOfSupervisor(cfg: Config, s: State, pc: Pc, step: Step)
    requires SupervisorMay(s, pc, step) && (!s.link.running && !s.stopping.JoinSupervisor? ==> pc.SupTop?)
    ensures !SupervisorFields(cfg, s, pc, step).link.running && !s.stopping.JoinSupervisor? ==>
              SupervisorPc(cfg, s, pc, step).Over?
  {
    PumpOpens(cfg, s);
  }

  lemma LifecycleOfSupervisor(cfg: Config, s: State, pc: Pc, step: Step)
    requires Lifecycle(s) && Attempts(s) && PcOf(s, Supervisor) == Some(pc) && SupervisorMay(s, pc, step)
    ensures Lifecycle(SupervisorRest(cfg, s, pc, step))
  {
    SupervisorFrame(cfg, s, pc, step);
    OpeningOfSupervisor(cfg, s, pc, step);
    EndingOfSupervisor(cfg, s, pc, step);
  }

  lemma QuietOfSupervisor(cfg: Config, s: State, pc: Pc, step: Step)
    requires Lifecycle(s) && Quiet(s) && PcOf(s, Supervisor) == Some(pc) && SupervisorMay(s, pc, step)
    ensures s.quiet ==> step == SupEnters
    ensures Quiet(SupervisorNext(cfg, s, pc, step))
  {
    if !s.quiet {
      PumpFields(cfg, s);
    }
  }

  /** A replay pass advances with the steps that attempt an entry, and only with those. */
  predicate Attempting(step: Step) {
    step.HandshakeDone? || step.GapEnds?
  }

  lemma OtherReplays(cfg: Config, s: State, pc: Pc, step: Step)
    requires SupervisorMay(s, pc, step) && !Attempting(step)
    ensures !Replaying(SupervisorPc(cfg, s, pc, step)) && SupervisorFields(cfg, s, pc, step).replays == s.replays
  {
    PumpFields(cfg, s);
  }

  /** The pass that an attempting step advances. */
  function PassOf(s: State, pc: Pc, step: Step): Replay
    requires SupervisorMay(s, pc, step) && Attempting(step)
  {
    if step.GapEnds? then pc.r else NewReplay(s)
  }

  lemma PassFaithful(d: Dialect, s: State, pc: Pc, step: Step)
    requires Records(s) && Replays(d, s) && PcOf(s, Supervisor) == Some(pc)
    requires SupervisorMay(s, pc, step) && Attempting(step)
    ensures Faithful(d, s, PassOf(s, pc, step))
  {
    assert s.ops[..|s.ops|] == s.ops;
  }

  lemma PassAdvances(cfg: Config, s: State, pc: Pc, step: Step, s': State)
    requires SupervisorMay(s, pc, step) && Attempting(step)
    requires PcOf(s', Supervisor) == Some(SupervisorPc(cfg, s, pc, step))
    requires s'.replays == SupervisorFields(cfg, s, pc, step).replays
    requires s'.core.table.counter == CounterAfter(s.core, SupervisorEffect(cfg, s, pc, step))
    ensures Advanced(cfg.dialect, s, s', PassOf(s, pc, step))
  {
  }

  lemma ReplaysOfSupervisor(cfg: Config, s: State, pc: Pc, step: Step, s': State)
    requires Records(s) && Replays(cfg.dialect, s) && PcOf(s, Supervisor) == Some(pc) && SupervisorMay(s, pc, step)
    requires SameRecords(s, s') && PcOf(s', Supervisor) == Some(SupervisorPc(cfg, s, pc, step))
    requires s'.replays == SupervisorFields(cfg, s, pc, step).replays
    requires s'.core.table.counter == CounterAfter(s.core, SupervisorEffect(cfg, s, pc, step))
    ensures Replays(cfg.dialect, s')
  {
    if Attempting(step) {
      PassFaithful(cfg.dialect, s, pc, step);
      PassAdvances(cfg, s, pc, step, s');
      AdvancedReplays(cfg.dialect, s, s', PassOf(s, pc, step));
    } else {
      OtherReplays(cfg, s, pc, step);
      ReplaysLater(cfg.dialect, s, s');
    }
  }

  lemma SupervisorMoves(cfg: Config, s: State, pc: Pc, step: Step)
    requires PcOf(s, Supervisor) == Some(pc) && SupervisorMay(s, pc, step) && Attempts(s)
    ensures var e, s' := SupervisorEffect(cfg, s, pc, step), SupervisorNext(cfg, s, pc, step);
            && Moves(cfg.dialect, s, s', e, Supervisor) && !Suspended(s, Supervisor)
            && SlotMoves(cfg.dialect, s.core, e, Some(pc), s'.pcs[Supervisor])
            && |s.link.conns| <= |s'.link.conns| && Attempts(s')
  {
    SupervisorFrame(cfg, s, pc, step);
    SupervisorRegisters(cfg, s, pc, step);
  }

  lemma SupervisorKeepsTable(cfg: Config, s: State, pc: Pc, step: Step)
    requires TableInv(cfg.dialect, s) && Attempts(s) && PcOf(s, Supervisor) == Some(pc) && SupervisorMay(s, pc, step)
    ensures var s' := SupervisorNext(cfg, s, pc, step);
            && TableInv(cfg.dialect, s')
            && s'.core.table.counter == CounterAfter(s.core, SupervisorEffect(cfg, s, pc, step))
  {
    var e, s' := SupervisorEffect(cfg, s, pc, step), SupervisorNext(cfg, s, pc, step);
    SupervisorMoves(cfg, s, pc, step);
    MoverKeeps(cfg.dialect, s, s', e, Supervisor);
  }

  lemma HistoriesOfSupervisor(cfg: Config, s: State, pc: Pc, step: Step)
    requires Attempts(s) && Records(s) && Replays(cfg.dialect, s)
    requires PcOf(s, Supervisor) == Some(pc) && SupervisorMay(s, pc, step)
    requires SupervisorNext(cfg, s, pc, step).core.table.counter
          == CounterAfter(s.core, SupervisorEffect(cfg, s, pc, step))
    ensures var s' := SupervisorNext(cfg, s, pc, step); Attempts(s') && Records(s') && Replays(cfg.dialect, s')
  {
    SupervisorFrame(cfg, s, pc, step);
    ReplaysOfSupervisor(cfg, s, pc, step, SupervisorNext(cfg, s, pc, step));
  }

  lemma SupervisorKeepsFields(cfg: Config, s: State, pc: Pc, step: Step)
    requires FieldInv(cfg.dialect, s) && PcOf(s, Supervisor) == Some(pc) && SupervisorMay(s, pc, step)
    requires SupervisorNext(cfg, s, pc, step).core.table.counter
          == CounterAfter(s.core, SupervisorEffect(cfg, s, pc, step))
    ensures FieldInv(cfg.dialect, SupervisorNext(cfg, s, pc, step))
  {
    LifecycleOfSupervisor(cfg, s, pc, step);
    QuietOfSupervisor(cfg, s, pc, step);
    HistoriesOfSupervisor(cfg, s, pc, step);
  }

  // ---- everybody else moves -----------------------------------------------------------------

  /** Waiting or not, the supervisor stays in the pass it is in, or ends. */
  predicate StaysInPass(s: State, s': State) {
    || PcOf(s', Supervisor) == PcOf(s, Supervisor)
    || (&& Suspended(s, Supervisor) && Supervisor in s'.pcs && FitsTask(Supervisor, s.pcs[Supervisor])
        && (s'.pcs[Supervisor].Over?
            || (Replaying(s'.pcs[Supervisor]) && s'.pcs[Supervisor].r == s.pcs[Supervisor].r)))
  }

  /** No connection is made, none comes open, and the current one stays current. */
  predicate LinkOnlyCloses(l: Link, l': Link) {
    && l'.running == l.running && l'.conn == l.conn && |l'.conns| == |l.conns|
    && forall c :: 0 <= c < |l.conns| ==>
         l'.conns[c].connectedAt == l.conns[c].connectedAt && (l'.conns[c].open ==> l.conns[c].open)
  }

  /** The supervision of the client is left alone: its flags, its counters, its lifecycle calls. */
  predicate SameSupervision(s: State, s': State) {
    && StaysInPass(s, s') && LinkOnlyCloses(s.link, s'.link)
    && s'.attempt == s.attempt && s'.ended == s.ended && s'.replays == s.replays
    && s'.starting == s.starting && s'.stopping == s.stopping && s'.quiet == s.quiet && s'.beats == s.beats
    && (s.stopping.Closing? && JoinedHeartbeat(s, s.stopping.known) ==> JoinedHeartbeat(s', s.stopping.known))
  }

  lemma FieldsKept(d: Dialect, s: State, s': State)
    requires FieldInv(d, s) && SameSupervision(s, s') && Grows(s, s') && Records(s')
    requires s.quiet ==> s'.core.table.pending == map[]
    ensures FieldInv(d, s')
  {
    LifecycleUnsupervised(s, s');
    ReplaysLater(d, s, s');
  }

  lemma LifecycleUnsupervised(s: State, s': State)
    requires Lifecycle(s) && SameSupervision(s, s')
    ensures Lifecycle(s')
  {
  }

  lemma SameRecordsKept(s: State, s': State)
    requires Records(s) && SameRecords(s, s')
    ensures Records(s') && Grows(s, s')
  {
  }

  /** In a quiet state there is no open connection, so nothing gets registered for good. */
  lemma QuietTable(d: Dialect, s: State, s': State, e: Effect)
    requires Correlation.Inv(d, s.core) && Enabled(s.core, e) && s'.core == Do(d, s.core, e)
    requires Quiet(s) && (e.Begin? ==> s.link.IsConnected()) && !e.Reply?
    ensures s.quiet ==> s'.core.table.pending == map[]
  {
    if s.quiet {
      NothingRegistered(d, s.core, e);
    }
  }

  lemma HeartbeatRegisters(cfg: Config, s: State, n: nat, pc: Pc, step: Step)
    requires HeartbeatMay(s, n, pc, step)
    ensures var e, pc' := HeartbeatEffect(s, n, step), HeartbeatPc(s, n, pc, step);
            && !Waiting(pc) && FitsTask(Heartbeat(n), pc') && Registers(e, Heartbeat(n), false, Waiting(pc'))
            && SlotMoves(cfg.dialect, s.core, e, Some(pc), pc') && !e.Reply? && !e.FlushAll?
            && (e.Begin? ==> s.link.IsConnected())
            && !pc.Over? && (s.link.Valid() && BeatFits(pc, |s.link.conns|) ==> BeatFits(pc', |s.link.conns|))
  {
  }

  lemma HeartbeatMoves(cfg: Config, s: State, n: nat, pc: Pc, step: Step)
    requires PcOf(s, Heartbeat(n)) == Some(pc) && HeartbeatMay(s, n, pc, step)
    ensures var e, s' := HeartbeatEffect(s, n, step), HeartbeatNext(cfg, s, n, pc, step);
            && Moves(cfg.dialect, s, s', e, Heartbeat(n)) && SameSupervision(s, s')
            && s'.subs == s.subs && s'.ops == s.ops
  {
    HeartbeatRegisters(cfg, s, n, pc, step);
  }

  lemma HeartbeatKeeps(cfg: Config, s: State, n: nat, pc: Pc, step: Step)
    requires Inv(cfg, s) && PcOf(s, Heartbeat(n)) == Some(pc) && HeartbeatMay(s, n, pc, step)
    ensures Inv(cfg, HeartbeatNext(cfg, s, n, pc, step))
  {
    var e, s' := HeartbeatEffect(s, n, step), HeartbeatNext(cfg, s, n, pc, step);
    HeartbeatMoves(cfg, s, n, pc, step);
    HeartbeatRegisters(cfg, s, n, pc, step);
    MoverKeeps(cfg.dialect, s, s', e, Heartbeat(n));
    SameRecordsKept(s, s');
    QuietTable(cfg.dialect, s, s', e);
    FieldsKept(cfg.dialect, s, s');
  }

  lemma CallRegisters(cfg: Config, s: State, n: nat, call: Call)
    ensures var e, pc' := CallEffect(cfg, s, n, call), CallPc(cfg, s, call);
            && FitsTask(Caller(n), pc') && Registers(e, Caller(n), false, Waiting(pc'))
            && SlotMoves(cfg.dialect, s.core, e, None, pc') && !e.Reply? && !e.FlushAll?
            && (e.Begin? ==> s.link.IsConnected())
  {
  }

  lemma CallMoves(cfg: Config, s: State, n: nat, call: Call)
    requires Caller(n) !in s.pcs
    ensures var e, s' := CallEffect(cfg, s, n, call), CallNext(cfg, s, n, call);
            && Moves(cfg.dialect, s, s', e, Caller(n)) && SameSupervision(s, s') && s'.link == s.link
            && s'.subs == s.subs && s'.ops == s.ops
  {
    CallRegisters(cfg, s, n, call);
  }

  lemma CallKeeps(cfg: Config, s: State, n: nat, call: Call)
    requires Inv(cfg, s) && Caller(n) !in s.pcs
    ensures Inv(cfg, CallNext(cfg, s, n, call))
  {
    var e, s' := CallEffect(cfg, s, n, call), CallNext(cfg, s, n, call);
    CallMoves(cfg, s, n, call);
    CallRegisters(cfg, s, n, call);
    MoverKeeps(cfg.dialect, s, s', e, Caller(n));
    SameRecordsKept(s, s');
    QuietTable(cfg.dialect, s, s', e);
    FieldsKept(cfg.dialect, s, s');
  }

  lemma SendRegisters(d: Dialect, c: Core, task: Task, pc: Pc)
    requires FitsTask(task, pc) && Sending(pc)
    ensures var pc' := AfterSend(pc);
            && FitsTask(task, pc') && Waiting(pc') && SlotMoves(d, c, Nothing, Some(pc), pc')
            && (forall made :: BeatFits(pc, made) ==> BeatFits(pc', made))
            && (task.Supervisor? ==> Replaying(pc') && Replaying(pc) && pc'.r == pc.r)
  {
  }

  lemma SendMoves(cfg: Config, s: State, task: Task)
    requires Kinds(s) && task in s.pcs && Sending(s.pcs[task])
    ensures var s' := Goto(s, task, AfterSend(s.pcs[task]));
            Moves(cfg.dialect, s, s', Nothing, task) && SameSupervision(s, s') && SameRecords(s, s')
  {
    SendRegisters(cfg.dialect, s.core, task, s.pcs[task]);
  }

  lemma SendKeeps(cfg: Config, s: State, task: Task)
    requires Inv(cfg, s) && task in s.pcs && Sending(s.pcs[task])
    ensures Inv(cfg, Goto(s, task, AfterSend(s.pcs[task])))
  {
    var s' := Goto(s, task, AfterSend(s.pcs[task]));
    SendRegisters(cfg.dialect, s.core, task, s.pcs[task]);
    SendMoves(cfg, s, task);
    MoverKeeps(cfg.dialect, s, s', Nothing, task);
    SameRecordsKept(s, s');
    FieldsKept(cfg.dialect, s, s');
  }

  /** What ending a wait leads to. */
  lemma WaitRegisters(d: Dialect, link: Link, task: Task, pc: Pc, how: How, outcome: Outcome)
    requires FitsTask(task, pc) && Waiting(pc)
    ensures var pc' := WaitPc(d, link, pc, how, outcome);
            && FitsTask(task, pc') && !Waiting(pc')
            && (pc'.Over? || (Replaying(pc') && Replaying(pc) && pc'.r == pc.r) || !task.Supervisor?)
            && (link.Valid() && BeatFits(pc, |link.conns|) ==> BeatFits(pc', |link.conns|))
  {
  }

  lemma RecordKeeps(s: State, call: Call, id: nat, result: CallResult)
    requires Records(s) && (call.Ping? || id <= s.core.table.counter)
    ensures Records(Record(s, Recorded(call, id, result))) && Grows(s, Record(s, Recorded(call, id, result)))
  {
    var ops := Recorded(call, id, result);
    if ops != [] {
      assert (s.ops + [ops[0]])[..|s.ops|] == s.ops;
    }
  }

  lemma WaitMoves(cfg: Config, s: State, task: Task, how: How)
    requires Kinds(s) && WaitMayEnd(s, task, how)
    ensures var e, s' := WaitEffect(s.pcs[task], task, how), WaitNext(cfg, s, task, how);
            && Moves(cfg.dialect, s, s', e, task) && SameSupervision(s, s') && s'.link == s.link
  {
    WaitRegisters(cfg.dialect, s.link, task, s.pcs[task], how, OutcomeAt(s.core.table, s.core.held[task].fut));
  }

  lemma WaitRecords(cfg: Config, s: State, task: Task, how: How)
    requires Records(s) && Slots(cfg.dialect, s) && WaitMayEnd(s, task, how)
    ensures Records(AfterWait(cfg, s, task, how)) && Grows(s, AfterWait(cfg, s, task, how))
  {
    var pc, outcome := s.pcs[task], OutcomeAt(s.core.table, s.core.held[task].fut);
    if pc.CallAwaiting? {
      assert SlotFits(cfg.dialect, s.core.table.counter, pc, s.core.held[task]);
      RecordKeeps(s, pc.call, pc.id, CallOutcome(cfg.dialect, pc.call, how, outcome));
    }
  }

  lemma WaitKeeps(cfg: Config, s: State, task: Task, how: How)
    requires Inv(cfg, s) && WaitMayEnd(s, task, how)
    ensures Inv(cfg, WaitNext(cfg, s, task, how))
  {
    var e, s' := WaitEffect(s.pcs[task], task, how), WaitNext(cfg, s, task, how);
    WaitMoves(cfg, s, task, how);
    WaitRegisters(cfg.dialect, s.link, task, s.pcs[task], how, OutcomeAt(s.core.table, s.core.held[task].fut));
    MoverKeeps(cfg.dialect, s, s', e, task);
    WaitRecords(cfg, s, task, how);
    QuietTable(cfg.dialect, s, s', e);
    FieldsKept(cfg.dialect, s, s');
  }

  // ---- start(), stop() and the environment --------------------------------------------------

  /** What is common to all steps in which nobody moves. */
  lemma StandersKeep(d: Dialect, s: State, s': State, e: Effect)
    requires TableInv(d, s) && Stands(d, s, s', e) && |s.link.conns| <= |s'.link.conns| && !e.Reply?
    requires e.FlushAll? ==> !Suspended(s, Supervisor)
    ensures TableInv(d, s') && Enabled(s.core, e) && s'.core.table.counter == CounterAfter(s.core, e)
  {
    StandingKeepsHolding(d, s, s', e);
    CoreKeeps(d, s.core, e);
    SlotsStood(d, s, s', e);
  }

  lemma EnvironmentStands(cfg: Config, s: State, step: Step)
    ensures var s' := EnvironmentNext(s, step);
            && Stands(cfg.dialect, s, s', Nothing) && SameSupervision(s, s') && s'.core == s.core
            && s'.subs == s.subs && s'.ops == s.ops
  {
  }

  lemma EnvironmentKeeps(cfg: Config, s: State, step: Step)
    requires Inv(cfg, s)
    ensures Inv(cfg, EnvironmentNext(s, step))
  {
    var s' := EnvironmentNext(s, step);
    EnvironmentStands(cfg, s, step);
    StandersKeep(cfg.dialect, s, s', Nothing);
    SameRecordsKept(s, s');
    FieldsKept(cfg.dialect, s, s');
  }

  lemma LifecycleStands(cfg: Config, s: State, step: Step)
    requires LifecycleMay(s, step) && step != StartReady
    ensures var e, s' := LifecycleEffect(step), LifecycleNext(cfg, s, step);
            Stands(cfg.dialect, s, s', e) && |s.link.conns| <= |s'.link.conns| && !e.Reply?
  {
  }

  lemma StartReadyPcs(cfg: Config, s: State, c: nat, t: Task)
    requires Finished(s, Supervisor) && Kinds(s)
    ensures var s' := AfterStart(cfg, s, c);
            && s'.core == s.core && |s'.link.conns| == |s.link.conns| && s.beats <= s'.beats
            && (t in s.pcs && !t.Supervisor? ==> t in s'.pcs && s'.pcs[t] == s.pcs[t])
            && (t in s'.pcs && t !in s.pcs ==> s'.pcs[t].SupTop? || s'.pcs[t].BeatTop?)
            && (t in s'.pcs ==> FitsTask(t, s'.pcs[t]))
            && (t.Supervisor? ==> t in s'.pcs && s'.pcs[t].SupTop?)
            && (t.Heartbeat? && t in s'.pcs ==> t.n < s'.beats)
            && (Suspended(s', t) <==> Suspended(s, t))
  {
  }

  lemma StartReadyKeepsTable(cfg: Config, s: State, c: nat)
    requires TableInv(cfg.dialect, s) && Finished(s, Supervisor)
    ensures TableInv(cfg.dialect, AfterStart(cfg, s, c))
  {
    forall t {
      StartReadyPcs(cfg, s, c, t);
    }
  }

  lemma LifecycleKeepsTable(cfg: Config, s: State, step: Step)
    requires Inv(cfg, s) && LifecycleMay(s, step)
    ensures TableInv(cfg.dialect, LifecycleNext(cfg, s, step))
  {
    if step == StartReady {
      StartReadyKeepsTable(cfg, s, s.starting.c);
    } else {
      LifecycleStands(cfg, s, step);
      StandersKeep(cfg.dialect, s, LifecycleNext(cfg, s, step), LifecycleEffect(step));
    }
  }

  lemma LifecycleOfStart(cfg: Config, s: State, step: Step)
    requires Lifecycle(s) && LifecycleMay(s, step)
    requires step.StartCall? || step.StartConnected? || step.StartReady? || step.StartFails?
    ensures Lifecycle(LifecycleRest(cfg, s, step))
  {
  }

  lemma LifecycleOfStop(cfg: Config, s: State, step: Step)
    requires Lifecycle(s) && LifecycleMay(s, step)
    requires step.StopCall? || step.StopJoinedSupervisor? || step.StopJoinedHeartbeat? || step.StopClosed?
    ensures Lifecycle(LifecycleRest(cfg, s, step))
  {
  }

  lemma QuietOfLifecycle(cfg: Config, s: State, step: Step)
    requires Lifecycle(s) && Quiet(s) && LifecycleMay(s, step)
    ensures Quiet(LifecycleNext(cfg, s, step))
  {
  }

  lemma LifecycleHistories(cfg: Config, s: State, step: Step)
    requires LifecycleMay(s, step) && Attempts(s)
    ensures var s' := LifecycleNext(cfg, s, step);
            && s'.subs == s.subs && s'.ops == s.ops && s'.replays == s.replays && Attempts(s')
            && s'.core.table.counter == s.core.table.counter
            && (CurrentReplay(s') == CurrentReplay(s) || CurrentReplay(s') == None)
  {
  }

  lemma LifecycleKeepsFields(cfg: Config, s: State, step: Step)
    requires FieldInv(cfg.dialect, s) && LifecycleMay(s, step)
    ensures FieldInv(cfg.dialect, LifecycleNext(cfg, s, step))
  {
    var s' := LifecycleNext(cfg, s, step);
    LifecycleHistories(cfg, s, step);
    SameRecordsKept(s, s');
    ReplaysLater(cfg.dialect, s, s');
    LifecycleOfLifecycle(cfg, s, step);
    QuietOfLifecycle(cfg, s, step);
  }

  lemma LifecycleOfLifecycle(cfg: Config, s: State, step: Step)
    requires Lifecycle(s) && LifecycleMay(s, step)
    ensures Lifecycle(LifecycleNext(cfg, s, step))
  {
    if step.StartCall? || step.StartConnected? || step.StartReady? || step.StartFails? {
      LifecycleOfStart(cfg, s, step);
    } else {
      LifecycleOfStop(cfg, s, step);
    }
  }

  lemma LifecycleKeeps(cfg: Config, s: State, step: Step)
    requires Inv(cfg, s) && LifecycleMay(s, step)
    ensures Inv(cfg, LifecycleNext(cfg, s, step))
  {
    LifecycleKeepsTable(cfg, s, step);
    LifecycleKeepsFields(cfg, s, step);
  }

  // ---- all steps ----------------------------------------------------------------------------

  lemma SupervisorKeeps(cfg: Config, s: State, pc: Pc, step: Step)
    requires Inv(cfg, s) && PcOf(s, Supervisor) == Some(pc) && SupervisorMay(s, pc, step)
    ensures Inv(cfg, SupervisorNext(cfg, s, pc, step))
  {
    SupervisorKeepsTable(cfg, s, pc, step);
    SupervisorKeepsFields(cfg, s, pc, step);
  }

  lemma TaskKeeps(cfg: Config, s: State, step: Step)
    requires Inv(cfg, s) && Possible(s, step) && (OfSupervisor(step) || OfHeartbeat(step))
    ensures Inv(cfg, Next(cfg, s, step))
  {
    if OfSupervisor(step) {
      SupervisorKeeps(cfg, s, s.pcs[Supervisor], step);
    } else {
      HeartbeatKeeps(cfg, s, step.n, s.pcs[Heartbeat(step.n)], step);
    }
  }

  lemma CallBeginKeeps(cfg: Config, s: State, step: Step)
    requires Inv(cfg, s) && Possible(s, step) && step.CallBegin?
    ensures Inv(cfg, Next(cfg, s, step))
  {
    CallKeeps(cfg, s, step.n, step.call);
  }

  lemma SentKeeps(cfg: Config, s: State, step: Step)
    requires Inv(cfg, s) && Possible(s, step) && step.Sent?
    ensures Inv(cfg, Next(cfg, s, step))
  {
    SendKeeps(cfg, s, step.task);
  }

  lemma EndWaitKeeps(cfg: Config, s: State, step: Step)
    requires Inv(cfg, s) && Possible(s, step) && step.EndWait?
    ensures Inv(cfg, Next(cfg, s, step))
  {
    WaitKeeps(cfg, s, step.task, step.how);
  }

  lemma WaiterKeeps(cfg: Config, s: State, step: Step)
    requires Inv(cfg, s) && Possible(s, step) && (step.CallBegin? || step.Sent? || step.EndWait?)
    ensures Inv(cfg, Next(cfg, s, step))
  {
    if step.CallBegin? {
      CallBeginKeeps(cfg, s, step);
    } else if step.Sent? {
      SentKeeps(cfg, s, step);
    } else {
      EndWaitKeeps(cfg, s, step);
    }
  }

  lemma LifecycleStepKeeps(cfg: Config, s: State, step: Step)
    requires Inv(cfg, s) && Possible(s, step) && OfLifecycle(step)
    ensures Inv(cfg, Next(cfg, s, step))
  {
    LifecycleKeeps(cfg, s, step);
  }

  lemma EnvironmentStepKeeps(cfg: Config, s: State, step: Step)
    requires Inv(cfg, s) && Possible(s, step) && (step.Tick? || step.SocketDrops?)
    ensures Inv(cfg, Next(cfg, s, step))
  {
    EnvironmentKeeps(cfg, s, step);
  }

  lemma InvKept(cfg: Config, s: State, step: Step)
    requires Inv(cfg, s) && Possible(s, step)
    ensures Inv(cfg, Next(cfg, s, step))
  {
    if OfSupervisor(step) || OfHeartbeat(step) {
      TaskKeeps(cfg, s, step);
    } else if OfLifecycle(step) {
      LifecycleStepKeeps(cfg, s, step);
    } else if step.Tick? || step.SocketDrops? {
      EnvironmentStepKeeps(cfg, s, step);
    } else {
      WaiterKeeps(cfg, s, step);
    }
  }

  lemma RegistersEnabled(s: State, e: Effect, t: Task, waits': bool)
    requires WaitersHold(s) && Registers(e, t, Suspended(s, t), waits')
    ensures Enabled(s.core, e)
  {
    assert t in s.core.held <==> Suspended(s, t);
  }

  lemma EffectEnabled(cfg: Config, s: State, step: Step)
    requires WaitersHold(s) && Possible(s, step)
    ensures Enabled(s.core, EffectOf(cfg, s, step))
  {
    if OfSupervisor(step) {
      SupervisorRegisters(cfg, s, s.pcs[Supervisor], step);
      RegistersEnabled(s, EffectOf(cfg, s, step), Supervisor, Waiting(SupervisorPc(cfg, s, s.pcs[Supervisor], step)));
    } else if OfHeartbeat(step) {
      var t := Heartbeat(step.n);
      HeartbeatRegisters(cfg, s, step.n, s.pcs[t], step);
      RegistersEnabled(s, EffectOf(cfg, s, step), t, Waiting(HeartbeatPc(s, step.n, s.pcs[t], step)));
    } else if step.CallBegin? {
      CallRegisters(cfg, s, step.n, step.call);
      RegistersEnabled(s, EffectOf(cfg, s, step), Caller(step.n), Waiting(CallPc(cfg, s, step.call)));
    }
  }

  lemma NextCore(cfg: Config, s: State, step: Step)
    requires Possible(s, step)
    ensures Next(cfg, s, step).core == Do(cfg.dialect, s.core, EffectOf(cfg, s, step))
  {
  }
}
