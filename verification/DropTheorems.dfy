/** What holds over every run when connections end: who is released, what is decided, and how often. */
module DropTheorems {
  import opened Wire
  import opened Dialects
  import opened Rpc
  import opened Correlation
  import opened Reconnect
  import opened Connections
  import opened Engine
  import opened EngineInvariants
  import opened EngineTheorems

  /** The steps in which a pump ends while the client runs, so that the supervisor consults the policy. */
  predicate Drops(cfg: Config, s: State, step: Step)
    requires Possible(s, step)
  {
    s.link.running
    && (step.PumpEnds? || (step.HookReturns? && RoutingAt(cfg, s, s.pcs[Supervisor].msg).Raised?))
  }

  function DropError(step: Step): Failure {
    AsConnectionError(if step.PumpEnds? then step.error else Some(UNHASHABLE))
  }

  /** A drop is a flush of the table and the supervisor's decision, and nothing else. */
  lemma DropNext(cfg: Config, s: State, step: Step)
    requires Possible(s, step) && Drops(cfg, s, step)
    ensures Next(cfg, s, step)
         == AfterPump(cfg, s).(pcs := s.pcs[Supervisor := PumpPc(cfg, s)],
                               core := s.core.(table := Flush(s.core.table, Failed(DropError(step)))))
  {
  }

  // ---- who is released ----------------------------------------------------------------------

  /** What becomes of future `f`: registered and still pending, it fails with `error`; otherwise it stays as it is. */
  predicate FailedAlike(t: Table, t': Table, error: Failure, f: nat) {
    f < |t.futures| ==>
      && f < |t'.futures| && t'.futures[f].key == t.futures[f].key
      && t'.futures[f].outcome
         == if t.futures[f].outcome.Pending? && Registered(t, f) then Failed(error) else t.futures[f].outcome
  }

  /** By the time the policy is asked the table is empty; what was registered and pending has failed with a
      ConnectionError that tells what ended the connection; what already had an outcome keeps it; unregistered futures
      are untouched. Nobody else's program counter moves. */
  lemma DropLaw(cfg: Config, s: State, step: Step, f: nat)
    requires Possible(s, step) && Drops(cfg, s, step)
    ensures var s' := Next(cfg, s, step);
            && s'.core.table.pending == map[] && s'.core.table.counter == s.core.table.counter
            && s'.core.held == s.core.held && s'.pcs - {Supervisor} == s.pcs - {Supervisor}
            && FailedAlike(s.core.table, s'.core.table, DropError(step), f)
    ensures DropError(step).ConnectionError?
    ensures step.PumpEnds? && step.error.Some? && step.error.value.OtherError? ==>
              DropError(step).cause == Some(step.error.value.description)
  {
    DropNext(cfg, s, step);
  }

  /** A drop releases every request in flight: whoever was waiting on one finds its future done. A ping is released
      exactly when its future was already done or still held the slot. */
  lemma DropReleases(cfg: Config, s: State, step: Step, t: Task)
    requires EngineInvariants.Inv(cfg, s) && Possible(s, step) && Drops(cfg, s, step) && t in s.core.held
    ensures ReleasedBy(s.core, Next(cfg, s, step).core, s.core.held[t])
  {
    DropNext(cfg, s, step);
    FlushReleases(cfg.dialect, s.core, t, DropError(step));
  }

  predicate ReleasedBy(c: Core, c': Core, h: Held) {
    && (h.key != PONG_KEY ==> SettledIn(c', h.fut))
    && (SettledIn(c', h.fut)
        <==> SettledIn(c, h.fut) || (h.key in c.table.pending && c.table.pending[h.key] == h.fut))
  }

  lemma FlushReleases(d: Dialect, c: Core, t: Task, error: Failure)
    requires Correlation.Inv(d, c) && t in c.held
    ensures ReleasedBy(c, c.(table := Flush(c.table, Failed(error))), c.held[t])
  {
    var h := c.held[t];
    FlushLaw(c.table, Failed(error), h.fut);
    if Registered(c.table, h.fut) {
      var k :| k in c.table.pending && c.table.pending[k] == h.fut;
      assert k == h.key;
    }
  }

  // ---- what is decided ----------------------------------------------------------------------

  predicate GaveUpCleanly(s: State) {
    !s.link.running && s.link.shutdown && s.core.table.pending == map[] && Finished(s, Supervisor)
  }

  predicate Decided(cfg: Config, s: State, s': State) {
    match cfg.reconnect
    case None => GaveUpCleanly(s') && s'.ended == s.ended
    case Some(policy) =>
      && s'.ended == s.ended + [s.link.LifeAt(s.clock).Healthy()] && s'.attempt == Streak(s'.ended)
      && match policy(s'.attempt)
         case GiveUp => GaveUpCleanly(s')
         case Raises => s'.link.running && At(s', Supervisor, Over)
         case Wait(delay) =>
           s'.link.running && At(s', Supervisor, if delay > 0.0 then SupAsleep else SupConnecting(|s.link.conns|))
  }

  /** The decision of a drop: the attempt number becomes the streak of unhealthy connections, this one included.
      If reconnecting is disabled or the policy gives up, the client ends with nothing pending. */
  lemma DecisionLaw(cfg: Config, s: State, step: Step)
    requires EngineInvariants.Inv(cfg, s) && Possible(s, step) && Drops(cfg, s, step)
    ensures Decided(cfg, s, Next(cfg, s, step))
  {
    DropNext(cfg, s, step);
    PumpDecides(cfg, s, Next(cfg, s, step).core);
  }

  lemma PumpDecides(cfg: Config, s: State, core: Core)
    requires s.link.running && Attempts(s) && core.table.pending == map[]
    ensures Decided(cfg, s, AfterPump(cfg, s).(pcs := s.pcs[Supervisor := PumpPc(cfg, s)], core := core))
  {
    PumpAttempts(cfg, s);
  }

  /** In every reachable state the attempt number counts the connections since the last one that stayed up at least
      five seconds past its handshake, or since start(). */
  lemma AttemptIsHistory(cfg: Config, ss: seq<State>, steps: seq<Step>, i: nat)
    requires IsRun(cfg, ss, steps) && i < |ss|
    ensures var h, k := ss[i].ended, ss[i].attempt;
            && k <= |h| && (forall j :: |h| - k <= j < |h| ==> !h[j]) && (k < |h| ==> h[|h| - k - 1])
  {
    Reachable(cfg, ss, steps, i);
    StreakCounts(ss[i].ended);
  }

  /** What becomes of the record of connections: a drop adds an entry to it, a start() clears it, nothing else touches
      it. */
  predicate EndedAlike(cfg: Config, s: State, step: Step, s': State)
    requires Possible(s, step)
  {
    if Drops(cfg, s, step) && cfg.reconnect.Some? then s'.ended == s.ended + [UpTime(s) >= 5.0]
    else s'.ended == if step.StartReady? then [] else s.ended
  }

  lemma EndedStep(cfg: Config, s: State, step: Step)
    requires Lifecycle(s) && Possible(s, step)
    ensures EndedAlike(cfg, s, step, Next(cfg, s, step))
  {
    if Drops(cfg, s, step) {
      DropNext(cfg, s, step);
    } else if OfSupervisor(step) {
      SupervisorEnded(cfg, s, s.pcs[Supervisor], step);
    }
  }

  lemma SupervisorEnded(cfg: Config, s: State, pc: Pc, step: Step)
    requires StopFits(s) && PcOf(s, Supervisor) == Some(pc) && SupervisorMay(s, pc, step)
    requires s.link.running ==> !step.PumpEnds? && (step.HookReturns? ==> !RoutingAt(cfg, s, pc.msg).Raised?)
    ensures SupervisorNext(cfg, s, pc, step).ended == s.ended
  {
  }

  lemma EndedRun(cfg: Config, ss: seq<State>, steps: seq<Step>, i: nat)
    requires IsRun(cfg, ss, steps) && i < |steps|
    ensures Takes(cfg, ss, steps, i) && EndedAlike(cfg, ss[i], steps[i], ss[i + 1])
  {
    Reachable(cfg, ss, steps, i);
    assert Takes(cfg, ss, steps, i);
    EndedStep(cfg, ss[i], steps[i]);
  }

  /** Behind every entry of that record there is the drop that made it, in the same run of the supervisor. The entry
      says whether the connection had been up for five seconds. */
  lemma {:induction false} EntryBehind(cfg: Config, ss: seq<State>, steps: seq<Step>, i: nat, j: nat)
    returns (k: nat)
    requires IsRun(cfg, ss, steps) && i < |ss| && j < |ss[i].ended|
    ensures k < i && Takes(cfg, ss, steps, k) && Drops(cfg, ss[k], steps[k]) && |ss[k].ended| == j
    ensures ss[i].ended[j] <==> UpTime(ss[k]) >= 5.0
    ensures forall m :: k < m < i && m < |steps| ==> !steps[m].StartReady?
  {
    k := i - 1;
    EndedRun(cfg, ss, steps, k);
    if j < |ss[k].ended| {
      k := EntryBehind(cfg, ss, steps, k, j);
    }
  }

  /** Under the default policy a drop ends the supervisor exactly after 1025 unhealthy connections in a row; it does
      so with an OverflowError, and leaves the client marked running. */
  lemma DefaultDies(cfg: Config, s: State, step: Step)
    requires EngineInvariants.Inv(cfg, s) && Possible(s, step) && Drops(cfg, s, step)
    requires cfg.reconnect == Some(a => DefaultBackoff(a))
    ensures var s' := Next(cfg, s, step);
            (Finished(s', Supervisor) <==> LastUnhealthy(s'.ended, 1025)) && s'.link.running
  {
    DecisionLaw(cfg, s, step);
    DefaultDecides(cfg, s, Next(cfg, s, step));
  }

  lemma DefaultDecides(cfg: Config, s: State, s': State)
    requires Decided(cfg, s, s') && cfg.reconnect == Some(a => DefaultBackoff(a))
    ensures (Finished(s', Supervisor) <==> LastUnhealthy(s'.ended, 1025)) && s'.link.running
  {
    StreakAtLeast(s'.ended, 1025);
    BackoffAnswers(s'.attempt);
  }

  // ---- what counts as healthy ---------------------------------------------------------------

  /** The handshake of connection `c` completes. */
  predicate Accepts(s: State, step: Step, c: nat) {
    || (step.HandshakeDone? && At(s, Supervisor, SupHandshake(c)))
    || (step.StartReady? && s.starting == StartHandshake(c))
  }

  /** The connection time of `c` is the present if its handshake has just been accepted, and as before if not; a new
      connection has none. */
  predicate ConnectedAlike(s: State, link: Link, step: Step, c: nat) {
    && |s.link.conns| <= |link.conns|
    && (c < |s.link.conns| ==>
          link.conns[c].connectedAt == if Accepts(s, step, c) then Some(s.clock) else s.link.conns[c].connectedAt)
    && (|s.link.conns| <= c < |link.conns| ==> link.conns[c].connectedAt == None)
  }

  lemma SupervisorConnects(cfg: Config, s: State, pc: Pc, step: Step, c: nat)
    requires PcOf(s, Supervisor) == Some(pc) && SupervisorMay(s, pc, step)
    ensures ConnectedAlike(s, SupervisorFields(cfg, s, pc, step).link, step, c)
  {
    if EndsPump(step) {
      PumpConnects(cfg, s, step, c);
    }
  }

  lemma PumpConnects(cfg: Config, s: State, step: Step, c: nat)
    requires EndsPump(step)
    ensures ConnectedAlike(s, AfterPump(cfg, s).link, step, c)
  {
  }

  lemma LifecycleConnects(cfg: Config, s: State, step: Step, c: nat)
    requires LifecycleMay(s, step)
    ensures ConnectedAlike(s, LifecycleNext(cfg, s, step).link, step, c)
  {
  }

  lemma WaitLink(cfg: Config, s: State, task: Task, how: How)
    requires WaitMayEnd(s, task, how)
    ensures WaitNext(cfg, s, task, how).link == s.link
  {
  }

  /** The connection time is written by exactly the completed handshakes on that very connection, and is the time of
      that step; so a connection that failed to open or to authenticate never resets the attempt number. */
  lemma OnlyHandshakesConnect(cfg: Config, s: State, step: Step, c: nat)
    requires Possible(s, step)
    ensures ConnectedAlike(s, Next(cfg, s, step).link, step, c)
  {
    if OfSupervisor(step) {
      SupervisorConnects(cfg, s, s.pcs[Supervisor], step, c);
    } else if OfLifecycle(step) {
      LifecycleConnects(cfg, s, step, c);
    } else if step.EndWait? {
      WaitLink(cfg, s, step.task, step.how);
    }
  }

  /** Behind every connection time in a run there is the handshake that wrote it. */
  lemma {:induction false} HandshakeBehind(cfg: Config, ss: seq<State>, steps: seq<Step>, i: nat, c: nat)
    returns (h: nat)
    requires IsRun(cfg, ss, steps) && i < |ss|
    requires c < |ss[i].link.conns| && ss[i].link.conns[c].connectedAt.Some?
    ensures h < i && Accepts(ss[h], steps[h], c) && ss[i].link.conns[c].connectedAt == Some(ss[h].clock)
  {
    h := i - 1;
    assert Takes(cfg, ss, steps, h);
    OnlyHandshakesConnect(cfg, ss[h], steps[h], c);
    if !(Accepts(ss[h], steps[h], c) && ss[i].link.conns[c].connectedAt == Some(ss[h].clock)) {
      h := HandshakeBehind(cfg, ss, steps, h, c);
    }
  }

  /** A drop that counts as healthy, and so resets the attempt number, ends a connection whose handshake was accepted
      earlier in the run, at least five seconds before. */
  lemma HealthyBehind(cfg: Config, ss: seq<State>, steps: seq<Step>, i: nat) returns (h: nat, c: nat)
    requires IsRun(cfg, ss, steps) && Takes(cfg, ss, steps, i) && Drops(cfg, ss[i], steps[i]) && cfg.reconnect.Some?
    requires ss[i + 1].ended != [] && ss[i + 1].ended[|ss[i + 1].ended| - 1]
    ensures ss[i].link.conn == Some(c) && h < i && Accepts(ss[h], steps[h], c)
    ensures ss[i].clock - ss[h].clock >= 5.0 && ss[i + 1].attempt == 0
  {
    Reachable(cfg, ss, steps, i);
    DecisionLaw(cfg, ss[i], steps[i]);
    HealthyReset(cfg, ss[i], ss[i + 1]);
    c := ss[i].link.conn.value;
    h := HandshakeBehind(cfg, ss, steps, i, c);
  }

  /** Time passes only in the environment's own steps, in which nothing else happens. */
  lemma TimePasses(cfg: Config, s: State, step: Step)
    requires Attempts(s) && Possible(s, step)
    ensures if step.Tick? then Next(cfg, s, step) == s.(clock := s.clock + step.dt) && step.dt >= 0.0
            else Next(cfg, s, step).clock == s.clock
  {
    if OfSupervisor(step) {
      SupervisorFrame(cfg, s, s.pcs[Supervisor], step);
    }
  }

  /** How long the current connection has been authenticated; 0 if there is none or it never was. */
  function UpTime(s: State): real {
    if s.link.conn.Some? && s.link.conn.value < |s.link.conns| && s.link.conns[s.link.conn.value].connectedAt.Some?
    then s.clock - s.link.conns[s.link.conn.value].connectedAt.value else 0.0
  }

  /** With reconnecting enabled, a drop resets the attempt number exactly if the connection had been up for five
      seconds, and otherwise adds one. */
  lemma ResetLaw(cfg: Config, s: State, step: Step)
    requires Possible(s, step) && Drops(cfg, s, step) && cfg.reconnect.Some?
    ensures var s' := Next(cfg, s, step);
            && s'.attempt == (if UpTime(s) >= 5.0 then 0 else s.attempt + 1)
            && s'.ended == s.ended + [UpTime(s) >= 5.0]
  {
    DropNext(cfg, s, step);
  }

  lemma AcceptedOnce(s: State, step: Step, c: nat)
    requires Lifecycle(s) && Accepts(s, step, c)
    ensures c < |s.link.conns| && s.link.conns[c].connectedAt == None
  {
  }

  /** Since its handshake a connection has that connection time. */
  lemma {:induction false} ConnectedSince(cfg: Config, ss: seq<State>, steps: seq<Step>, h: nat, i: nat, c: nat)
    requires IsRun(cfg, ss, steps) && h < i < |ss| && Accepts(ss[h], steps[h], c)
    ensures c < |ss[i].link.conns| && ss[i].link.conns[c].connectedAt == Some(ss[h].clock)
    decreases i
  {
    if h < i - 1 {
      ConnectedSince(cfg, ss, steps, h, i - 1, c);
      ConnectedStays(cfg, ss, steps, i - 1, c);
    } else {
      ConnectedFirst(cfg, ss, steps, h, c);
    }
  }

  lemma ConnectedFirst(cfg: Config, ss: seq<State>, steps: seq<Step>, h: nat, c: nat)
    requires IsRun(cfg, ss, steps) && h < |steps| && Accepts(ss[h], steps[h], c)
    ensures c < |ss[h + 1].link.conns| && ss[h + 1].link.conns[c].connectedAt == Some(ss[h].clock)
  {
    Reachable(cfg, ss, steps, h);
    assert Takes(cfg, ss, steps, h);
    GetsConnected(cfg, ss[h], steps[h], c);
  }

  lemma ConnectedStays(cfg: Config, ss: seq<State>, steps: seq<Step>, i: nat, c: nat)
    requires IsRun(cfg, ss, steps) && i < |steps| && c < |ss[i].link.conns| && ss[i].link.conns[c].connectedAt.Some?
    ensures c < |ss[i + 1].link.conns| && ss[i + 1].link.conns[c].connectedAt == ss[i].link.conns[c].connectedAt
  {
    Reachable(cfg, ss, steps, i);
    assert Takes(cfg, ss, steps, i);
    StaysConnected(cfg, ss[i], steps[i], c);
  }

  lemma GetsConnected(cfg: Config, s: State, step: Step, c: nat)
    requires Lifecycle(s) && Possible(s, step) && Accepts(s, step, c)
    ensures var link := Next(cfg, s, step).link; c < |link.conns| && link.conns[c].connectedAt == Some(s.clock)
  {
    AcceptedOnce(s, step, c);
    OnlyHandshakesConnect(cfg, s, step, c);
  }

  lemma StaysConnected(cfg: Config, s: State, step: Step, c: nat)
    requires Lifecycle(s) && Possible(s, step) && c < |s.link.conns| && s.link.conns[c].connectedAt.Some?
    ensures var link := Next(cfg, s, step).link;
            c < |link.conns| && link.conns[c].connectedAt == s.link.conns[c].connectedAt
  {
    OnlyHandshakesConnect(cfg, s, step, c);
    if Accepts(s, step, c) {
      AcceptedOnce(s, step, c);
    }
  }

  /** Over a run: the drop of a connection resets the attempt number exactly if its handshake was accepted five seconds
      before or earlier. */
  lemma ResetsAfterFive(cfg: Config, ss: seq<State>, steps: seq<Step>, h: nat, i: nat, c: nat)
    requires IsRun(cfg, ss, steps) && cfg.reconnect.Some?
    requires Takes(cfg, ss, steps, i) && Drops(cfg, ss[i], steps[i]) && ss[i].link.conn == Some(c)
    requires h < i && Accepts(ss[h], steps[h], c)
    ensures ss[i + 1].attempt == if ss[i].clock - ss[h].clock >= 5.0 then 0 else ss[i].attempt + 1
  {
    ConnectedSince(cfg, ss, steps, h, i, c);
    ResetLaw(cfg, ss[i], steps[i]);
  }

  /** And a connection whose handshake was never accepted counts as one more failure, whatever the time. */
  lemma CountsUnaccepted(cfg: Config, ss: seq<State>, steps: seq<Step>, i: nat, c: nat)
    requires IsRun(cfg, ss, steps) && cfg.reconnect.Some?
    requires Takes(cfg, ss, steps, i) && Drops(cfg, ss[i], steps[i]) && ss[i].link.conn == Some(c)
    requires forall h :: 0 <= h < i ==> !Accepts(ss[h], steps[h], c)
    ensures ss[i + 1].attempt == ss[i].attempt + 1
  {
    ResetLaw(cfg, ss[i], steps[i]);
    if c < |ss[i].link.conns| && ss[i].link.conns[c].connectedAt.Some? {
      var h := HandshakeBehind(cfg, ss, steps, i, c);
      assert false;
    }
  }

  lemma HealthyReset(cfg: Config, s: State, s': State)
    requires cfg.reconnect.Some? && Decided(cfg, s, s') && s'.ended != [] && s'.ended[|s'.ended| - 1]
    ensures s'.attempt == 0 && s.link.conn.Some? && s.link.conn.value < |s.link.conns|
    ensures var at := s.link.conns[s.link.conn.value].connectedAt; at.Some? && s.clock - at.value >= 5.0
  {
  }

  // ---- how often ----------------------------------------------------------------------------

  /** How many of these connections were healthy. */
  function Resets(h: History): nat {
    if h == [] then 0 else Resets(h[..|h| - 1]) + if h[|h| - 1] then 1 else 0
  }

  predicate NoneHealthy(h: History) {
    forall j :: 0 <= j < |h| ==> !h[j]
  }

  lemma {:induction false} NoResets(h: History)
    requires NoneHealthy(h)
    ensures Resets(h) == 0
  {
    if h != [] {
      NoResets(h[..|h| - 1]);
    }
  }

  ghost predicate BoundedBy(cfg: Config, limit: nat) {
    cfg.reconnect.Some? ==> forall a: nat :: a > limit ==> !cfg.reconnect.value(a).Wait?
  }

  /** A supervisor that is still going is on an attempt within the limit, and each reset buys `limit + 1` decisions. */
  predicate Within(s: State, limit: nat) {
    && (!Finished(s, Supervisor) ==> s.attempt <= limit) && s.attempt <= limit + 1
    && |s.ended| <= Resets(s.ended) * (limit + 1) + s.attempt
  }

  lemma {:induction false} RunWithin(cfg: Config, ss: seq<State>, steps: seq<Step>, limit: nat, i: nat)
    requires IsRun(cfg, ss, steps) && BoundedBy(cfg, limit) && i < |ss|
    ensures Within(ss[i], limit)
  {
    if i > 0 {
      RunWithin(cfg, ss, steps, limit, i - 1);
      assert Takes(cfg, ss, steps, i - 1);
      StepWithin(cfg, ss[i - 1], steps[i - 1], limit);
    }
  }

  lemma StepWithin(cfg: Config, s: State, step: Step, limit: nat)
    requires Possible(s, step) && BoundedBy(cfg, limit) && Within(s, limit)
    ensures Within(Next(cfg, s, step), limit)
  {
    if OfSupervisor(step) {
      SupervisorWithin(cfg, s, s.pcs[Supervisor], step, limit);
    } else if OfLifecycle(step) {
      LifecycleWithin(cfg, s, step, limit);
    } else if step.EndWait? {
      WaitWithin(cfg, s, step.task, step.how, limit);
    }
  }

  lemma PumpWithin(cfg: Config, s: State, limit: nat)
    requires BoundedBy(cfg, limit) && Within(s, limit) && s.attempt <= limit
    ensures var s1, pc := AfterPump(cfg, s), PumpPc(cfg, s);
            && (!pc.Over? ==> s1.attempt <= limit) && s1.attempt <= limit + 1
            && |s1.ended| <= Resets(s1.ended) * (limit + 1) + s1.attempt
  {
    var healthy := s.link.LifeAt(s.clock).Healthy();
    var h, r := s.ended + [healthy], Resets(s.ended);
    assert h[..|s.ended|] == s.ended;
    assert (r + 1) * (limit + 1) == r * (limit + 1) + (limit + 1);
  }

  lemma SupervisorWithin(cfg: Config, s: State, pc: Pc, step: Step, limit: nat)
    requires BoundedBy(cfg, limit) && Within(s, limit)
    requires PcOf(s, Supervisor) == Some(pc) && SupervisorMay(s, pc, step)
    ensures Within(SupervisorNext(cfg, s, pc, step), limit)
  {
    if EndsPump(step) {
      PumpWithin(cfg, s, limit);
    }
  }

  lemma LifecycleWithin(cfg: Config, s: State, step: Step, limit: nat)
    requires Within(s, limit) && LifecycleMay(s, step)
    ensures Within(LifecycleNext(cfg, s, step), limit)
  {
  }

  lemma WaitWithin(cfg: Config, s: State, task: Task, how: How, limit: nat)
    requires Within(s, limit) && WaitMayEnd(s, task, how)
    ensures Within(WaitNext(cfg, s, task, how), limit)
  {
  }

  /** Under a policy that stops waiting past `limit`, a supervisor run with `r` healthy connections takes at most
      (r + 1) (limit + 1) decisions, and is over after that many. */
  lemma BoundedDecisions(cfg: Config, ss: seq<State>, steps: seq<Step>, limit: nat, i: nat)
    requires IsRun(cfg, ss, steps) && BoundedBy(cfg, limit) && i < |ss|
    ensures |ss[i].ended| <= (Resets(ss[i].ended) + 1) * (limit + 1)
    ensures |ss[i].ended| == (Resets(ss[i].ended) + 1) * (limit + 1) ==> Finished(ss[i], Supervisor)
  {
    RunWithin(cfg, ss, steps, limit, i);
    var r := Resets(ss[i].ended);
    assert (r + 1) * (limit + 1) == r * (limit + 1) + (limit + 1);
  }

  /** The policy gives up, rather than raise, past `limit`. */
  ghost predicate GivesUpPast(cfg: Config, limit: nat) {
    cfg.reconnect.Some? ==> forall a: nat :: a > limit ==> cfg.reconnect.value(a) == GiveUp
  }

  /** If it gives up there, the decision that reaches the bound ends the client: not running, shut down, nothing
      pending. Without healthy connections that is decision `limit + 1`. */
  lemma BoundedEnd(cfg: Config, ss: seq<State>, steps: seq<Step>, limit: nat, i: nat)
    requires IsRun(cfg, ss, steps) && GivesUpPast(cfg, limit) && Takes(cfg, ss, steps, i) && Drops(cfg, ss[i], steps[i])
    ensures var h := ss[i + 1].ended;
            && (|h| == (Resets(h) + 1) * (limit + 1) ==> GaveUpCleanly(ss[i + 1]))
            && (|h| == limit + 1 && NoneHealthy(h) ==> GaveUpCleanly(ss[i + 1]))
  {
    Reachable(cfg, ss, steps, i);
    DecisionLaw(cfg, ss[i], steps[i]);
    RunWithin(cfg, ss, steps, limit, i + 1);
    EndAtBound(cfg, ss[i], ss[i + 1], limit);
  }

  lemma EndAtBound(cfg: Config, s: State, s': State, limit: nat)
    requires GivesUpPast(cfg, limit) && Decided(cfg, s, s') && Within(s', limit)
    ensures var h := s'.ended;
            && (|h| == (Resets(h) + 1) * (limit + 1) ==> GaveUpCleanly(s'))
            && (|h| == limit + 1 && NoneHealthy(h) ==> GaveUpCleanly(s'))
  {
    var r := Resets(s'.ended);
    assert (r + 1) * (limit + 1) == r * (limit + 1) + (limit + 1);
    if NoneHealthy(s'.ended) {
      NoResets(s'.ended);
    }
  }
}
