/** What holds over every run of the subscription registry and of its replay after a reconnect. */
module ReplayTheorems {
  import opened Wire
  import opened Dialects
  import opened Rpc
  import opened Correlation
  import opened Registry
  import opened Connections
  import opened Engine
  import opened EngineInvariants
  import opened EngineTheorems

  /** The registry refines its history in every reachable state: no duplicates, exactly the entries whose last completed
      persistent operation was a subscribe, in the order in which they last entered. */
  lemma RegistryRefines(cfg: Config, ss: seq<State>, steps: seq<Step>, i: nat) returns (times: seq<nat>)
    requires IsRun(cfg, ss, steps) && i < |ss|
    ensures Distinct(ss[i].subs)
    ensures forall e :: e in ss[i].subs <==> Active(ss[i].ops, e)
    ensures EntryTimes(ss[i].ops, ss[i].subs, times)
  {
    Reachable(cfg, ss, steps, i);
    times := ContentsLaw(ss[i].ops);
  }

  /** The step in which a persistent subscribe or an unsubscribe is acknowledged. */
  predicate Acknowledges(d: Dialect, s: State, step: Step) {
    && step.EndWait? && step.how.Woken? && step.task.Caller?
    && step.task in s.pcs && step.task in s.core.held && s.pcs[step.task].CallAwaiting?
    && (var call := s.pcs[step.task].call; call.Unsubscribe? || (call.Subscribe? && call.persist))
    && (var outcome := OutcomeAt(s.core.table, s.core.held[step.task].fut);
        outcome.Result? && !d.Rejects(outcome.msg))
  }

  /** Nothing has been done to the registry. */
  predicate Unmarked(s: State, s': State) {
    s'.ops == s.ops && s'.subs == s.subs
  }

  /** The operation of call `pc` has been done, and nothing else. */
  predicate Marked(s: State, s': State, pc: Pc)
    requires pc.CallAwaiting? && (pc.call.Subscribe? || pc.call.Unsubscribe?)
  {
    var op := Op(EntryOf(pc.call.channel, pc.call.params), pc.call.Subscribe?, pc.call.params, pc.id);
    s'.ops == s.ops + [op] && s'.subs == Registry.Step(s.subs, op)
  }

  /** Which steps leave a mark on that history: exactly those in which a persistent subscribe or an unsubscribe
      receives an acknowledgement. A replay, a rejection, a timeout, a drop or a stop leaves none. */
  lemma HistoryStep(cfg: Config, s: State, step: Step)
    requires EngineInvariants.Inv(cfg, s) && Possible(s, step)
    ensures if Acknowledges(cfg.dialect, s, step) then Marked(s, Next(cfg, s, step), s.pcs[step.task])
            else Unmarked(s, Next(cfg, s, step))
  {
    if step.EndWait? {
      WaitMarks(cfg, s, step.task, step.how);
    } else {
      OthersMark(cfg, s, step);
    }
  }

  lemma OthersMark(cfg: Config, s: State, step: Step)
    requires EngineInvariants.Inv(cfg, s) && Possible(s, step) && !step.EndWait?
    ensures Unmarked(s, Next(cfg, s, step))
  {
    if OfSupervisor(step) {
      SupervisorFrame(cfg, s, s.pcs[Supervisor], step);
    }
  }

  lemma WaitMarks(cfg: Config, s: State, task: Task, how: How)
    requires Kinds(s) && WaitMayEnd(s, task, how)
    ensures var s' := WaitNext(cfg, s, task, how);
            if Acknowledges(cfg.dialect, s, EndWait(task, how)) then Marked(s, s', s.pcs[task]) else Unmarked(s, s')
  {
    FieldMarks(cfg.dialect, s, s.pcs[task], how, OutcomeAt(s.core.table, s.core.held[task].fut));
  }

  lemma FieldMarks(d: Dialect, s: State, pc: Pc, how: How, outcome: Outcome)
    ensures var s' := WaitFields(d, s, pc, how, outcome);
            if pc.CallAwaiting? && (pc.call.Unsubscribe? || (pc.call.Subscribe? && pc.call.persist))
               && how.Woken? && outcome.Result? && !d.Rejects(outcome.msg)
            then Marked(s, s', pc) else Unmarked(s, s')
  {
  }

  /** What replay attempt `j` of pass `r` has to do with operation `o` of the history: the operation is the one with
      which the entry last entered the registry, and the frame is that of its acknowledged request under a later
      number. */
  ghost predicate ReplaysOperation(d: Dialect, ops: seq<Op>, r: Replay, j: nat, o: nat) {
    && j < |r.sent| == |r.snapshot| && o < r.upto <= |ops|
    && EnteredAt(ops[..r.upto], r.snapshot[j], o) && ops[o].entry == r.snapshot[j] && ops[o].on
    && ops[o].id < r.sent[j].id
    && r.sent[j].frame
       == d.Renumber(SubscribeFrame(d, ops[o].entry.channel, ops[o].params, ops[o].id), r.sent[j].id)
  }

  /** Replay fidelity: a completed pass attempted exactly one subscribe per entry of its snapshot, in order, under
      increasing numbers. Each frame is the frame of the acknowledged request that entered it, except for the number. */
  lemma ReplayFidelity(cfg: Config, ss: seq<State>, steps: seq<Step>, i: nat, p: nat, j: nat) returns (o: nat)
    requires IsRun(cfg, ss, steps) && i < |ss| && p < |ss[i].replays| && j < |ss[i].replays[p].snapshot|
    ensures var r := ss[i].replays[p];
            && r.upto <= |ss[i].ops| && r.snapshot == Contents(ss[i].ops[..r.upto])
            && ReplaysOperation(cfg.dialect, ss[i].ops, r, j, o)
            && forall k :: j < k < |r.sent| ==> r.sent[j].id < r.sent[k].id
  {
    Reachable(cfg, ss, steps, i);
    assert Faithful(cfg.dialect, ss[i], ss[i].replays[p]);
    o := AttemptFaithful(cfg.dialect, ss[i], ss[i].replays[p], j);
  }

  lemma AttemptFaithful(d: Dialect, s: State, r: Replay, j: nat) returns (o: nat)
    requires Records(s) && Faithful(d, s, r) && j < |r.sent| == |r.snapshot|
    ensures ReplaysOperation(d, s.ops, r, j, o)
  {
    var times := ContentsLaw(s.ops[..r.upto]);
    o := times[j];
    ReplayedFrame(d, s.ops[o].entry.channel, s.ops[o].params, s.ops[o].id, r.sent[j].id);
  }

  /** A failed attempt does not end the pass: the supervisor moves on unless it is cancelled. */
  lemma ReplayContinues(cfg: Config, s: State, how: How)
    requires EngineInvariants.Inv(cfg, s) && Possible(s, EndWait(Supervisor, how)) && !how.TaskCancelled?
    ensures CurrentReplay(s).Some?
    ensures PcOf(Next(cfg, s, EndWait(Supervisor, how)), Supervisor) == Some(ReplayGap(CurrentReplay(s).value))
  {
    var pc := s.pcs[Supervisor];
    assert FitsTask(Supervisor, pc) && Waiting(pc);
    GapFollows(cfg.dialect, s.link, pc, how, OutcomeAt(s.core.table, s.core.held[Supervisor].fut));
  }

  lemma GapFollows(d: Dialect, link: Link, pc: Pc, how: How, outcome: Outcome)
    requires FitsTask(Supervisor, pc) && Waiting(pc) && !how.TaskCancelled? && !outcome.Cancelled?
    ensures Replaying(pc) && WaitPc(d, link, pc, how, outcome) == ReplayGap(pc.r)
  {
  }

  /** During a replay nobody reads the socket and nobody flushes the table, so a replayed subscribe is never
      answered: its future stays pending, and its wait ends by a failed send, by its timeout or by a stop, never by
      being woken. */
  lemma ReplayNeverAnswered(cfg: Config, ss: seq<State>, steps: seq<Step>, i: nat)
    requires IsRun(cfg, ss, steps) && i < |ss| && Supervisor in ss[i].core.held
    ensures OutcomeAt(ss[i].core.table, ss[i].core.held[Supervisor].fut).Pending?
    ensures !WaitMayEnd(ss[i], Supervisor, Woken)
  {
    Reachable(cfg, ss, steps, i);
    StaysUnanswered(ss[i]);
  }

  lemma StaysUnanswered(s: State)
    requires Unanswered(s.core) && Supervisor in s.core.held
    ensures OutcomeAt(s.core.table, s.core.held[Supervisor].fut).Pending? && !WaitMayEnd(s, Supervisor, Woken)
  {
  }
}
