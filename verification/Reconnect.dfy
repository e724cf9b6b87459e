/** The reconnect policy, the decision taken after each connection, and the supervisor's loop. */
module Reconnect {
  import opened Wire

  /** What a policy answers for an attempt number. */
  datatype Answer = Wait(delay: real) | GiveUp | Raises

  type Policy = nat -> Answer

  // ---- default_backoff ----------------------------------------------------------------------

  const INITIAL := 0.5
  const FACTOR := 2.0
  const MAX_DELAY := 30.0

  /** The smallest exponent at which `2.0 ** e` overflows binary64. Below it the powers are exact. */
  const OVERFLOW := 1024

  function Pow(base: real, n: nat): real {
    if n == 0 then 1.0 else base * Pow(base, n - 1)
  }

  function Min(a: real, b: real): real {
    if a <= b then a else b
  }

  function DefaultBackoff(attempt: int): Answer {
    var exponent := if attempt - 1 > 0 then attempt - 1 else 0;
    if exponent >= OVERFLOW then Raises else Wait(Min(INITIAL * Pow(FACTOR, exponent), MAX_DELAY))
  }

  lemma {:induction false} PowGrows(n: nat, m: nat)
    requires n <= m
    ensures 1.0 <= Pow(FACTOR, n) <= Pow(FACTOR, m)
    decreases m
  {
    if m > 0 {
      if n == m {
        PowGrows(n - 1, m - 1);
      } else {
        PowGrows(n, m - 1);
      }
    }
  }

  lemma PowSix()
    ensures Pow(FACTOR, 5) == 32.0 && Pow(FACTOR, 6) == 64.0
  {
    assert Pow(FACTOR, 2) == 4.0;
    assert Pow(FACTOR, 4) == 16.0;
    assert Pow(FACTOR, 6) == 64.0;
  }

  /** It never gives up; it answers exactly up to attempt 1024 and raises from there on. */
  lemma BackoffAnswers(attempt: int)
    ensures DefaultBackoff(attempt) != GiveUp
    ensures DefaultBackoff(attempt).Wait? <==> attempt <= 1024
  {
  }

  /** Delays begin with half a second, after a healthy connection as after the first failure; they never shrink, double
      until the cap of 30 seconds, and are the cap exactly from attempt 7 on. */
  lemma BackoffShape(a: nat, b: nat)
    requires 1 <= a <= b <= 1024
    ensures var x, y := DefaultBackoff(a).delay, DefaultBackoff(b).delay;
            && 0.5 <= x <= y <= 30.0
            && (x == 30.0 <==> a >= 7)
            && (b == a + 1 ==> y == if 2.0 * x <= 30.0 then 2.0 * x else 30.0)
    ensures DefaultBackoff(0) == DefaultBackoff(1) == Wait(0.5)
  {
    PowGrows(a - 1, b - 1);
    PowSix();
    if a >= 7 {
      PowGrows(6, a - 1);
    } else {
      PowGrows(a - 1, 5);
    }
  }

  // ---- one decision -------------------------------------------------------------------------

  const RESET_AFTER := 5.0

  /** A connection as `_decide_reconnect` sees it: when its handshake completed, if it did, and when it ended. */
  datatype Life = Life(connectedAt: Option<real>, endedAt: real) {
    predicate Healthy() {
      connectedAt.Some? && endedAt - connectedAt.value >= RESET_AFTER
    }
  }

  datatype Decision = Decision(attempt: nat, answer: Answer)

  /** `_decide_reconnect` once reconnecting is enabled. The policy is asked about the new attempt number, which
      is 0 after a healthy connection. */
  function Decide(policy: Policy, attempt: nat, life: Life): Decision {
    var next := if life.Healthy() then 0 else attempt + 1;
    Decision(next, policy(next))
  }

  // ---- histories ----------------------------------------------------------------------------

  /** For each connection that ended, whether it had stayed up long enough. */
  type History = seq<bool>

  function Streak(h: History): nat {
    if h == [] || h[|h| - 1] then 0 else Streak(h[..|h| - 1]) + 1
  }

  /** The streak counts the connections since the last healthy one, or since the beginning. */
  lemma {:induction false} StreakCounts(h: History)
    ensures var k := Streak(h);
            && k <= |h|
            && (forall i :: |h| - k <= i < |h| ==> !h[i])
            && (k < |h| ==> h[|h| - k - 1])
  {
    if h != [] && !h[|h| - 1] {
      StreakCounts(h[..|h| - 1]);
    }
  }

  /** A streak of at least `k`: the last `k` connections were all unhealthy. */
  predicate LastUnhealthy(h: History, k: nat) {
    k <= |h| && forall i :: |h| - k <= i < |h| ==> !h[i]
  }

  lemma StreakAtLeast(h: History, k: nat)
    ensures Streak(h) >= k <==> LastUnhealthy(h, k)
  {
    StreakCounts(h);
  }

  lemma {:induction false} StreakOfFailures(h: History)
    requires forall i :: 0 <= i < |h| ==> !h[i]
    ensures Streak(h) == |h|
  {
    if h != [] {
      StreakOfFailures(h[..|h| - 1]);
    }
  }

  function Flags(life: nat -> Life, n: nat): History {
    seq(n, i requires 0 <= i < n => life(i).Healthy())
  }

  function ResetsLeft(life: nat -> Life, n: nat, horizon: nat): nat
    decreases horizon - n
  {
    if n >= horizon then 0 else (if life(n).Healthy() then 1 else 0) + ResetsLeft(life, n + 1, horizon)
  }

  /** What the resets to come are worth: a streak of `limit + 1` decisions each. */
  function ResetsWorth(life: nat -> Life, limit: nat, n: nat, horizon: nat): nat
    decreases horizon - n
  {
    if n >= horizon then 0
    else (if life(n).Healthy() then limit + 1 else 0) + ResetsWorth(life, limit, n + 1, horizon)
  }

  /** How many decisions the loop can still take after pass `n`: what is left of the current streak, and a
      full streak from 0 for every reset to come. */
  function Budget(life: nat -> Life, limit: nat, horizon: nat, n: nat, attempt: nat): int {
    limit + 1 - attempt + ResetsWorth(life, limit, n, horizon)
  }

  /** In all, that is `limit + 1` decisions for each reset and as many for the beginning. */
  lemma {:induction false} BudgetInAll(life: nat -> Life, limit: nat, horizon: nat, n: nat)
    ensures Budget(life, limit, horizon, n, 0) == (ResetsLeft(life, n, horizon) + 1) * (limit + 1)
    decreases horizon - n
  {
    if n < horizon {
      BudgetInAll(life, limit, horizon, n + 1);
    }
  }

  // ---- the loop -----------------------------------------------------------------------------

  datatype End = Disabled | GaveUp | Crashed | Stopped

  /** When a stop() arrives in a pass of the loop: during the pump, during the wait that follows, or not at all. */
  datatype Interruption = Undisturbed | InPump | InWait

  /** The decisions taken over the connections `life(0)`, `life(1)`, ...: each asks the policy about the current
      streak, and every one before the last was answered with a delay. */
  ghost predicate LogOf(policy: Policy, life: nat -> Life, log: seq<Decision>) {
    forall i :: 0 <= i < |log| ==>
      && log[i].attempt == Streak(Flags(life, i + 1))
      && log[i].answer == policy(log[i].attempt)
      && (i < |log| - 1 ==> log[i].answer.Wait?)
  }

  /** The passes up to the last decision were not interrupted before it. */
  ghost predicate DecidedOver(stops: nat -> Interruption, n: nat) {
    && (forall i: nat :: i < n ==> !stops(i).InPump?)
    && (forall i: nat :: i + 1 < n ==> stops(i).Undisturbed?)
  }

  /** Why the loop has ended after the decisions `log`. */
  ghost predicate EndedBy(stops: nat -> Interruption, log: seq<Decision>, end: End) {
    match end
    case Disabled => false
    case GaveUp => log != [] && log[|log| - 1].answer.GiveUp?
    case Crashed => log != [] && log[|log| - 1].answer.Raises?
    case Stopped =>
      if log != [] && stops(|log| - 1).InWait? then log[|log| - 1].answer.Wait?
      else stops(|log|).InPump? && (log != [] ==> log[|log| - 1].answer.Wait?)
  }

  /** `_supervise`, with `life(n)` the connection pumped in pass `n` and `stops(n)` what stop() does to that pass.
      Under a policy that stops waiting past `limit`, with no healthy connection from pass `horizon` on, the pair
      (resets left, limit + 1 - attempt) drops lexicographically with every decision, so the loop ends even if it is
      never stopped. A policy that raises ends the coroutine with the client still marked running. */
  method Supervise(reconnect: Option<Policy>, life: nat -> Life, stops: nat -> Interruption,
                   ghost limit: nat, ghost horizon: nat)
    returns (log: seq<Decision>, end: End, running: bool)
    requires reconnect.Some? ==> forall a: nat :: a > limit ==> !reconnect.value(a).Wait?
    requires forall n: nat :: n >= horizon ==> !life(n).Healthy()
    ensures reconnect == None ==> log == [] && end == if stops(0).InPump? then Stopped else Disabled
    ensures reconnect.Some? ==>
              && LogOf(reconnect.value, life, log) && DecidedOver(stops, |log|) && EndedBy(stops, log, end)
              && |log| <= Budget(life, limit, horizon, 0, 0)
    ensures running <==> end == Crashed
  {
    var attempt := 0;
    running := true;
    log := [];
    end := Disabled;
    while running
      invariant running ==> attempt <= limit && end == Disabled && GoesOn(stops, log)
      invariant attempt <= limit + 1 && attempt == Streak(Flags(life, |log|))
      invariant reconnect == None ==> log == [] && (!running ==> end == if stops(0).InPump? then Stopped else Disabled)
      invariant reconnect.Some? ==> LogOf(reconnect.value, life, log) && (!running ==> EndedBy(stops, log, end))
      invariant DecidedOver(stops, |log|) && end != Crashed
      invariant |log| + Budget(life, limit, horizon, |log|, attempt) <= Budget(life, limit, horizon, 0, 0)
      decreases running, ResetsLeft(life, |log|, horizon), limit + 1 - attempt
    {
      if stops(|log|).InPump? {
        running, end := false, Stopped;
        break;
      }
      if reconnect == None {
        running := false;
        break;
      }
      LogExtends(reconnect.value, life, log, attempt);
      BudgetShrinks(life, limit, horizon, |log|, attempt);
      StopsExtend(stops, log, Decide(reconnect.value, attempt, life(|log|)));
      var decision := Decide(reconnect.value, attempt, life(|log|));
      log := log + [decision];
      attempt := decision.attempt;
      match decision.answer
      case GiveUp =>
        running, end := false, GaveUp;
      case Raises =>
        end := Crashed;
        return;
      case Wait(_) =>
        if stops(|log| - 1).InWait? {
          running, end := false, Stopped;
        }
    }
  }

  /** After these decisions the loop goes on. */
  ghost predicate GoesOn(stops: nat -> Interruption, log: seq<Decision>) {
    log != [] ==> log[|log| - 1].answer.Wait? && stops(|log| - 1).Undisturbed?
  }

  lemma StopsExtend(stops: nat -> Interruption, log: seq<Decision>, decision: Decision)
    requires DecidedOver(stops, |log|) && GoesOn(stops, log) && !stops(|log|).InPump?
    ensures var after := log + [decision];
            && DecidedOver(stops, |after|)
            && (decision.answer.GiveUp? ==> EndedBy(stops, after, GaveUp))
            && (decision.answer.Raises? ==> EndedBy(stops, after, Crashed))
            && (decision.answer.Wait? ==>
                  if stops(|log|).InWait? then EndedBy(stops, after, Stopped) else GoesOn(stops, after))
  {
  }

  lemma LogExtends(policy: Policy, life: nat -> Life, log: seq<Decision>, attempt: nat)
    requires LogOf(policy, life, log) && attempt == Streak(Flags(life, |log|))
    requires log != [] ==> log[|log| - 1].answer.Wait?
    ensures var decision := Decide(policy, attempt, life(|log|));
            && LogOf(policy, life, log + [decision])
            && decision.attempt == Streak(Flags(life, |log| + 1))
  {
    var n := |log|;
    assert Flags(life, n + 1)[..n] == Flags(life, n);
  }

  lemma BudgetShrinks(life: nat -> Life, limit: nat, horizon: nat, n: nat, attempt: nat)
    requires attempt <= limit
    requires forall m: nat :: m >= horizon ==> !life(m).Healthy()
    ensures ResetsLeft(life, n, horizon) == ResetsLeft(life, n + 1, horizon) + if life(n).Healthy() then 1 else 0
    ensures var next := if life(n).Healthy() then 0 else attempt + 1;
            0 <= Budget(life, limit, horizon, n + 1, next) < Budget(life, limit, horizon, n, attempt)
  {
  }

  // ---- how long a run of short drops waits --------------------------------------------------

  function TotalDelay(log: seq<Decision>): real {
    if log == [] then 0.0
    else TotalDelay(log[..|log| - 1]) + match log[|log| - 1].answer case Wait(d) => d case _ => 0.0
  }

  function DefaultTotal(n: nat): real {
    if n <= 6 then 0.5 * (Pow(FACTOR, n) - 1.0) else 31.5 + 30.0 * (n - 6) as real
  }

  /** Under the default policy, the first `n` consecutive short connections of a supervisor run are followed by
      waits that add up to 0.5 (2^n - 1) seconds, and to 31.5 + 30 (n - 6) once past the cap. */
  lemma {:induction false} DefaultWaits(life: nat -> Life, log: seq<Decision>, n: nat)
    requires LogOf(a => DefaultBackoff(a), life, log)
    requires n <= |log| && n <= 1024 && forall i: nat :: i < n ==> !life(i).Healthy()
    ensures TotalDelay(log[..n]) == DefaultTotal(n)
  {
    if n > 0 {
      DefaultWaits(life, log, n - 1);
      StreakOfFailures(Flags(life, n));
      assert log[n - 1].attempt == n && log[n - 1].answer == DefaultBackoff(n);
      assert log[..n][..n - 1] == log[..n - 1];
      BackoffShape(n, n);
      PowSix();
      if n <= 6 {
        PowGrows(n - 1, 5);
        assert Pow(FACTOR, n) == 2.0 * Pow(FACTOR, n - 1);
      }
    }
  }

  /** The default policy has no limit of its own: the supervisor dies with an OverflowError, never having given up,
      exactly at the first decision that follows 1025 unhealthy connections in a row. */
  lemma DefaultDies(life: nat -> Life, log: seq<Decision>)
    requires LogOf(a => DefaultBackoff(a), life, log) && log != []
    ensures !log[|log| - 1].answer.Wait?
            <==> |log| >= 1025 && forall i: nat :: |log| - 1025 <= i < |log| ==> !life(i).Healthy()
    ensures !log[|log| - 1].answer.Wait? ==> log[|log| - 1] == Decision(1025, Raises)
  {
    var n := |log|;
    StreakAtLeast(Flags(life, n), 1025);
    assert forall i :: 0 <= i < n ==> Flags(life, n)[i] == life(i).Healthy();
    if n >= 2 && !log[n - 1].answer.Wait? {
      assert Flags(life, n)[..n - 1] == Flags(life, n - 1);
      assert log[n - 2].answer.Wait?;
    }
  }

  /** In particular, if no connection ever lasts, at its 1025th decision. */
  lemma DefaultCrashes(life: nat -> Life, log: seq<Decision>)
    requires LogOf(a => DefaultBackoff(a), life, log)
    requires log != [] && !log[|log| - 1].answer.Wait?
    requires forall i: nat :: !life(i).Healthy()
    ensures |log| == 1025 && log[1024].answer == Raises
  {
    DefaultDies(life, log);
    StreakOfFailures(Flags(life, |log|));
  }
}
