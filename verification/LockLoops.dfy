/** The loops that wait for the lock file: PHP's is bounded by its clock, Rust's reclaim branch is not. */
module LockLoops {
  import opened Wire
  import opened LockFile

  const TIMEOUT: nat := 10_000_000
  const RETRY_DELAY: nat := 100_000

  /**
    * What one round meets: whether the exclusive create succeeds, otherwise what the file
    * holds, what the evaluator reads off the clock and who is alive; how long the round works
    * and how long it sleeps, in microseconds.
    */
  datatype Round = Round(created: bool, content: Content, seconds: real, alive: int -> bool, work: nat, nap: nat)

  datatype Outcome = Acquired | RouterRunning | TimedOut

  function PhpVerdict(round: Round): Verdict {
    EvaluatePhp(round.content, round.seconds, round.alive)
  }

  /** The round ends the loop. */
  predicate Decides(round: Round) {
    round.created || PhpVerdict(round).SkipSpawn?
  }

  /** Every sleep lasts at least as long as was asked. */
  ghost predicate SleepsLongEnough(rounds: nat -> Round) {
    forall k :: rounds(k).nap >= 100_000
  }

  /** The clock at the start of a round, if every earlier round retried. */
  function ClockAt(rounds: nat -> Round, start: nat, k: nat): nat {
    if k == 0 then start else ClockAt(rounds, start, k - 1) + rounds(k - 1).work + rounds(k - 1).nap
  }

  lemma {:induction false} ClockAdvances(rounds: nat -> Round, start: nat, k: nat)
    requires SleepsLongEnough(rounds)
    ensures ClockAt(rounds, start, k) >= start + k * RETRY_DELAY
  {
    if k > 0 {
      ClockAdvances(rounds, start, k - 1);
      assert rounds(k - 1).nap >= RETRY_DELAY;
    }
  }

  /**
    * PHP's acquireLock. It makes at most 100 create attempts whatever the file holds, and
    * stops at the first round that decides, or when the deadline has passed.
    */
  method AcquireLockPhp(rounds: nat -> Round, start: nat) returns (outcome: Outcome, attempts: nat)
    requires SleepsLongEnough(rounds)
    ensures attempts <= 100
    ensures forall k :: 0 <= k < attempts ==> ClockAt(rounds, start, k) < start + 10_000_000
    ensures forall k :: 0 <= k < attempts - 1 ==> !Decides(rounds(k))
    ensures outcome.Acquired? ==> attempts > 0 && rounds(attempts - 1).created
    ensures outcome.RouterRunning? ==>
              && attempts > 0 && !rounds(attempts - 1).created
              && PhpVerdict(rounds(attempts - 1)).SkipSpawn?
    ensures outcome.TimedOut? ==>
              && ClockAt(rounds, start, attempts) >= start + 10_000_000
              && (attempts > 0 ==> !Decides(rounds(attempts - 1)))
    ensures Idle(rounds) ==> outcome.TimedOut? && attempts == 100
  {
    attempts := 0;
    var clock, deadline := start, start + TIMEOUT;
    while clock < deadline
      invariant clock == ClockAt(rounds, start, attempts)
      invariant attempts <= 100
      invariant forall k :: 0 <= k < attempts ==> ClockAt(rounds, start, k) < deadline
      invariant forall k :: 0 <= k < attempts ==> !Decides(rounds(k))
      decreases deadline - clock
    {
      ClockAdvances(rounds, start, attempts);
      var round := rounds(attempts);
      attempts := attempts + 1;
      if round.created {
        return Acquired, attempts;
      }
      var verdict := EvaluatePhp(round.content, round.seconds, round.alive);
      if verdict.SkipSpawn? {
        return RouterRunning, attempts;
      }
      // Reclaim removes the file and sleeps; wait only sleeps.
      clock := clock + round.work + round.nap;
    }
    if Idle(rounds) {
      IdleClock(rounds, start, attempts);
      IdleClock(rounds, start, attempts - 1);
    }
    return TimedOut, attempts;
  }

  /** Nobody ever decides, nothing takes time but the sleeps, and they last exactly as long as asked. */
  ghost predicate Idle(rounds: nat -> Round) {
    forall i :: !Decides(rounds(i)) && rounds(i).nap == RETRY_DELAY && rounds(i).work == 0
  }

  lemma {:induction false} IdleClock(rounds: nat -> Round, start: nat, k: nat)
    requires Idle(rounds)
    ensures ClockAt(rounds, start, k) == start + k * RETRY_DELAY
  {
    if k > 0 {
      IdleClock(rounds, start, k - 1);
      assert !Decides(rounds(k - 1)) && rounds(k - 1).nap == RETRY_DELAY && rounds(k - 1).work == 0;
    }
  }

  // ----- Rust: only the wait verdict looks at the deadline

  datatype Loop = Looping(clock: nat) | Stopped(outcome: Outcome)

  function RustVerdict(round: Round): Verdict {
    EvaluateRust(round.content, round.seconds, round.alive)
  }

  /** A reclaim verdict removes the file and goes round at once; the clock is not looked at. */
  function RustRound(round: Round, clock: nat, deadline: nat): Loop {
    if round.created then Stopped(Acquired)
    else
      match RustVerdict(round)
      case Reclaim => Looping(clock + round.work)
      case SkipSpawn => Stopped(RouterRunning)
      case _ =>
        if clock + round.work >= deadline then Stopped(TimedOut) else Looping(clock + round.work + round.nap)
  }

  function RustLoop(rounds: nat -> Round, start: nat, attempts: nat): Loop {
    if attempts == 0 then Looping(start)
    else
      match RustLoop(rounds, start, attempts - 1)
      case Stopped(outcome) => Stopped(outcome)
      case Looping(clock) => RustRound(rounds(attempts - 1), clock, start + TIMEOUT)
  }

  /** The clock at the start of a round, if every earlier round retried. */
  function RustClock(rounds: nat -> Round, start: nat, k: nat): nat {
    if k == 0 then start
    else
      var round := rounds(k - 1);
      RustClock(rounds, start, k - 1) + round.work + if RustVerdict(round).Reclaim? then 0 else round.nap
  }

  /** What a retry takes: no lock, and a stale file or a valid one with time left. */
  predicate RustRetries(rounds: nat -> Round, start: nat, k: nat) {
    && !rounds(k).created
    && (|| RustVerdict(rounds(k)).Reclaim?
        || (RustVerdict(rounds(k)).Wait? && RustClock(rounds, start, k) + rounds(k).work < start + 10_000_000))
  }

  /** The loop is still going after n attempts exactly when every one of them retried. */
  lemma {:induction false} RustGoesOnExactly(rounds: nat -> Round, start: nat, n: nat)
    ensures RustLoop(rounds, start, n).Looping? <==> forall k :: 0 <= k < n ==> RustRetries(rounds, start, k)
    ensures RustLoop(rounds, start, n).Looping? ==> RustLoop(rounds, start, n).clock == RustClock(rounds, start, n)
  {
    if n > 0 {
      RustGoesOnExactly(rounds, start, n - 1);
      assert RustLoop(rounds, start, n).Looping? <==>
             RustLoop(rounds, start, n - 1).Looping? && RustRetries(rounds, start, n - 1);
    }
  }

  /** The round that stops it decides how: with the lock if the create succeeded, with a running router on that verdict, else with the timeout. */
  lemma RustStopsWith(rounds: nat -> Round, start: nat, n: nat)
    requires RustLoop(rounds, start, n).Looping? && !RustRetries(rounds, start, n)
    ensures RustLoop(rounds, start, n + 1) == Stopped(
      if rounds(n).created then Acquired
      else if RustVerdict(rounds(n)).SkipSpawn? then RouterRunning
      else TimedOut)
    ensures !rounds(n).created && !RustVerdict(rounds(n)).SkipSpawn? ==>
      RustVerdict(rounds(n)).Wait? && RustClock(rounds, start, n) + rounds(n).work >= start + 10_000_000
  {
    RustGoesOnExactly(rounds, start, n);
  }

  /** Past the deadline it goes on exactly when the create fails on a file that is to be reclaimed. */
  lemma RustPastDeadlineExactly(rounds: nat -> Round, start: nat, n: nat)
    requires RustLoop(rounds, start, n).Looping? && RustLoop(rounds, start, n).clock >= start + 10_000_000
    ensures RustLoop(rounds, start, n + 1).Looping? <==> !rounds(n).created && RustVerdict(rounds(n)).Reclaim?
  {
    RustGoesOnExactly(rounds, start, n);
    RustGoesOnExactly(rounds, start, n + 1);
  }

  function Reclaims(rounds: nat -> Round, n: nat): (r: nat)
    ensures r <= n
  {
    if n == 0 then 0 else Reclaims(rounds, n - 1) + if RustVerdict(rounds(n - 1)).Reclaim? then 1 else 0
  }

  lemma {:induction false} RustClockAdvances(rounds: nat -> Round, start: nat, n: nat)
    requires SleepsLongEnough(rounds)
    ensures RustClock(rounds, start, n) >= start + (n - Reclaims(rounds, n)) * RETRY_DELAY
  {
    if n > 0 {
      RustClockAdvances(rounds, start, n - 1);
      assert rounds(n - 1).nap >= RETRY_DELAY;
    }
  }

  /** However long it runs, all but 100 of its attempts are reclaims; without any it stops within 101. */
  lemma {:induction false} RustAttemptsAreReclaims(rounds: nat -> Round, start: nat, n: nat)
    requires SleepsLongEnough(rounds) && RustLoop(rounds, start, n).Looping?
    ensures n <= 100 + Reclaims(rounds, n)
  {
    if n > 0 {
      RustGoesOnExactly(rounds, start, n);
      RustGoesOnExactly(rounds, start, n - 1);
      RustAttemptsAreReclaims(rounds, start, n - 1);
      RustClockAdvances(rounds, start, n - 1);
      assert RustRetries(rounds, start, n - 1);
    }
  }

  /** And there is no bound on those: while every create fails on a stale file, no number of attempts is the last. */
  lemma RustReclaimsForever(rounds: nat -> Round, start: nat, n: nat)
    requires forall k :: !rounds(k).created && RustVerdict(rounds(k)).Reclaim?
    ensures RustLoop(rounds, start, n).Looping?
  {
    RustGoesOnExactly(rounds, start, n);
  }
}
