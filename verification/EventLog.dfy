/** What a metrics collector is a summary of: the whole history of recorded events, and the quantities read off it. */
module EventLog {
  /** One recorded event; the collector's lock makes each of them a single step. */
  datatype Event =
    | Start
    | End(success: bool, latency: real)
    | BreakerChange(to: Breaker)
    | HeartbeatRtt(rtt: real)
    | HeartbeatMiss
    | Reset

  datatype Breaker = Closed | Open | HalfOpen

  type Log = seq<Event>

  /** The part of the history a collector still answers for. */
  function SinceReset(log: Log): (s: Log)
  {
    if log == [] || log[|log| - 1] == Reset then [] else SinceReset(log[..|log| - 1]) + [log[|log| - 1]]
  }

  /** It is the longest tail with no reset in it. */
  lemma {:induction false} SinceResetIsTail(log: Log)
    ensures var s := SinceReset(log);
      && |s| <= |log|
      && s == log[|log| - |s|..]
      && Reset !in s
      && (|s| < |log| ==> log[|log| - |s| - 1] == Reset)
  {
    if log != [] && log[|log| - 1] != Reset {
      SinceResetIsTail(log[..|log| - 1]);
    }
  }

  /** The kinds of events that are counted. */
  datatype Counted = AnyStart | AnyEnd | Outcome(success: bool) | Trip | Miss

  predicate Counts(e: Event, c: Counted) {
    match c
    case AnyStart => e.Start?
    case AnyEnd => e.End?
    case Outcome(success) => e.End? && e.success == success
    case Trip => e == BreakerChange(Open)
    case Miss => e.HeartbeatMiss?
  }

  function Count(log: Log, c: Counted): (n: nat) {
    if log == [] then 0
    else Count(log[..|log| - 1], c) + if Counts(log[|log| - 1], c) then 1 else 0
  }

  function Latencies(log: Log): (s: seq<real>) {
    if log == [] then []
    else Latencies(log[..|log| - 1]) + if log[|log| - 1].End? then [log[|log| - 1].latency] else []
  }

  function Rtts(log: Log): (s: seq<real>) {
    if log == [] then []
    else Rtts(log[..|log| - 1]) + if log[|log| - 1].HeartbeatRtt? then [log[|log| - 1].rtt] else []
  }

  function BreakerState(log: Log): (b: Breaker) {
    if log == [] then Closed
    else if log[|log| - 1].BreakerChange? then log[|log| - 1].to
    else BreakerState(log[..|log| - 1])
  }

  /** The newest `n` of `s`, or all of it. */
  function Newest(s: seq<real>, n: nat): (r: seq<real>) {
    if |s| <= n then s else s[|s| - n..]
  }

  /** Requests begun and not ended; an end with nothing outstanding is not held against later requests. */
  function Depth(log: Log): (d: nat) {
    if log == [] then 0
    else
      var d := Depth(log[..|log| - 1]);
      match log[|log| - 1]
      case Start => d + 1
      case End(_, _) => if d == 0 then 0 else d - 1
      case _ => d
  }

  function PeakDepth(log: Log): (p: nat) {
    if log == [] then 0
    else if Depth(log) > PeakDepth(log[..|log| - 1]) then Depth(log)
    else PeakDepth(log[..|log| - 1])
  }

  /** The peak is the greatest depth the history went through. */
  lemma {:induction false} PeakIsMaximum(log: Log)
    ensures forall k :: 0 <= k <= |log| ==> Depth(log[..k]) <= PeakDepth(log)
    ensures exists k :: 0 <= k <= |log| && Depth(log[..k]) == PeakDepth(log)
  {
    assert log[..|log|] == log;
    if log != [] {
      var init := log[..|log| - 1];
      PeakIsMaximum(init);
      assert forall k :: 0 <= k <= |init| ==> init[..k] == log[..k];
      var k :| 0 <= k <= |init| && Depth(init[..k]) == PeakDepth(init);
      assert Depth(log[..k]) == PeakDepth(init);
    }
  }

  function Balance(log: Log): (b: int) { Count(log, AnyStart) - Count(log, AnyEnd) }

  /** By how many ends the history was at worst ahead of its starts. */
  function Overrun(log: Log): (x: nat) {
    if log == [] then 0
    else if -Balance(log) > Overrun(log[..|log| - 1]) then -Balance(log)
    else Overrun(log[..|log| - 1])
  }

  /** The saturating counter is the plain balance plus everything that saturation forgave. */
  lemma {:induction false} DepthIsReflectedBalance(log: Log)
    ensures Depth(log) == Balance(log) + Overrun(log)
  {
    if log != [] {
      DepthIsReflectedBalance(log[..|log| - 1]);
    }
  }

  lemma {:induction false} OverrunIsMaximum(log: Log)
    ensures forall k :: 0 <= k <= |log| ==> -Balance(log[..k]) <= Overrun(log)
    ensures exists k :: 0 <= k <= |log| && Overrun(log) == -Balance(log[..k])
  {
    assert log[..|log|] == log;
    if log != [] {
      var init := log[..|log| - 1];
      OverrunIsMaximum(init);
      assert forall k :: 0 <= k <= |init| ==> init[..k] == log[..k];
      var k :| 0 <= k <= |init| && Overrun(init) == -Balance(init[..k]);
      assert Overrun(init) == -Balance(log[..k]);
    } else {
      assert Overrun(log) == -Balance(log[..0]);
    }
  }

  lemma {:induction false} CountsAddUp(a: Log, b: Log, c: Counted)
    ensures Count(a + b, c) == Count(a, c) + Count(b, c)
    decreases |b|
  {
    if b == [] {
      assert a + b == a;
    } else {
      assert (a + b)[..|a + b| - 1] == a + b[..|b| - 1];
      CountsAddUp(a, b[..|b| - 1], c);
    }
  }

  lemma BalanceSplits(log: Log, k: nat)
    requires k <= |log|
    ensures Balance(log) == Balance(log[..k]) + Balance(log[k..])
  {
    assert log == log[..k] + log[k..];
    CountsAddUp(log[..k], log[k..], AnyStart);
    CountsAddUp(log[..k], log[k..], AnyEnd);
  }

  /** The depth is the largest net backlog of any recent stretch of the history. */
  lemma DepthIsWorstBacklog(log: Log)
    ensures forall k :: 0 <= k <= |log| ==> Balance(log[k..]) <= Depth(log)
    ensures exists k :: 0 <= k <= |log| && Balance(log[k..]) == Depth(log)
  {
    DepthIsReflectedBalance(log);
    OverrunIsMaximum(log);
    forall k | 0 <= k <= |log| ensures Balance(log[k..]) <= Depth(log) {
      BalanceSplits(log, k);
    }
    var k :| 0 <= k <= |log| && Overrun(log) == -Balance(log[..k]);
    BalanceSplits(log, k);
    assert Balance(log[k..]) == Depth(log);
  }

  lemma {:induction false} EveryEndHasAnOutcome(log: Log)
    ensures Count(log, Outcome(true)) + Count(log, Outcome(false)) == Count(log, AnyEnd)
    ensures |Latencies(log)| == Count(log, AnyEnd)
  {
    if log != [] {
      EveryEndHasAnOutcome(log[..|log| - 1]);
    }
  }

  /** Started = succeeded + failed + outstanding, exactly as long as no end ever outran the starts. */
  lemma BooksBalanceExactly(log: Log)
    ensures Count(log, Outcome(true)) + Count(log, Outcome(false)) + Depth(log) == Count(log, AnyStart) + Overrun(log)
    ensures Count(log, AnyStart) == Count(log, Outcome(true)) + Count(log, Outcome(false)) + Depth(log)
       <==> forall k :: 0 <= k <= |log| ==> Count(log[..k], AnyEnd) <= Count(log[..k], AnyStart)
  {
    EveryEndHasAnOutcome(log);
    DepthIsReflectedBalance(log);
    OverrunIsMaximum(log);
    forall k | 0 <= k <= |log|
      ensures Count(log[..k], AnyEnd) <= Count(log[..k], AnyStart) <==> -Balance(log[..k]) <= 0 {
    }
  }
}
