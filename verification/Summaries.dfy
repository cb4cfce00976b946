/** The bounded state of a metrics collector as a function of the history, and how one event changes it. */
module Summaries {
  import opened EventLog

  const HEARTBEAT_SAMPLES: nat := 100

  /** The collector's mutable fields as one value. */
  datatype Tally = Tally(
    total: nat,
    success: nat,
    failed: nat,
    trips: nat,
    breaker: Breaker,
    depth: nat,
    maxDepth: nat,
    latencies: seq<real>,
    rtts: seq<real>,
    misses: nat)

  /** What the fields must hold after a history, computed from the history alone. */
  function Summary(recent: Log, capacity: nat): (t: Tally) {
    Tally(
      Count(recent, AnyStart), Count(recent, Outcome(true)), Count(recent, Outcome(false)),
      Count(recent, Trip), BreakerState(recent),
      Depth(recent), PeakDepth(recent),
      Newest(Latencies(recent), capacity), Newest(Rtts(recent), HEARTBEAT_SAMPLES),
      Count(recent, Miss))
  }

  /** Push to the back, drop from the front when over capacity. */
  function Slide(window: seq<real>, x: real, capacity: nat): (r: seq<real>) {
    if |window| + 1 > capacity then (window + [x])[1..] else window + [x]
  }

  function Next(t: Tally, e: Event, capacity: nat): (r: Tally) {
    match e
    case Start =>
      t.(total := t.total + 1, depth := t.depth + 1, maxDepth := if t.maxDepth > t.depth + 1 then t.maxDepth else t.depth + 1)
    case End(ok, latency) =>
      t.(depth := if t.depth == 0 then 0 else t.depth - 1,
         success := if ok then t.success + 1 else t.success,
         failed := if ok then t.failed else t.failed + 1,
         latencies := Slide(t.latencies, latency, capacity))
    case BreakerChange(to) => t.(trips := if to == Open then t.trips + 1 else t.trips, breaker := to)
    case HeartbeatRtt(rtt) => t.(rtts := Slide(t.rtts, rtt, HEARTBEAT_SAMPLES))
    case HeartbeatMiss => t.(misses := t.misses + 1)
    case Reset => Tally(0, 0, 0, 0, Closed, 0, 0, [], [], 0)
  }

  lemma {:induction false} CountStep(log: Log, e: Event)
    ensures forall c :: Count(log + [e], c) == Count(log, c) + if Counts(e, c) then 1 else 0
  {
    assert (log + [e])[..|log|] == log;
  }

  lemma NewestSlides(s: seq<real>, x: real, n: nat)
    ensures Newest(s + [x], n) == Slide(Newest(s, n), x, n)
  {
  }

  lemma {:induction false} SamplesStep(log: Log, e: Event)
    ensures Latencies(log + [e]) == Latencies(log) + if e.End? then [e.latency] else []
    ensures Rtts(log + [e]) == Rtts(log) + if e.HeartbeatRtt? then [e.rtt] else []
  {
    assert (log + [e])[..|log|] == log;
  }

  lemma {:induction false} LatencyWindowStep(log: Log, e: Event, capacity: nat)
    ensures Newest(Latencies(log + [e]), capacity) ==
      if e.End? then Slide(Newest(Latencies(log), capacity), e.latency, capacity) else Newest(Latencies(log), capacity)
  {
    SamplesStep(log, e);
    if e.End? { NewestSlides(Latencies(log), e.latency, capacity); }
  }

  lemma {:induction false} RttWindowStep(log: Log, e: Event, capacity: nat)
    ensures Newest(Rtts(log + [e]), capacity) ==
      if e.HeartbeatRtt? then Slide(Newest(Rtts(log), capacity), e.rtt, capacity) else Newest(Rtts(log), capacity)
  {
    SamplesStep(log, e);
    if e.HeartbeatRtt? { NewestSlides(Rtts(log), e.rtt, capacity); }
  }

  lemma {:induction false} DepthsStep(log: Log, e: Event)
    requires e != Reset
    ensures var t, u := Summary(log, 0), Summary(log + [e], 0);
      u.depth == Next(t, e, 0).depth && u.maxDepth == Next(t, e, 0).maxDepth && u.breaker == Next(t, e, 0).breaker
  {
    assert (log + [e])[..|log|] == log;
  }

  /** A new event is the last one since the reset. */
  lemma {:induction false} Recorded(log: Log, e: Event)
    ensures SinceReset(log + [e]) == if e == Reset then [] else SinceReset(log) + [e]
  {
    assert (log + [e])[..|log|] == log;
  }

  /** Constant work on the bounded state keeps up with the whole history. */
  lemma {:induction false} SummaryStep(log: Log, e: Event, capacity: nat)
    ensures Summary(SinceReset(log + [e]), capacity) == Next(Summary(SinceReset(log), capacity), e, capacity)
  {
    Recorded(log, e);
    if e != Reset {
      var recent := SinceReset(log);
      CountStep(recent, e);
      LatencyWindowStep(recent, e, capacity);
      RttWindowStep(recent, e, HEARTBEAT_SAMPLES);
      DepthsStep(recent, e);
    }
  }
}
