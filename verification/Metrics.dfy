/** The Rust metrics collector (rust/src/metrics.rs): bounded state that answers for an unbounded history. */
module Metrics {
  import opened EventLog
  import opened LatencyFigures
  import opened Summaries

  datatype Snapshot = Snapshot(
    requestsTotal: nat,
    requestsSuccess: nat,
    requestsFailed: nat,
    latency: Figures,
    queueDepth: nat,
    queueMaxDepth: nat,
    circuitBreakerTrips: nat,
    circuitBreakerState: Breaker,
    heartbeatRttAvg: real,
    heartbeatRttLast: real,
    heartbeatMisses: nat,
    windowSeconds: real)

  class Collector {
    const maxLatencySamples: nat
    const windowSeconds: real
    var requestsTotal: nat
    var requestsSuccess: nat
    var requestsFailed: nat
    var circuitBreakerTrips: nat
    var circuitBreakerState: Breaker
    var queueDepth: nat
    var queueMaxDepth: nat
    var latencies: seq<real>
    var heartbeatRtts: seq<real>
    var heartbeatMisses: nat
    /** Every event ever recorded; the fields above forget most of it. */
    ghost var log: Log

    /** The fields are the summary of the history since the last reset. */
    ghost predicate Valid()
      reads this
    {
      Fields() == Summary(SinceReset(log), maxLatencySamples)
    }

    ghost function Fields(): (t: Tally)
      reads this
    {
      Tally(
        requestsTotal, requestsSuccess, requestsFailed, circuitBreakerTrips, circuitBreakerState,
        queueDepth, queueMaxDepth, latencies, heartbeatRtts, heartbeatMisses)
    }

    constructor WithOptions(maxLatencySamples: nat, windowSeconds: real)
      ensures Valid() && log == []
      ensures this.maxLatencySamples == maxLatencySamples && this.windowSeconds == windowSeconds
    {
      this.maxLatencySamples := maxLatencySamples;
      this.windowSeconds := windowSeconds;
      requestsTotal, requestsSuccess, requestsFailed := 0, 0, 0;
      circuitBreakerTrips, circuitBreakerState := 0, Closed;
      queueDepth, queueMaxDepth := 0, 0;
      latencies, heartbeatRtts, heartbeatMisses := [], [], 0;
      log := [];
    }

    method StartRequest()
      requires Valid()
      modifies this
      ensures Valid() && log == old(log) + [Start]
    {
      requestsTotal := requestsTotal + 1;
      queueDepth := queueDepth + 1;
      queueMaxDepth := if queueMaxDepth > queueDepth then queueMaxDepth else queueDepth;
      log := log + [Start];
      assert Fields() == Next(old(Fields()), Start, maxLatencySamples);
      SummaryStep(old(log), Start, maxLatencySamples);
    }

    /** `elapsed` is read off the clock before the lock is taken. */
    method EndRequest(elapsed: real, success: bool) returns (latency: real)
      requires Valid()
      modifies this
      ensures Valid() && log == old(log) + [End(success, elapsed)]
      ensures latency == elapsed
    {
      latency := elapsed;
      queueDepth := if queueDepth == 0 then 0 else queueDepth - 1;
      if success {
        requestsSuccess := requestsSuccess + 1;
      } else {
        requestsFailed := requestsFailed + 1;
      }
      latencies := latencies + [latency];
      if |latencies| > maxLatencySamples {
        latencies := latencies[1..];
      }
      log := log + [End(success, elapsed)];
      assert Fields() == Next(old(Fields()), End(success, elapsed), maxLatencySamples);
      SummaryStep(old(log), End(success, elapsed), maxLatencySamples);
    }

    method RecordCircuitBreakerTrip()
      requires Valid()
      modifies this
      ensures Valid() && log == old(log) + [BreakerChange(Open)]
    {
      circuitBreakerTrips := circuitBreakerTrips + 1;
      circuitBreakerState := Open;
      log := log + [BreakerChange(Open)];
      assert Fields() == Next(old(Fields()), BreakerChange(Open), maxLatencySamples);
      SummaryStep(old(log), BreakerChange(Open), maxLatencySamples);
    }

    method RecordCircuitBreakerReset()
      requires Valid()
      modifies this
      ensures Valid() && log == old(log) + [BreakerChange(Closed)]
    {
      circuitBreakerState := Closed;
      log := log + [BreakerChange(Closed)];
      assert Fields() == Next(old(Fields()), BreakerChange(Closed), maxLatencySamples);
      SummaryStep(old(log), BreakerChange(Closed), maxLatencySamples);
    }

    method RecordCircuitBreakerHalfOpen()
      requires Valid()
      modifies this
      ensures Valid() && log == old(log) + [BreakerChange(HalfOpen)]
    {
      circuitBreakerState := HalfOpen;
      log := log + [BreakerChange(HalfOpen)];
      assert Fields() == Next(old(Fields()), BreakerChange(HalfOpen), maxLatencySamples);
      SummaryStep(old(log), BreakerChange(HalfOpen), maxLatencySamples);
    }

    method RecordHeartbeatRtt(rtt: real)
      requires Valid()
      modifies this
      ensures Valid() && log == old(log) + [HeartbeatRtt(rtt)]
    {
      heartbeatRtts := heartbeatRtts + [rtt];
      if |heartbeatRtts| > HEARTBEAT_SAMPLES {
        heartbeatRtts := heartbeatRtts[1..];
      }
      log := log + [HeartbeatRtt(rtt)];
      assert Fields() == Next(old(Fields()), HeartbeatRtt(rtt), maxLatencySamples);
      SummaryStep(old(log), HeartbeatRtt(rtt), maxLatencySamples);
    }

    method RecordHeartbeatMiss()
      requires Valid()
      modifies this
      ensures Valid() && log == old(log) + [HeartbeatMiss]
    {
      heartbeatMisses := heartbeatMisses + 1;
      log := log + [HeartbeatMiss];
      assert Fields() == Next(old(Fields()), HeartbeatMiss, maxLatencySamples);
      SummaryStep(old(log), HeartbeatMiss, maxLatencySamples);
    }

    method ResetAll()
      requires Valid()
      modifies this
      ensures Valid() && log == old(log) + [Reset]
    {
      requestsTotal, requestsSuccess, requestsFailed := 0, 0, 0;
      circuitBreakerTrips, circuitBreakerState := 0, Closed;
      queueDepth, queueMaxDepth := 0, 0;
      latencies, heartbeatRtts, heartbeatMisses := [], [], 0;
      log := log + [Reset];
      assert Fields() == Next(old(Fields()), Reset, maxLatencySamples);
      SummaryStep(old(log), Reset, maxLatencySamples);
    }

    /** A snapshot describes the history since the last reset: counters in full, samples by their newest window. */
    method TakeSnapshot() returns (s: Snapshot)
      requires Valid()
      ensures var recent := SinceReset(log);
        && s.requestsTotal == Count(recent, AnyStart)
        && s.requestsSuccess == Count(recent, Outcome(true))
        && s.requestsFailed == Count(recent, Outcome(false))
        && s.queueDepth == Depth(recent)
        && s.queueMaxDepth == PeakDepth(recent)
        && s.circuitBreakerTrips == Count(recent, Trip)
        && s.circuitBreakerState == BreakerState(recent)
        && s.heartbeatMisses == Count(recent, Miss)
      ensures Summarizes(s.latency, Newest(Latencies(SinceReset(log)), maxLatencySamples))
      ensures s.latency.min <= s.latency.p50 <= s.latency.p95 <= s.latency.p99 <= s.latency.max
      ensures var rtts := Newest(Rtts(SinceReset(log)), 100);
        if rtts == [] then s.heartbeatRttAvg == s.heartbeatRttLast == 0.0
        else s.heartbeatRttAvg == Average(rtts) && s.heartbeatRttLast == rtts[|rtts| - 1]
      ensures s.windowSeconds == windowSeconds
    {
      var rtts, count := heartbeatRtts, |heartbeatRtts|;
      var figures := FiguresOf(latencies);
      FiguresAreRight(latencies);
      FiguresAreOrdered(figures, latencies);
      var average, last := 0.0, 0.0;
      if count > 0 {
        average, last := Average(rtts), rtts[count - 1];
      }
      s := Snapshot(
        requestsTotal, requestsSuccess, requestsFailed, figures,
        queueDepth, queueMaxDepth, circuitBreakerTrips, circuitBreakerState,
        average, last, heartbeatMisses, windowSeconds);
    }
  }
}
