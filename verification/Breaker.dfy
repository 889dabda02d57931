/** The circuit breaker: both transitions are pure. */
module Breaker {
  import opened Types

  /** Moves the breaker with the window numbers. */
  function EvaluateBreaker(current: BreakerSnapshot, stats: ChannelStats, config: RoutingConfig,
      now: int): BreakerSnapshot {
    var samples := stats.success + stats.failure;
    match current.state
    case CLOSED =>
      if samples < config.minSamples then current
      else
        var successRate := if samples == 0 then 1.0 else stats.success as real / samples as real;
        if successRate < config.breaker.failureRateThreshold then BreakerSnapshot(OPEN, now, 0) else current
    case OPEN =>
      if now - current.openedAt >= config.breaker.openMs then
        BreakerSnapshot(HALF_OPEN, current.openedAt, 0)
      else current
    case HALF_OPEN => current
  }

  /** Applies the result of one probe. */
  function RecordProbe(current: BreakerSnapshot, success: bool, config: RoutingConfig, now: int): BreakerSnapshot {
    if current.state != HALF_OPEN then current
    else if !success then BreakerSnapshot(OPEN, now, 0)
    else
      var probeSuccess := current.probeSuccess + 1;
      if probeSuccess >= config.breaker.probesToClose then CLOSED_BREAKER
      else BreakerSnapshot(HALF_OPEN, current.openedAt, probeSuccess)
  }

  /** The numbers that open a closed breaker: enough outcomes, and too few successes among them. */
  predicate Bad(success: nat, total: nat, config: RoutingConfig) {
    && total >= config.minSamples
    && (if total == 0 then 1.0 < config.breaker.failureRateThreshold
        else success as real < config.breaker.failureRateThreshold * total as real)
  }

  lemma ShareBelow(success: nat, total: nat, threshold: real)
    requires total > 0
    ensures success as real / total as real < threshold <==> success as real < threshold * total as real
  {
    var s, t := success as real, total as real;
    assert s / t * t == s;
    if s / t < threshold {
      RealMulMono(s / t, threshold, t);
    } else {
      assert threshold * t <= s / t * t by {
        if threshold < s / t {
          RealMulMono(threshold, s / t, t);
        }
      }
    }
  }

  lemma RealMulMono(a: real, b: real, m: real)
    requires a < b && m > 0.0
    ensures a * m < b * m
  {
    assert (b - a) * m > 0.0;
  }

  /** Every way in which a window evaluation can move a breaker, and nothing else. */
  lemma EvaluateMoves(current: BreakerSnapshot, stats: ChannelStats, config: RoutingConfig, now: int)
    ensures
      var next := EvaluateBreaker(current, stats, config, now);
      && (current.state == CLOSED && next != current ==>
            next == BreakerSnapshot(OPEN, now, 0) && Bad(stats.success, stats.success + stats.failure, config))
      && (current.state == CLOSED && Bad(stats.success, stats.success + stats.failure, config) ==>
            next == BreakerSnapshot(OPEN, now, 0))
      && (current.state == OPEN && next != current ==>
            next == BreakerSnapshot(HALF_OPEN, current.openedAt, 0) && now - current.openedAt >= config.breaker.openMs)
      && (current.state == OPEN && now - current.openedAt >= config.breaker.openMs ==>
            next == BreakerSnapshot(HALF_OPEN, current.openedAt, 0))
      && (current.state == HALF_OPEN ==> next == current)
  {
    var total := stats.success + stats.failure;
    if total > 0 {
      ShareBelow(stats.success, total, config.breaker.failureRateThreshold);
    }
  }

  /** The router's test for a change sees every change that an evaluation can make. */
  lemma ChangeIsSeen(before: BreakerSnapshot, stats: ChannelStats, config: RoutingConfig, now: int)
    ensures
      var after := EvaluateBreaker(before, stats, config, now);
      after == before <==> after.state == before.state && after.openedAt == before.openedAt
  {
  }

  /**
    * Every way in which a probe result can move a breaker. A failure opens it for
    * a new `openMs`, counted from the failure and not from the earlier opening.
    */
  lemma ProbeMoves(current: BreakerSnapshot, success: bool, config: RoutingConfig, now: int)
    ensures
      var next := RecordProbe(current, success, config, now);
      && (current.state != HALF_OPEN ==> next == current)
      && (current.state == HALF_OPEN && !success ==> next == BreakerSnapshot(OPEN, now, 0))
      && (current.state == HALF_OPEN && success && current.probeSuccess + 1 >= config.breaker.probesToClose ==>
            next == CLOSED_BREAKER)
      && (current.state == HALF_OPEN && success && current.probeSuccess + 1 < config.breaker.probesToClose ==>
            next == current.(probeSuccess := current.probeSuccess + 1))
  {
  }

  /** What a breaker that this service wrote must look like at time `now`. */
  predicate WellFormed(s: BreakerSnapshot, config: RoutingConfig, now: int) {
    match s.state
    case CLOSED => s == CLOSED_BREAKER
    case OPEN => s.probeSuccess == 0 && 0 <= s.openedAt <= now
    case HALF_OPEN =>
      && 0 <= s.probeSuccess < config.breaker.probesToClose
      && 0 <= s.openedAt && now - s.openedAt >= config.breaker.openMs
  }

  lemma EvaluateKeepsForm(s: BreakerSnapshot, stats: ChannelStats, config: RoutingConfig, now: int, later: int)
    requires config.breaker.probesToClose > 0 && WellFormed(s, config, later) && 0 <= now <= later
    ensures WellFormed(EvaluateBreaker(s, stats, config, now), config, later)
  {
  }

  lemma ProbeKeepsForm(s: BreakerSnapshot, success: bool, config: RoutingConfig, now: int, later: int)
    requires WellFormed(s, config, later) && 0 <= now <= later
    ensures WellFormed(RecordProbe(s, success, config, now), config, later)
  {
  }
}
