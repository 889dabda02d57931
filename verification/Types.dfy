/** The value types of the routing domain. */
module Types {

  datatype Option<+T> = None | Some(value: T)

  datatype Result<+T> = Success(value: T) | Failure(error: string)

  /** A JavaScript number. Only a finite value can be a latency. */
  datatype Num = NaN | Infinite(negative: bool) | Finite(value: real)

  datatype BreakerState = CLOSED | OPEN | HALF_OPEN

  datatype BreakerSnapshot = BreakerSnapshot(state: BreakerState, openedAt: int, probeSuccess: int)

  const CLOSED_BREAKER := BreakerSnapshot(CLOSED, 0, 0)

  datatype Channel = Channel(id: string, name: string, cost: real, enabled: bool)

  datatype ChannelStats = ChannelStats(channelId: string, success: nat, failure: nat, latencySamples: seq<Num>)

  function EmptyStats(channelId: string): ChannelStats {
    ChannelStats(channelId, 0, 0, [])
  }

  datatype Weights = Weights(success: real, latency: real, cost: real)

  datatype BreakerConfig = BreakerConfig(failureRateThreshold: real, openMs: int, probesToClose: int)

  datatype ColdStart = ColdStart(successRate: real, latencyScore: real)

  datatype RoutingConfig = RoutingConfig(
    windowMs: int,
    bucketMs: int,
    maxSamplesPerBucket: int,
    minSamples: int,
    latencyCeilingMs: int,
    weights: Weights,
    breaker: BreakerConfig,
    explorationRate: real,
    coldStart: ColdStart)

  datatype Strategy = Best | Explore | OnlyCandidate | Degraded

  datatype Reason = ChannelDisabled | BreakerOpen | ProbeInFlight

  datatype Candidate = Candidate(
    channelId: string,
    rank: int,
    score: real,
    successRate: real,
    p95Ms: Option<real>,
    costScore: real,
    breakerState: BreakerState,
    samples: int,
    coldStart: bool,
    eligible: bool,
    ineligibleReason: Option<Reason>)
}
