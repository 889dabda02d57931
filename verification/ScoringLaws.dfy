/** What the score of a channel is: the weighted parts, what each part measures, and which parts matter. */
module ScoringLaws {
  import opened Types
  import opened Percentile
  import opened Scoring

  /** `r` is the point of the unit interval that lies nearest to `v`. */
  predicate Clamped(v: real, r: real) {
    (v <= 0.0 ==> r == 0.0) && (v >= 1.0 ==> r == 1.0) && (0.0 <= v <= 1.0 ==> r == v)
  }

  /** `r` is `v` to four decimals, halves up. */
  predicate Rounded(v: real, r: real) {
    FourDecimals(r) && r - 0.00005 <= v < r + 0.00005
  }

  /** The share of successes of a warm channel, and the configured optimism of a cold one. */
  predicate IsRate(stats: ChannelStats, config: RoutingConfig, rate: real) {
    var n := stats.success + stats.failure;
    if n < config.minSamples then Clamped(config.coldStart.successRate, rate)
    else if n == 0 then rate == 0.0
    else rate * n as real == stats.success as real
  }

  /** One at zero, zero from the ceiling on, and linear between. Without a measured p95, the configured default. */
  predicate IsLatencyScore(p95Ms: Option<real>, config: RoutingConfig, l: real) {
    var ceiling := config.latencyCeilingMs as real;
    match p95Ms
    case None => Clamped(config.coldStart.latencyScore, l)
    case Some(p) =>
      if ceiling <= 0.0 || p >= ceiling then l == 0.0
      else if p <= 0.0 then l == 1.0
      else l * ceiling == ceiling - p
  }

  /** One for the cheapest, zero for the dearest, linear between, and one for all when every channel costs the same. */
  predicate IsCostScore(cost: real, bounds: CostBounds, c: real) {
    if bounds.max <= bounds.min || cost <= bounds.min then c == 1.0
    else if cost >= bounds.max then c == 0.0
    else c * (bounds.max - bounds.min) == bounds.max - cost
  }

  function WeightedSum(w: Weights, rate: real, l: real, c: real): real {
    w.success * rate + w.latency * l + w.cost * c
  }

  /** The three parts, and the weighted sum of them held in the unit interval. */
  predicate Parts(channel: Channel, stats: ChannelStats, config: RoutingConfig, bounds: CostBounds, p95Ms: Option<real>,
      rate: real, l: real, c: real, total: real)
  {
    && IsRate(stats, config, rate)
    && IsLatencyScore(p95Ms, config, l)
    && IsCostScore(channel.cost, bounds, c)
    && Clamped(WeightedSum(config.weights, rate, l, c), total)
  }

  /** Everything that one row reports of its channel. */
  ghost predicate ScoreFits(channel: Channel, stats: ChannelStats, config: RoutingConfig, bounds: CostBounds,
      s: ScoredChannel)
  {
    && s.samples == stats.success + stats.failure
    && (s.coldStart <==> stats.success + stats.failure < config.minSamples)
    && s.p95Ms == P95(stats.latencySamples)
    && exists rate: real, l: real, c: real, total: real ::
         Parts(channel, stats, config, bounds, s.p95Ms, rate, l, c, total)
         && Rounded(rate, s.successRate) && Rounded(c, s.costScore) && Rounded(total, s.score)
  }

  lemma QuotientTimes(a: real, m: real)
    requires m > 0.0
    ensures a / m * m == a
  {
  }

  lemma RateIs(stats: ChannelStats, config: RoutingConfig)
    ensures IsRate(stats, config, RateOf(stats, config))
  {
    var n := stats.success + stats.failure;
    if n > 0 {
      QuotientTimes(stats.success as real, n as real);
    }
  }

  lemma LatencyScoreIs(p95Ms: Option<real>, config: RoutingConfig)
    ensures IsLatencyScore(p95Ms, config, LatencyScoreOf(p95Ms, config))
  {
    var ceiling := config.latencyCeilingMs as real;
    if p95Ms.Some? && ceiling > 0.0 {
      var p := p95Ms.value;
      var share := p / ceiling;
      QuotientTimes(p, ceiling);
      DivideMonotone(if p <= ceiling then p else ceiling, if p <= ceiling then ceiling else p, ceiling);
      DivideMonotone(if p <= 0.0 then p else 0.0, if p <= 0.0 then 0.0 else p, ceiling);
      assert (1.0 - share) * ceiling == ceiling - p;
    }
  }

  lemma CostScoreIs(cost: real, bounds: CostBounds)
    ensures IsCostScore(cost, bounds, CostScoreOf(cost, bounds))
  {
    var spread := bounds.max - bounds.min;
    if spread > 0.0 {
      var above := cost - bounds.min;
      QuotientTimes(above, spread);
      DivideMonotone(if above <= 0.0 then above else 0.0, if above <= 0.0 then 0.0 else above, spread);
      DivideMonotone(if above <= spread then above else spread, if above <= spread then spread else above, spread);
      assert (1.0 - above / spread) * spread == spread - above;
    }
  }

  lemma SumIs(config: RoutingConfig, rate: real, l: real, c: real)
    ensures Clamped(WeightedSum(config.weights, rate, l, c), Clamp01(Weighted(config, rate, l, c)))
  {
    assert Weighted(config, rate, l, c) == WeightedSum(config.weights, rate, l, c);
  }

  /** The score is the weighted sum of the three parts, held in the unit interval and rounded to four decimals. */
  lemma ScoreIs(channel: Channel, stats: ChannelStats, config: RoutingConfig, bounds: CostBounds)
    ensures ScoreFits(channel, stats, config, bounds, ScoreChannel(channel, stats, config, bounds))
  {
    hide P95, RateOf, LatencyScoreOf, CostScoreOf, Round4, Clamp01, IsRate, IsLatencyScore, IsCostScore, FourDecimals;
    hide Weighted, WeightedSum, Clamped;
    var s := ScoreChannel(channel, stats, config, bounds);
    var rate, l, c := RateOf(stats, config), LatencyScoreOf(s.p95Ms, config), CostScoreOf(channel.cost, bounds);
    RateIs(stats, config);
    LatencyScoreIs(s.p95Ms, config);
    CostScoreIs(channel.cost, bounds);
    SumIs(config, rate, l, c);
    assert Parts(channel, stats, config, bounds, s.p95Ms, rate, l, c, Clamp01(Weighted(config, rate, l, c)));
  }

  lemma NearestIsUnique(v: real, a: real, b: real)
    requires Rounded(v, a) && Rounded(v, b)
    ensures a == b
  {
    var k, m := (a * 10000.0).Floor, (b * 10000.0).Floor;
    assert -1.0 < (k - m) as real < 1.0;
  }

  lemma FactorIsUnique(a: real, b: real, m: real)
    requires a * m == b * m && m != 0.0
    ensures a == b
  {
    assert (a - b) * m == 0.0;
  }

  lemma PartsAreUnique(channel: Channel, stats: ChannelStats, config: RoutingConfig, bounds: CostBounds,
      p95Ms: Option<real>)
    ensures forall x: real, y: real :: IsRate(stats, config, x) && IsRate(stats, config, y) ==> x == y
    ensures forall x: real, y: real :: IsLatencyScore(p95Ms, config, x) && IsLatencyScore(p95Ms, config, y) ==> x == y
    ensures forall x: real, y: real ::
      IsCostScore(channel.cost, bounds, x) && IsCostScore(channel.cost, bounds, y) ==> x == y
  {
    var n := (stats.success + stats.failure) as real;
    forall x: real, y: real | IsRate(stats, config, x) && IsRate(stats, config, y) ensures x == y {
      if n > 0.0 && x * n == y * n { FactorIsUnique(x, y, n); }
    }
    forall x: real, y: real | IsLatencyScore(p95Ms, config, x) && IsLatencyScore(p95Ms, config, y) ensures x == y {
      var m := config.latencyCeilingMs as real;
      if m > 0.0 && x * m == y * m { FactorIsUnique(x, y, m); }
    }
    forall x: real, y: real | IsCostScore(channel.cost, bounds, x) && IsCostScore(channel.cost, bounds, y)
      ensures x == y
    {
      var m := bounds.max - bounds.min;
      if m > 0.0 && x * m == y * m { FactorIsUnique(x, y, m); }
    }
  }

  lemma TotalIsUnique(channel: Channel, stats: ChannelStats, config: RoutingConfig, bounds: CostBounds,
      p95Ms: Option<real>, rate: real, l: real, c: real, a: real, b: real)
    requires Parts(channel, stats, config, bounds, p95Ms, rate, l, c, a)
    requires Parts(channel, stats, config, bounds, p95Ms, rate, l, c, b)
    ensures a == b
  {
    hide WeightedSum, IsRate, IsLatencyScore, IsCostScore;
  }

  /** No other row has that meaning: the description decides every number of it. */
  lemma ScoreIsDecided(channel: Channel, stats: ChannelStats, config: RoutingConfig, bounds: CostBounds,
      s: ScoredChannel, t: ScoredChannel)
    requires ScoreFits(channel, stats, config, bounds, s) && ScoreFits(channel, stats, config, bounds, t)
    ensures s == t
  {
    hide P95, IsRate, IsLatencyScore, IsCostScore, Rounded, WeightedSum, Clamped;
    PartsAreUnique(channel, stats, config, bounds, s.p95Ms);
    var r1: real, l1: real, c1: real, t1: real :| Parts(channel, stats, config, bounds, s.p95Ms, r1, l1, c1, t1)
      && Rounded(r1, s.successRate) && Rounded(c1, s.costScore) && Rounded(t1, s.score);
    var r2: real, l2: real, c2: real, t2: real :| Parts(channel, stats, config, bounds, t.p95Ms, r2, l2, c2, t2)
      && Rounded(r2, t.successRate) && Rounded(c2, t.costScore) && Rounded(t2, t.score);
    assert r1 == r2 && l1 == l2 && c1 == c2;
    TotalIsUnique(channel, stats, config, bounds, s.p95Ms, r1, l1, c1, t1, t2);
    NearestIsUnique(r1, s.successRate, t.successRate);
    NearestIsUnique(c1, s.costScore, t.costScore);
    NearestIsUnique(t1, s.score, t.score);
  }

  lemma NoWeight(x: real)
    ensures Times(0.0, x) == 0.0
  {
  }

  /** A part without weight does not matter to the score. */
  lemma WeightlessParts(a: Channel, sa: ChannelStats, b: Channel, sb: ChannelStats, config: RoutingConfig,
      ba: CostBounds, bb: CostBounds)
    ensures
      var w, x, y := config.weights, ScoreChannel(a, sa, config, ba).score, ScoreChannel(b, sb, config, bb).score;
      var sameRate := sa.success == sb.success && sa.failure == sb.failure;
      var sameLatency := sa.latencySamples == sb.latencySamples;
      var sameCost := a.cost == b.cost && ba == bb;
      && (w.latency == 0.0 && sameRate && sameCost ==> x == y)
      && (w.success == 0.0 && sameLatency && sameCost ==> x == y)
      && (w.cost == 0.0 && sameRate && sameLatency ==> x == y)
  {
    hide P95, LatencyScoreOf, CostScoreOf, Round4, Clamp01, Times, RateOf;
    forall x: real ensures Times(0.0, x) == 0.0 {
      NoWeight(x);
    }
    assert sa.success == sb.success && sa.failure == sb.failure ==> RateOf(sa, config) == RateOf(sb, config) by {
      if sa.success == sb.success && sa.failure == sb.failure { SameRate(sa, sb, config); }
    }
  }

  lemma SameRate(a: ChannelStats, b: ChannelStats, config: RoutingConfig)
    requires a.success == b.success && a.failure == b.failure
    ensures RateOf(a, config) == RateOf(b, config)
  {
  }

  // ---------- The rows of the ranking ----------

  /** What a row shows of its channel: identity, numbers, breaker, and whether and why it is blocked. */
  ghost predicate RowFits(cand: Candidate, channel: Channel, stats: ChannelStats, state: BreakerState,
      config: RoutingConfig, bounds: CostBounds)
  {
    && cand.channelId == channel.id && cand.breakerState == state
    && ScoreFits(channel, stats, config, bounds,
                 ScoredChannel(cand.score, cand.successRate, cand.p95Ms, cand.costScore, cand.samples, cand.coldStart))
    && (cand.eligible <==> channel.enabled && state != OPEN)
    && (cand.ineligibleReason == None <==> cand.eligible)
    && (cand.ineligibleReason == Some(ChannelDisabled) <==> !channel.enabled)
    && (cand.ineligibleReason == Some(BreakerOpen) <==> channel.enabled && state == OPEN)
  }

  /** A channel that the inputs do not know has no outcomes and a closed breaker. */
  lemma MissingInputs(inputs: Inputs, id: string)
    ensures StatsFor(inputs, id) == if id in inputs.stats then inputs.stats[id] else ChannelStats(id, 0, 0, [])
    ensures StateFor(inputs, id) == if id in inputs.breakers then inputs.breakers[id].state else CLOSED
  {
  }

  lemma RowIsFit(cand: Candidate, channel: Channel, inputs: Inputs, bounds: CostBounds)
    requires StandsFor(cand, channel, inputs, bounds)
    ensures RowFits(cand, channel, StatsFor(inputs, channel.id), StateFor(inputs, channel.id), inputs.config, bounds)
  {
    hide ScoreFits, ScoreChannel, StatsFor, StateFor;
    var stats := StatsFor(inputs, channel.id);
    ScoreIs(channel, stats, inputs.config, bounds);
    var s := ScoreChannel(channel, stats, inputs.config, bounds);
    assert s == ScoredChannel(s.score, s.successRate, s.p95Ms, s.costScore, s.samples, s.coldStart);
  }
}
