/** The score of a channel and the ranked list of candidates. */
module Scoring {
  import opened Types
  import opened Sorting
  import opened Percentile

  datatype CostBounds = CostBounds(min: real, max: real)

  function CostBoundsOf(channels: seq<Channel>): (b: CostBounds)
    ensures forall i :: 0 <= i < |channels| ==> b.min <= channels[i].cost <= b.max
    ensures channels != [] ==>
      (exists i :: 0 <= i < |channels| && channels[i].cost == b.min)
        && (exists i :: 0 <= i < |channels| && channels[i].cost == b.max)
    ensures channels == [] ==> b == CostBounds(0.0, 0.0)
  {
    if channels == [] then CostBounds(0.0, 0.0)
    else if |channels| == 1 then CostBounds(channels[0].cost, channels[0].cost)
    else
      var n := |channels| - 1;
      var b, cost := CostBoundsOf(channels[..n]), channels[n].cost;
      CostBounds(if cost < b.min then cost else b.min, if b.max < cost then cost else b.max)
  }

  function Clamp01(value: real): (r: real)
    ensures 0.0 <= r <= 1.0
    ensures 0.0 <= value <= 1.0 ==> r == value
    ensures (value <= 0.0 ==> r == 0.0) && (value >= 1.0 ==> r == 1.0)
  {
    if value < 0.0 then 0.0 else if value > 1.0 then 1.0 else value
  }

  /** A multiple of 0.0001. */
  predicate FourDecimals(r: real) {
    (r * 10000.0).Floor as real == r * 10000.0
  }

  /** `Math.round(value * 10000) / 10000`: halves go up. */
  function Round4(value: real): (r: real)
    ensures FourDecimals(r) && r - 0.00005 <= value < r + 0.00005
    ensures 0.0 <= value <= 1.0 ==> 0.0 <= r <= 1.0
  {
    (value * 10000.0 + 0.5).Floor as real / 10000.0
  }

  lemma Round4Monotone(a: real, b: real)
    requires a <= b
    ensures Round4(a) <= Round4(b)
  {
    assert (a * 10000.0 + 0.5).Floor <= (b * 10000.0 + 0.5).Floor;
  }

  function CostScoreOf(cost: real, bounds: CostBounds): (r: real)
    ensures 0.0 <= r <= 1.0
  {
    var spread := bounds.max - bounds.min;
    if spread <= 0.0 then 1.0 else Clamp01(1.0 - (cost - bounds.min) / spread)
  }

  function LatencyScoreOf(p95Ms: Option<real>, config: RoutingConfig): (r: real)
    ensures 0.0 <= r <= 1.0
  {
    if p95Ms.None? then Clamp01(config.coldStart.latencyScore)
    else if config.latencyCeilingMs <= 0 then 0.0
    else
      var share := p95Ms.value / config.latencyCeilingMs as real;
      Clamp01(1.0 - if share < 1.0 then share else 1.0)
  }

  datatype ScoredChannel = ScoredChannel(
    score: real,
    successRate: real,
    p95Ms: Option<real>,
    costScore: real,
    samples: int,
    coldStart: bool)

  function RateOf(stats: ChannelStats, config: RoutingConfig): (r: real)
    ensures 0.0 <= r <= 1.0
  {
    var samples := stats.success + stats.failure;
    if samples < config.minSamples then Clamp01(config.coldStart.successRate)
    else if samples == 0 then 0.0
    else
      DivideMonotone(0.0, stats.success as real, samples as real);
      DivideMonotone(stats.success as real, samples as real, samples as real);
      stats.success as real / samples as real
  }

  function Times(w: real, x: real): real {
    w * x
  }

  function Weighted(config: RoutingConfig, rate: real, latencyScore: real, costScore: real): real {
    Times(config.weights.success, rate) + Times(config.weights.latency, latencyScore) + Times(config.weights.cost,
      costScore)
  }

  function ScoreChannel(channel: Channel, stats: ChannelStats, config: RoutingConfig,
      bounds: CostBounds): (s: ScoredChannel)
    ensures 0.0 <= s.score <= 1.0 && 0.0 <= s.successRate <= 1.0 && 0.0 <= s.costScore <= 1.0
  {
    var rate := RateOf(stats, config);
    var measured := P95(stats.latencySamples);
    var costScore := CostScoreOf(channel.cost, bounds);
    ScoredChannel(
      Round4(Clamp01(Weighted(config, rate, LatencyScoreOf(measured, config), costScore))),
      Round4(rate),
      measured,
      Round4(costScore),
      stats.success + stats.failure,
      stats.success + stats.failure < config.minSamples)
  }

  lemma DivideMonotone(a: real, b: real, m: real)
    requires a <= b && m > 0.0
    ensures a / m <= b / m && 0.0 / m == 0.0 && m / m == 1.0
  {
    assert a / m - b / m == (a - b) / m;
  }

  lemma TimesMonotone(w: real, a: real, b: real)
    requires a <= b && w >= 0.0
    ensures Times(w, a) <= Times(w, b)
  {
    assert w * (b - a) >= 0.0;
    assert w * (b - a) == w * b - w * a;
  }

  lemma ClampMonotone(a: real, b: real)
    requires a <= b
    ensures Clamp01(a) <= Clamp01(b)
  {
  }

  lemma CostScoreFalls(cheap: real, dear: real, bounds: CostBounds)
    requires cheap <= dear
    ensures CostScoreOf(cheap, bounds) >= CostScoreOf(dear, bounds)
  {
    var spread := bounds.max - bounds.min;
    if spread > 0.0 {
      DivideMonotone(cheap - bounds.min, dear - bounds.min, spread);
    }
  }

  lemma LatencyScoreFalls(fast: real, slow: real, config: RoutingConfig)
    requires fast <= slow
    ensures LatencyScoreOf(Some(fast), config) >= LatencyScoreOf(Some(slow), config)
  {
    if config.latencyCeilingMs > 0 {
      DivideMonotone(fast, slow, config.latencyCeilingMs as real);
    }
  }

  predicate NonNegative(w: Weights) {
    w.success >= 0.0 && w.latency >= 0.0 && w.cost >= 0.0
  }

  /** The first channel is warm, measured, and no worse than the second in all three parts. */
  ghost predicate Dominates(a: Channel, sa: ChannelStats, b: Channel, sb: ChannelStats, config: RoutingConfig) {
    && sa.success + sa.failure >= config.minSamples && sb.success + sb.failure >= config.minSamples
    && sa.success + sa.failure > 0 && sb.success + sb.failure > 0
    && sa.success * (sb.success + sb.failure) >= sb.success * (sa.success + sa.failure)
    && P95(sa.latencySamples).Some? && P95(sb.latencySamples).Some?
    && P95(sa.latencySamples).value <= P95(sb.latencySamples).value
    && a.cost <= b.cost
  }

  lemma RatioMonotone(s1: nat, t1: nat, s2: nat, t2: nat)
    requires t1 > 0 && t2 > 0 && s1 * t2 >= s2 * t1
    ensures s1 as real / t1 as real >= s2 as real / t2 as real
  {
    var a, b, c, d := s1 as real, t1 as real, s2 as real, t2 as real;
    assert a * d >= c * b by {
      assert (s1 * t2) as real == a * d && (s2 * t1) as real == c * b;
    }
    DivideMonotone(c * b, a * d, b * d);
    assert a * d / (b * d) == a / b;
    assert c * b / (b * d) == c / d;
  }

  lemma WeightedMonotone(config: RoutingConfig, r1: real, l1: real, c1: real, r2: real, l2: real, c2: real)
    requires NonNegative(config.weights) && r1 >= r2 && l1 >= l2 && c1 >= c2
    ensures Weighted(config, r1, l1, c1) >= Weighted(config, r2, l2, c2)
  {
    hide Times;
    TimesMonotone(config.weights.success, r2, r1);
    TimesMonotone(config.weights.latency, l2, l1);
    TimesMonotone(config.weights.cost, c2, c1);
  }

  /** No worse in every part means no lower in the rounded score. */
  lemma DominanceScore(a: Channel, sa: ChannelStats, b: Channel, sb: ChannelStats, config: RoutingConfig,
      bounds: CostBounds)
    requires NonNegative(config.weights) && Dominates(a, sa, b, sb, config)
    ensures ScoreChannel(a, sa, config, bounds).score >= ScoreChannel(b, sb, config, bounds).score
  {
    hide P95, LatencyScoreOf, CostScoreOf, Clamp01, Round4, Weighted;
    var ra, rb := RateOf(sa, config), RateOf(sb, config);
    RatioMonotone(sa.success, sa.success + sa.failure, sb.success, sb.success + sb.failure);
    var pa, pb := P95(sa.latencySamples), P95(sb.latencySamples);
    LatencyScoreFalls(pa.value, pb.value, config);
    CostScoreFalls(a.cost, b.cost, bounds);
    var la, lb := LatencyScoreOf(pa, config), LatencyScoreOf(pb, config);
    var ca, cb := CostScoreOf(a.cost, bounds), CostScoreOf(b.cost, bounds);
    WeightedMonotone(config, ra, la, ca, rb, lb, cb);
    var wa, wb := Weighted(config, ra, la, ca), Weighted(config, rb, lb, cb);
    ClampMonotone(wb, wa);
    Round4Monotone(Clamp01(wb), Clamp01(wa));
  }

  datatype Eligibility = Eligibility(eligible: bool, reason: Option<Reason>)

  function EligibilityOf(channel: Channel, state: BreakerState): Eligibility {
    if !channel.enabled then Eligibility(false, Some(ChannelDisabled))
    else if state == OPEN then Eligibility(false, Some(BreakerOpen))
    else Eligibility(true, None)
  }

  /** The channel table, the window and the breakers that one decision reads. */
  datatype Inputs = Inputs(stats: map<string, ChannelStats>, breakers: map<string, BreakerSnapshot>,
    config: RoutingConfig)

  function StatsFor(inputs: Inputs, id: string): ChannelStats {
    if id in inputs.stats then inputs.stats[id] else EmptyStats(id)
  }

  function StateFor(inputs: Inputs, id: string): BreakerState {
    if id in inputs.breakers then inputs.breakers[id].state else CLOSED
  }

  function Unranked(channel: Channel, inputs: Inputs, bounds: CostBounds): (cand: Candidate)
    ensures cand.rank == 0 && cand.channelId == channel.id && 0.0 <= cand.score <= 1.0
  {
    var s := ScoreChannel(channel, StatsFor(inputs, channel.id), inputs.config, bounds);
    var state := StateFor(inputs, channel.id);
    var e := EligibilityOf(channel, state);
    Candidate(channel.id, 0, s.score, s.successRate, s.p95Ms, s.costScore, state, s.samples, s.coldStart, e.eligible,
      e.reason)
  }

  /** A strict total order on identifiers, as `localeCompare` gives for identifiers that it tells apart. */
  ghost predicate StrictOrder(lt: (string, string) -> bool) {
    && (forall a :: !lt(a, a))
    && (forall a, b :: a != b ==> lt(a, b) || lt(b, a))
    && (forall a, b, c :: lt(a, b) && lt(b, c) ==> lt(a, c))
  }

  /** The comparison of the sort: eligible first, then the larger score, then the smaller identifier. */
  predicate NotAfter(lt: (string, string) -> bool, a: Candidate, b: Candidate) {
    if a.eligible != b.eligible then a.eligible
    else if a.score != b.score then a.score > b.score
    else !lt(b.channelId, a.channelId)
  }

  function ByRank(lt: (string, string) -> bool): (Candidate, Candidate) -> bool {
    (a, b) => NotAfter(lt, a, b)
  }

  lemma ByRankIsPreorder(lt: (string, string) -> bool)
    requires StrictOrder(lt)
    ensures Preorder(ByRank(lt))
  {
    forall a, b, c | ByRank(lt)(a, b) && ByRank(lt)(b, c) ensures ByRank(lt)(a, c) {
      assert NotAfter(lt, a, b) && NotAfter(lt, b, c);
      var x, y, z := a.channelId, b.channelId, c.channelId;
      if a.eligible == b.eligible == c.eligible && a.score == b.score == c.score && x != y && y != z {
        assert lt(x, y) && lt(y, z);
        assert lt(x, z);
        assert !lt(z, x);
      }
    }
    forall a, b ensures ByRank(lt)(a, b) || ByRank(lt)(b, a) {
      assert NotAfter(lt, a, b) || NotAfter(lt, b, a);
    }
  }

  function Ranked(sorted: seq<Candidate>): (ranked: seq<Candidate>)
    ensures |ranked| == |sorted|
    ensures forall i :: 0 <= i < |sorted| ==> ranked[i] == sorted[i].(rank := i + 1)
  {
    seq(|sorted|, i requires 0 <= i < |sorted| => sorted[i].(rank := i + 1))
  }

  function Scorer(inputs: Inputs, bounds: CostBounds): Channel -> Candidate {
    channel => Unranked(channel, inputs, bounds)
  }

  function Scored(channels: seq<Channel>, inputs: Inputs): (scored: seq<Candidate>)
    ensures |scored| == |channels|
    ensures forall i :: 0 <= i < |channels| ==> scored[i] == Unranked(channels[i], inputs, CostBoundsOf(channels))
  {
    Map(Scorer(inputs, CostBoundsOf(channels)), channels)
  }

  function BuildCandidates(channels: seq<Channel>, inputs: Inputs, lt: (string, string) -> bool): seq<Candidate> {
    Ranked(SortBy(ByRank(lt), Scored(channels, inputs)))
  }

  /** The list is sorted in place, and the ranks are then assigned in a loop. */
  method Build(channels: seq<Channel>, inputs: Inputs, lt: (string, string) -> bool) returns (scored: array<Candidate>)
    ensures fresh(scored) && scored[..] == BuildCandidates(channels, inputs, lt)
  {
    hide Unranked, SortBy, CostBoundsOf, NotAfter, ByRank, Ranked;
    var bounds := CostBoundsOf(channels);
    var rows := Map(Scorer(inputs, bounds), channels);
    scored := new Candidate[|rows|](i requires 0 <= i < |rows| => rows[i]);
    assert scored[..] == Scored(channels, inputs);
    SortMembers(ByRank(lt), scored[..]);
    SortInPlace(scored, ByRank(lt));
    AssignRanks(scored);
  }

  method AssignRanks(scored: array<Candidate>)
    modifies scored
    ensures scored[..] == Ranked(old(scored[..]))
  {
    ghost var sorted := scored[..];
    var index := 0;
    while index < scored.Length
      invariant 0 <= index <= scored.Length
      invariant forall i :: 0 <= i < index ==> scored[i] == Ranked(sorted)[i]
      invariant forall i :: index <= i < scored.Length ==> scored[i] == sorted[i]
    {
      scored[index] := scored[index].(rank := index + 1);
      index := index + 1;
    }
    assert scored[..] == Ranked(sorted);
  }

  /** Stands for `Array.prototype.sort`, which sorts an array in place and keeps the order of equal elements. */
  method SortInPlace<T(!new)>(a: array<T>, le: (T, T) -> bool)
    requires |SortBy(le, a[..])| == a.Length
    modifies a
    ensures a[..] == SortBy(le, old(a[..]))
  {
    var sorted := SortBy(le, a[..]);
    forall i | 0 <= i < a.Length {
      a[i] := sorted[i];
    }
    assert a[..] == sorted;
  }

  ghost predicate DistinctIds(channels: seq<Channel>) {
    forall i, j :: 0 <= i < j < |channels| ==> channels[i].id != channels[j].id
  }

  lemma ScoredIsAntisymmetric(channels: seq<Channel>, inputs: Inputs, lt: (string, string) -> bool)
    requires StrictOrder(lt) && DistinctIds(channels)
    ensures Antisymmetric(ByRank(lt), Scored(channels, inputs))
  {
    hide Unranked, CostBoundsOf, Scored;
    var s := Scored(channels, inputs);
    forall a, b | a in s && b in s && ByRank(lt)(a, b) && ByRank(lt)(b, a) ensures a == b {
      var i :| 0 <= i < |s| && s[i] == a;
      var j :| 0 <= j < |s| && s[j] == b;
      assert NotAfter(lt, a, b) && NotAfter(lt, b, a);
      assert a.channelId == channels[i].id && b.channelId == channels[j].id;
      assert a.channelId == b.channelId;
      assert i == j;
    }
  }

  lemma BoundsForgetOrder(xs: seq<Channel>, ys: seq<Channel>)
    requires multiset(xs) == multiset(ys)
    ensures CostBoundsOf(xs) == CostBoundsOf(ys)
  {
    assert |multiset(xs)| == |xs| && |multiset(ys)| == |ys|;
    if xs != [] {
      SomeIndex(xs, ys);
      SomeIndex(ys, xs);
    }
  }

  lemma SomeIndex(xs: seq<Channel>, ys: seq<Channel>)
    requires multiset(xs) == multiset(ys) && xs != [] && ys != []
    ensures CostBoundsOf(ys).min <= CostBoundsOf(xs).min && CostBoundsOf(xs).max <= CostBoundsOf(ys).max
  {
    var i :| 0 <= i < |xs| && xs[i].cost == CostBoundsOf(xs).min;
    var j :| 0 <= j < |xs| && xs[j].cost == CostBoundsOf(xs).max;
    assert xs[i] in multiset(ys) && xs[j] in multiset(ys);
    var k :| 0 <= k < |ys| && ys[k] == xs[i];
    var l :| 0 <= l < |ys| && ys[l] == xs[j];
  }

  /** The candidate list does not depend on the order of the channel table. */
  lemma CandidatesForgetOrder(xs: seq<Channel>, ys: seq<Channel>, inputs: Inputs, lt: (string, string) -> bool)
    requires StrictOrder(lt) && DistinctIds(xs) && multiset(xs) == multiset(ys)
    ensures BuildCandidates(xs, inputs, lt) == BuildCandidates(ys, inputs, lt)
  {
    hide CostBoundsOf, Unranked, StrictOrder;
    BoundsForgetOrder(xs, ys);
    MapForgetsOrder(Scorer(inputs, CostBoundsOf(xs)), xs, ys);
    ByRankIsPreorder(lt);
    ScoredIsAntisymmetric(xs, inputs, lt);
    SortForgetsOrder(ByRank(lt), Scored(xs, inputs), Scored(ys, inputs));
  }

  /** Which channel a candidate stands for. */
  ghost predicate StandsFor(cand: Candidate, channel: Channel, inputs: Inputs, bounds: CostBounds) {
    cand.(rank := 0) == Unranked(channel, inputs, bounds)
  }

  /** Every candidate stands for a channel. */
  lemma CandidatesAreChannels(channels: seq<Channel>, inputs: Inputs, lt: (string, string) -> bool)
    ensures
      var cands, bounds := BuildCandidates(channels, inputs, lt), CostBoundsOf(channels);
      && |cands| == |channels|
      && (forall i :: 0 <= i < |cands| ==>
        exists j :: 0 <= j < |channels| && StandsFor(cands[i], channels[j], inputs, bounds))
  {
    hide Unranked, CostBoundsOf, SortBy, NotAfter, Scored, ByRank;
    var scored, cands, bounds := Scored(channels, inputs), BuildCandidates(channels, inputs, lt),
      CostBoundsOf(channels);
    var sorted := SortBy(ByRank(lt), scored);
    SortMembers(ByRank(lt), scored);
    forall i | 0 <= i < |cands|
      ensures exists j :: 0 <= j < |channels| && StandsFor(cands[i], channels[j], inputs, bounds) {
      assert sorted[i] in sorted;
      var j :| 0 <= j < |scored| && scored[j] == sorted[i];
      assert StandsFor(cands[i], channels[j], inputs, bounds);
    }
  }

  /** Every channel has a candidate. */
  lemma ChannelsAreCandidates(channels: seq<Channel>, inputs: Inputs, lt: (string, string) -> bool)
    ensures
      var cands, bounds := BuildCandidates(channels, inputs, lt), CostBoundsOf(channels);
      forall j :: 0 <= j < |channels| ==>
        exists i :: 0 <= i < |cands| && StandsFor(cands[i], channels[j], inputs, bounds)
  {
    hide Unranked, CostBoundsOf, SortBy, NotAfter, Scored, ByRank;
    var scored, cands, bounds := Scored(channels, inputs), BuildCandidates(channels, inputs, lt),
      CostBoundsOf(channels);
    var sorted := SortBy(ByRank(lt), scored);
    SortMembers(ByRank(lt), scored);
    forall j | 0 <= j < |channels|
      ensures exists i :: 0 <= i < |cands| && StandsFor(cands[i], channels[j], inputs, bounds) {
      assert scored[j] in scored;
      var i :| 0 <= i < |sorted| && sorted[i] == scored[j];
      assert StandsFor(cands[i], channels[j], inputs, bounds);
    }
  }

  function IdOf(cand: Candidate): string {
    cand.channelId
  }

  ghost predicate DistinctCandidates(cands: seq<Candidate>) {
    forall i, j :: 0 <= i < j < |cands| ==> cands[i].channelId != cands[j].channelId
  }

  /** Distinct channels give candidates with distinct identifiers. */
  lemma CandidatesDistinct(channels: seq<Channel>, inputs: Inputs, lt: (string, string) -> bool)
    requires DistinctIds(channels)
    ensures DistinctCandidates(BuildCandidates(channels, inputs, lt))
  {
    hide Unranked, CostBoundsOf, SortBy, NotAfter, Scored, ByRank;
    var scored, cands := Scored(channels, inputs), BuildCandidates(channels, inputs, lt);
    assert DistinctBy(IdOf, scored);
    SortKeepsDistinct(ByRank(lt), IdOf, scored);
    var sorted := SortBy(ByRank(lt), scored);
    forall i, j | 0 <= i < j < |cands| ensures cands[i].channelId != cands[j].channelId {
      assert IdOf(sorted[i]) != IdOf(sorted[j]);
    }
  }

  /** The list is in order, ranked from one, and every score is between zero and one. */
  lemma CandidatesAreRanked(channels: seq<Channel>, inputs: Inputs, lt: (string, string) -> bool)
    requires StrictOrder(lt)
    ensures
      var cands := BuildCandidates(channels, inputs, lt);
      && (forall i, j :: 0 <= i < j < |cands| ==> NotAfter(lt, cands[i], cands[j]))
      && (forall i :: 0 <= i < |cands| ==> cands[i].rank == i + 1 && 0.0 <= cands[i].score <= 1.0)
  {
    hide CostBoundsOf, SortBy, StrictOrder, ScoreChannel, Scored;
    var cands := BuildCandidates(channels, inputs, lt);
    ByRankIsPreorder(lt);
    SortBySorts(ByRank(lt), Scored(channels, inputs));
    var sorted := SortBy(ByRank(lt), Scored(channels, inputs));
    forall i, j | 0 <= i < j < |cands| ensures NotAfter(lt, cands[i], cands[j]) {
      assert ByRank(lt)(sorted[i], sorted[j]);
    }
    ScoresInRange(channels, inputs, lt);
  }

  lemma ScoresInRange(channels: seq<Channel>, inputs: Inputs, lt: (string, string) -> bool)
    ensures
      var cands := BuildCandidates(channels, inputs, lt);
      forall i :: 0 <= i < |cands| ==> 0.0 <= cands[i].score <= 1.0
  {
    hide CostBoundsOf, BuildCandidates, Unranked;
    CandidatesAreChannels(channels, inputs, lt);
  }

  /** A dominant channel ranks first, unless the scores round to the same value and the identifier decides. */
  lemma DominantRanksFirst(channels: seq<Channel>, inputs: Inputs, lt: (string, string) -> bool, a: Channel,
      b: Channel, i: nat, j: nat)
    requires StrictOrder(lt) && NonNegative(inputs.config.weights)
    requires Dominates(a, StatsFor(inputs, a.id), b, StatsFor(inputs, b.id), inputs.config)
    requires i < |channels| && j < |channels| && i != j
    ensures
      var cands := BuildCandidates(channels, inputs, lt);
      && |cands| == |channels|
      && (StandsFor(cands[i], a, inputs, CostBoundsOf(channels))
          && StandsFor(cands[j], b, inputs, CostBoundsOf(channels))
          && cands[i].eligible && cands[j].eligible ==>
            i < j || (cands[i].score == cands[j].score && !lt(a.id, b.id)))
  {
    hide CostBoundsOf, BuildCandidates, ScoreChannel, StrictOrder, Dominates, StatsFor, StateFor, EligibilityOf;
    var cands := BuildCandidates(channels, inputs, lt);
    CandidatesAreRanked(channels, inputs, lt);
    CandidatesAreChannels(channels, inputs, lt);
    DominanceScore(a, StatsFor(inputs, a.id), b, StatsFor(inputs, b.id), inputs.config, CostBoundsOf(channels));
    if j < i {
      assert NotAfter(lt, cands[j], cands[i]);
    }
  }
}
