/** The ranking of an informed call against the log of outcomes. */
module RankLaws {
  import opened Types
  import opened Redis
  import opened Window
  import opened WindowLog
  import opened Percentile
  import WindowStore
  import opened Scoring
  import opened ScoringLaws
  import opened Routing

  function Reals(latencies: seq<nat>): seq<real> {
    seq(|latencies|, i requires 0 <= i < |latencies| => latencies[i] as real)
  }

  /** The latencies that count for a p95: of each bucket the newest, as many as a bucket keeps. */
  function LogLatencies(log: seq<Applied>, g: Geometry, c: string, ids: seq<int>): seq<real>
    requires g.Valid()
  {
    if ids == [] then []
    else
      var n := |ids| - 1;
      LogLatencies(log, g, c, ids[..n]) + Reals(NewestFirst(InBucket(log, g, c, ids[n]), g.maxSamples))
  }

  lemma {:induction false} AllUsable(latencies: seq<nat>)
    ensures Finites(AsNums(latencies)) == Reals(latencies)
  {
    if latencies == [] {
      assert AsNums(latencies) == [];
    } else {
      AllUsable(latencies[1..]);
      assert AsNums(latencies) == [Finite(latencies[0] as real)] + AsNums(latencies[1..]);
      FinitesCons(Finite(latencies[0] as real), AsNums(latencies[1..]));
      assert Reals(latencies) == [latencies[0] as real] + Reals(latencies[1..]);
    }
  }

  lemma {:induction false} UsableOverLog(log: seq<Applied>, g: Geometry, c: string, ids: seq<int>)
    requires g.Valid()
    ensures Finites(SamplesOver(log, g, c, ids)) == LogLatencies(log, g, c, ids)
    decreases |ids|
  {
    hide InBucket, NewestFirst, Reals, AsNums, Finites;
    if ids == [] {
      NothingUsable();
    } else {
      var n := |ids| - 1;
      UsableOverLog(log, g, c, ids[..n]);
      AllUsable(NewestFirst(InBucket(log, g, c, ids[n]), g.maxSamples));
      FinitesSplit(SamplesOver(log, g, c, ids[..n]), AsNums(NewestFirst(InBucket(log, g, c, ids[n]), g.maxSamples)));
    }
  }

  lemma NothingUsable()
    ensures Finites([]) == []
  {
  }

  /** What a row must show, read off the log alone: how many outcomes, how many of them good, and their p95. */
  ghost predicate ShowsLog(cand: Candidate, channel: Channel, log: seq<Applied>, state: BreakerState,
      config: RoutingConfig, bounds: CostBounds, now: int)
    requires GeometryOf(config).Valid()
  {
    var g, c := GeometryOf(config), channel.id;
    var recent, latencies := Recent(log, g, c, now), LogLatencies(log, g, c, Ids(g, now));
    && RowFits(cand, channel, LogStats(log, g, c, now), state, config, bounds)
    && cand.samples == |recent| && (cand.coldStart <==> |recent| < config.minSamples)
    && (cand.p95Ms.None? <==> |latencies| < 5)
    && (cand.p95Ms.Some? ==> IsLeast(latencies, 0.95 * |latencies| as real, cand.p95Ms.value))
  }

  lemma RowShowsLog(cand: Candidate, channel: Channel, log: seq<Applied>, state: BreakerState, config: RoutingConfig,
      bounds: CostBounds, now: int)
    requires GeometryOf(config).Valid()
    requires RowFits(cand, channel, LogStats(log, GeometryOf(config), channel.id, now), state, config, bounds)
    ensures ShowsLog(cand, channel, log, state, config, bounds, now)
  {
    hide Parts, IsLeast, P95, SamplesOver, LogLatencies, Recent, Finites;
    var g, c := GeometryOf(config), channel.id;
    TallySplits(Recent(log, g, c, now));
    UsableOverLog(log, g, c, Ids(g, now));
    P95IsMeasured(SamplesOver(log, g, c, Ids(g, now)));
  }

  /**
    * The ranking shows the log. Every row stands for a channel of the table and
    * reports the outcomes, the success rate, the p95 and the score that the log of
    * that channel gives for the window at `now`, and its refreshed breaker.
    */
  lemma RankShowsLog(db: Db, config: RoutingConfig, channels: seq<Channel>, now: int, lt: (string, string) -> bool,
      log: seq<Applied>, lag: nat)
    requires GeometryOf(config).Valid() && Timely(GeometryOf(config), lag) && Tracks(db, GeometryOf(config), log)
    requires db.now <= now + lag
    ensures
      var cands, next := Rank(db, config, channels, now, lt), NextBreakers(db, config, IdsOf(channels), now);
      && |cands| == |channels|
      && forall cand :: cand in cands ==>
           exists ch :: ch in channels && ch.id in next
             && ShowsLog(cand, ch, log, next[ch.id].state, config, CostBoundsOf(channels), now)
  {
    hide BuildCandidates, CostBoundsOf, NextBreakers, Tracks, ShowsLog, StandsFor, RowFits;
    hide WindowStore.StatsIn, LogStats;
    var g, ids := GeometryOf(config), IdsOf(channels);
    var inputs := Inputs(ReadStats(db, config, ids, now), NextBreakers(db, config, ids, now), config);
    CandidatesAreChannels(channels, inputs, lt);
    var cands := Rank(db, config, channels, now, lt);
    forall cand | cand in cands
      ensures exists ch ::
                ch in channels && ch.id in inputs.breakers
                && ShowsLog(cand, ch, log, inputs.breakers[ch.id].state, config, CostBoundsOf(channels), now)
    {
      var i :| 0 <= i < |cands| && cands[i] == cand;
      var j :| 0 <= j < |channels| && StandsFor(cands[i], channels[j], inputs, CostBoundsOf(channels));
      var ch := channels[j];
      assert ids[j] in ids;
      RowIsFit(cand, ch, inputs, CostBoundsOf(channels));
      WindowIsLog(db, g, log, ch.id, now, lag);
      RowShowsLog(cand, ch, log, inputs.breakers[ch.id].state, config, CostBoundsOf(channels), now);
    }
  }
}
