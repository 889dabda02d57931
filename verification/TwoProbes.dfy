/** A run of the service in which two probes of half-open channels are out, and only one of them has its slot. */
module TwoProbes {
  import opened Types
  import opened Keys
  import opened Redis
  import opened Window
  import opened WindowLog
  import WindowStore
  import opened Breaker
  import BreakerStore
  import opened Scoring
  import opened Selection
  import opened Routing
  import opened RoutingLaws
  import opened ProbeLaws
  import opened CallRuns
  import opened CallSteps
  import opened StaleReopening

  /**
    * After a call whose first choice is half open, the slot of that choice is held, by
    * this call or by an earlier one.
    */
  lemma FirstSlotIsHeld(db: Db, config: RoutingConfig, query: Query, now: int, lt: (string, string) -> bool,
      draw: nat -> real, at: nat)
    requires Routable(db, config, query, now) && query.slotOk && Eligible(RankOf(db, config, query, now, lt)) != []
    ensures
      var es := Eligible(RankOf(db, config, query, now, lt));
      var first := es[IndexOf(|es|, config.explorationRate, draw(at), draw(at + 1))];
      IsHalfOpen(first) ==> Route(db, config, query, now, lt, draw, at).db.Live(Probe(first.channelId))
  {
    hide Rank, Refreshed, Select, DrawsUsed, Reachable, BreakerStore.BreakersLast, BreakerStore.ParseSnapshot;
    hide StateOf, Eligible, IndexOf;
    var cands, rate := RankOf(db, config, query, now, lt), config.explorationRate;
    var es := Eligible(cands);
    assert es[0] in es;
    RowState(db, config, query, now, lt, es[0]);
    SomeReachable(db, config, query, now, lt);
    RefreshedReads(db, config, IdsOf(Reachable(query.all, query.supported)), now, query.landed);
    SelectIs(cands, rate, draw(at), draw(at + 1));
    FirstWants(cands, rate, draw(at), draw(at + 1));
  }

  lemma OneMoreEligible(before: seq<Candidate>, c: Candidate)
    requires Eligible(before) == before && c.eligible
    ensures Eligible(before + [c]) == before + [c]
  {
    hide Eligible;
    EligibleSnoc(before, c);
  }

  lemma {:induction false} AllEligible(cands: seq<Candidate>)
    requires forall i :: 0 <= i < |cands| ==> cands[i].eligible
    ensures Eligible(cands) == cands
  {
    if cands == [] {
      assert Eligible(cands) == [];
    } else {
      hide Eligible;
      var before, c := cands[..|cands| - 1], cands[|cands| - 1];
      AllEligible(before);
      OneMoreEligible(before, c);
      assert cands == before + [c];
    }
  }

  /** When every refreshed breaker is half open and every channel enabled, every row is eligible and half open. */
  lemma AllHalfOpen(db: Db, config: RoutingConfig, all: seq<Channel>, now: int, lt: (string, string) -> bool)
    requires GeometryOf(config).Valid() && forall ch :: ch in all ==> ch.enabled
    requires forall c :: c in IdsOf(all) ==> NextBreakers(db, config, IdsOf(all), now)[c].state == HALF_OPEN
    ensures
      var cands := RankOf(db, config, QueryOf(all), now, lt);
      Eligible(cands) == cands && |cands| == |all| && forall i :: 0 <= i < |cands| ==> IsHalfOpen(cands[i])
  {
    hide BuildCandidates, NextBreakers, Eligible;
    AllReachable(all);
    RankRows(db, config, all, now, lt);
    CandidatesAreChannels(all,
      Inputs(ReadStats(db, config, IdsOf(all), now), NextBreakers(db, config, IdsOf(all), now), config), lt);
    var cands := RankOf(db, config, QueryOf(all), now, lt);
    forall i | 0 <= i < |cands| ensures cands[i].eligible && IsHalfOpen(cands[i]) {
      assert cands[i] in cands;
    }
    AllEligible(cands);
  }

  lemma NextIsHalfOpen(q: Setup, w: World, ids: seq<string>, c: string)
    requires q.Valid() && c in ids && w.db.now == q.config.breaker.openMs
    requires StateAt(w, c) == BreakerSnapshot(OPEN, 0, 0) || StateAt(w, c) == BreakerSnapshot(HALF_OPEN, 0, 0)
    ensures NextBreakers(w.db, q.config, ids, w.db.now)[c] == BreakerSnapshot(HALF_OPEN, 0, 0)
  {
    hide BreakerStore.BreakerAt, WindowStore.StatsIn;
  }

  /** Two worlds with one log and one clock have the same window numbers. */
  lemma SameStats(q: Setup, w: World, t: World, ids: seq<string>)
    requires Sound(q, w) && Sound(q, t) && w.log == t.log && w.db.now == t.db.now
    ensures ReadStats(w.db, q.config, ids, w.db.now) == ReadStats(t.db, q.config, ids, t.db.now)
  {
    hide Tracks, BreakerStore.BreakersLast, BreakerStore.BreakerAt, WellFormed, WindowStore.StatsIn, LogStats;
    SpanFitsTtl(q.G());
    forall c ensures WindowStore.StatsIn(w.db, q.G(), c, w.db.now) == WindowStore.StatsIn(t.db, q.G(), c, t.db.now) {
      WindowIsLog(w.db, q.G(), w.log, c, w.db.now, 0);
      WindowIsLog(t.db, q.G(), t.log, c, t.db.now, 0);
    }
  }

  /** Every breaker is open or half open since time zero. */
  ghost predicate Recovering(w: World, ids: seq<string>) {
    forall c :: c in ids ==>
      StateAt(w, c) == BreakerSnapshot(OPEN, 0, 0) || StateAt(w, c) == BreakerSnapshot(HALF_OPEN, 0, 0)
  }

  lemma NextAreHalfOpen(q: Setup, w: World, ids: seq<string>)
    requires q.Valid() && Recovering(w, ids) && w.db.now == q.config.breaker.openMs
    ensures NextBreakers(w.db, q.config, ids, w.db.now) == map c | c in ids :: BreakerSnapshot(HALF_OPEN, 0, 0)
  {
    hide NextBreakers, StateAt;
    forall c | c in ids ensures NextBreakers(w.db, q.config, ids, w.db.now)[c] == BreakerSnapshot(HALF_OPEN, 0, 0) {
      NextIsHalfOpen(q, w, ids, c);
    }
  }

  /** Two such worlds with one log and one clock rank alike. */
  lemma SameRanking(q: Setup, w: World, t: World, all: seq<Channel>)
    requires Sound(q, w) && Sound(q, t) && w.log == t.log && w.db.now == t.db.now == q.config.breaker.openMs
    requires Recovering(w, IdsOf(all)) && Recovering(t, IdsOf(all))
    ensures RankOf(w.db, q.config, QueryOf(all), w.db.now, q.lt) == RankOf(t.db, q.config, QueryOf(all), t.db.now, q.lt)
    ensures forall c :: c in IdsOf(all) ==> NextBreakers(t.db, q.config, IdsOf(all), t.db.now)[c].state == HALF_OPEN
    ensures forall c :: c in IdsOf(all) ==> NextBreakers(w.db, q.config, IdsOf(all), w.db.now)[c].state == HALF_OPEN
  {
    hide Sound, BuildCandidates, NextBreakers, ReadStats, Recovering, IdsOf;
    SoundIsValid(q, w);
    AllReachable(all);
    SameStats(q, w, t, IdsOf(all));
    NextAreHalfOpen(q, w, IdsOf(all));
    NextAreHalfOpen(q, t, IdsOf(all));
  }

  /** Both breakers are open at time zero. */
  lemma BothOpen(q: Setup, all: seq<Channel>) returns (ws: seq<World>, calls: seq<Call>, used: nat)
    requires q.Valid() && CanOpen(q) && |all| == 2 && all[0].id != all[1].id
    ensures Ran(q, ws, calls) && FreshFrom(Last(ws), used) && Last(ws).db.now == 0
    ensures forall c :: c in IdsOf(all) ==> StateAt(Last(ws), c) == BreakerSnapshot(OPEN, 0, 0)
  {
    hide StateAt, Next, Run, Recent, FreshFrom, Sound;
    var a, b, m: nat := all[0].id, all[1].id, q.config.minSamples;
    ws, calls := Begin(q);
    StartWindow(q, a);
    StartWindow(q, b);
    ws, calls := FailMany(q, ws, calls, a, m, 0);
    ws, calls := FailMany(q, ws, calls, b, m, m);
    used := m + m;
  }

  /**
    * The escape is reachable: in some run, two channels are half open, one routing
    * call takes the slot of the first, and the next routing call returns the other
    * one, half open, without its slot.
    */
  lemma TwoProbesOut(q: Setup, all: seq<Channel>) returns (ws: seq<World>, calls: seq<Call>, draw: nat -> real)
    requires q.Valid() && CanOpen(q) && 0.0 <= q.config.explorationRate < 1.0
    requires |all| == 2 && all[0].id != all[1].id && all[0].enabled && all[1].enabled
    ensures Run(q, ws, calls) && ws != [] && UnitDraws(draw)
    ensures !RouteOwns(Last(ws).db, q.config, QueryOf(all), Last(ws).db.now, q.lt, draw, 0)
  {
    hide StateAt, Next, Run, FreshFrom, Sound, RouteOwns, UnitDraws, RankOf, NextBreakers, IdsOf, Eligible;
    var used: nat;
    ws, calls, used := BothOpen(q, all);
    var rate := q.config.explorationRate;
    ws, calls := WaitAndProbe(q, ws, calls, all, used, k => rate);
    var w, t := ws[|ws| - 2], Last(ws);
    SameRanking(q, w, t, all);
    AllHalfOpen(t.db, q.config, all, t.db.now, q.lt);
    AllHalfOpen(w.db, q.config, all, w.db.now, q.lt);
    CallsAreRoutable(q, w, all);
    CallsAreRoutable(q, t, all);
    FirstSlotIsHeld(w.db, q.config, QueryOf(all), w.db.now, q.lt, k => rate, 0);
    RouteLeaves(q, w, all, k => rate);
    draw := RouteEscapes(t.db, q.config, QueryOf(all), t.db.now, q.lt, 0, 1);
  }

  lemma RouteLeaves(q: Setup, w: World, all: seq<Channel>, draw: nat -> real)
    requires q.Valid()
    ensures Next(q, w, RouteCall(QueryOf(all), draw, 0)).db
      == Route(w.db, q.config, QueryOf(all), w.db.now, q.lt, draw, 0).db
  {
    hide Route;
  }

  lemma CallsAreRoutable(q: Setup, w: World, all: seq<Channel>)
    requires Sound(q, w) && 0.0 <= q.config.explorationRate < 1.0 && DistinctIds(all)
    ensures Routable(w.db, q.config, QueryOf(all), w.db.now)
  {
    hide Tracks;
  }
}
