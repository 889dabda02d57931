/** What every routing decision keeps, on every path. */
module RoutingLaws {
  import opened Types
  import opened Keys
  import opened Redis
  import opened Window
  import opened Breaker
  import WindowStore
  import BreakerStore
  import opened Scoring
  import opened Selection
  import opened Routing

  /** The store after the refresh: each listed breaker whose write landed is evaluated, and nothing else changes. */
  lemma RefreshedReads(db: Db, config: RoutingConfig, ids: seq<string>, now: int, landed: string -> bool)
    requires GeometryOf(config).Valid() && BreakerStore.BreakersLast(db) && now >= 0
    ensures
      var after := Refreshed(db, config, ids, now, landed);
      && BreakerStore.BreakersLast(after) && OnlyBreakersDiffer(db, after)
      && (forall c :: BreakerStore.BreakerAt(after, c)
           == if c in ids && landed(c) then
                EvaluateBreaker(BreakerStore.BreakerAt(db, c), WindowStore.StatsIn(db, GeometryOf(config), c, now),
                  config, now)
              else BreakerStore.BreakerAt(db, c))
  {
    hide WindowStore.StatsIn, BreakerStore.ParseSnapshot, BreakerStore.BreakersLast;
    var current, next := ReadBreakers(db, ids), NextBreakers(db, config, ids, now);
    forall c | c in ids
      ensures BreakerStore.Storable(next[c]) && (!Changed(current[c], next[c]) ==> next[c] == current[c])
    {
      BreakerStore.UnknownStateReadsClosed(db.Fields(Breaker(c)));
    }
    WriteChangesReads(db, ids, current, next, landed);
  }

  /** The stores hold the same entry for the breaker of a channel. */
  ghost predicate SameEntry(a: Db, b: Db, c: string) {
    (Breaker(c) in a.data <==> Breaker(c) in b.data)
      && (Breaker(c) in a.data ==> a.data[Breaker(c)] == b.data[Breaker(c)])
  }

  lemma {:induction false} WritesSpare(db: Db, ids: seq<string>, current: map<string, BreakerSnapshot>,
      next: map<string, BreakerSnapshot>, landed: string -> bool, c: string)
    requires forall x :: x in ids ==> x in next
    requires c in ids && landed(c) ==> next[c] == SnapshotOf(current, c)
    ensures SameEntry(db, WriteChanges(db, ids, current, next, landed), c)
    decreases |ids|
  {
    hide BreakerStore.SnapshotFields;
    if ids != [] {
      var n := |ids| - 1;
      assert ids == ids[..n] + [ids[n]];
      WritesSpare(db, ids[..n], current, next, landed, c);
    }
  }

  /** A breaker that the evaluation leaves as it is, or whose write does not land, is not written at all. */
  lemma UnchangedIsNotWritten(db: Db, config: RoutingConfig, ids: seq<string>, now: int, landed: string -> bool,
      c: string)
    requires GeometryOf(config).Valid()
    requires c in ids && landed(c) ==> NextBreakers(db, config, ids, now)[c] == BreakerStore.BreakerAt(db, c)
    ensures SameEntry(db, Refreshed(db, config, ids, now, landed), c)
  {
    hide BreakerStore.BreakerAt, WindowStore.StatsIn, EvaluateBreaker;
    WritesSpare(db, ids, ReadBreakers(db, ids), NextBreakers(db, config, ids, now), landed, c);
  }

  /** How a candidate of the ranking follows from its channel and its refreshed breaker. */
  ghost predicate RowOf(cand: Candidate, channel: Channel, state: BreakerState) {
    && cand.channelId == channel.id
    && cand.breakerState == state
    && cand.eligible == (channel.enabled && state != OPEN)
    && (cand.ineligibleReason == Some(BreakerOpen) ==> state == OPEN)
    && cand.ineligibleReason != Some(ProbeInFlight)
  }

  lemma UnrankedRow(cand: Candidate, channel: Channel, inputs: Inputs, bounds: CostBounds)
    requires StandsFor(cand, channel, inputs, bounds)
    ensures RowOf(cand, channel, StateFor(inputs, channel.id))
  {
    hide ScoreChannel, StatsFor, StateFor;
  }

  lemma RankRows(db: Db, config: RoutingConfig, channels: seq<Channel>, now: int, lt: (string, string) -> bool)
    requires GeometryOf(config).Valid()
    ensures
      var cands, next := Rank(db, config, channels, now, lt), NextBreakers(db, config, IdsOf(channels), now);
      forall cand :: cand in cands ==>
        exists ch :: ch in channels && ch.id in next && RowOf(cand, ch, next[ch.id].state)
  {
    hide BuildCandidates, StandsFor, RowOf, CostBoundsOf, NextBreakers, ReadStats;
    var ids := IdsOf(channels);
    var inputs := Inputs(ReadStats(db, config, ids, now), NextBreakers(db, config, ids, now), config);
    CandidatesAreChannels(channels, inputs, lt);
    var cands := Rank(db, config, channels, now, lt);
    forall cand | cand in cands
      ensures exists ch :: ch in channels && ch.id in inputs.breakers && RowOf(cand, ch, inputs.breakers[ch.id].state) {
      var i :| 0 <= i < |cands| && cands[i] == cand;
      var j :| 0 <= j < |channels| && StandsFor(cands[i], channels[j], inputs, CostBoundsOf(channels));
      assert ids[j] in ids;
      UnrankedRow(cand, channels[j], inputs, CostBoundsOf(channels));
      assert RowOf(cand, channels[j], inputs.breakers[channels[j].id].state);
    }
  }

  /** Marking a probe in flight blocks one channel and leaves every other row alone. */
  lemma MarkedRows(cands: seq<Candidate>, id: string)
    ensures forall c :: c in MarkInFlight(cands, id) && c.eligible ==> c in cands && c.channelId != id
    ensures forall c :: c in MarkInFlight(cands, id) && c.ineligibleReason == Some(BreakerOpen) ==> c in cands
  {
    var marked := MarkInFlight(cands, id);
    forall c | c in marked && (c.eligible || c.ineligibleReason == Some(BreakerOpen)) ensures c in cands {
      var i :| 0 <= i < |marked| && marked[i] == c;
      assert cands[i] in cands;
    }
  }

  /** Whatever the draws and the slot, the choice is an eligible row of the ranking. */
  lemma ChoiceIsEligible(cands: seq<Candidate>, rate: real, held: bool, d1: real, d2: real, d3: real, d4: real)
    ensures
      var choice := Choose(cands, rate, held, d1, d2, d3, d4);
      && (choice.selection.Chosen? ==>
            choice.selection.strategy != Degraded
              && exists c :: c in cands && c.eligible && c.channelId == choice.selection.channelId)
      && (choice.selection.NoEligible? ==> choice.slot.None?)
      && (choice.slot.Some? ==> choice.selection.Chosen? && choice.slot.value == choice.selection.channelId && !held)
      && (forall c :: c in choice.candidates && c.ineligibleReason == Some(BreakerOpen) ==> c in cands)
  {
    hide Eligible, Pick;
    var first := Select(cands, rate, d1, d2);
    SelectionIsEligible(cands, rate, d1, d2);
    if WantsSlot(cands, first) && held {
      MarkedRows(cands, first.channelId);
      SelectionIsEligible(MarkInFlight(cands, first.channelId), rate, d3, d4);
    }
  }

  /**
    * Routing end to end. On every path, an informed decision returns a
    * configured and enabled channel that the caller can reach, and the refreshed
    * breaker of that channel is not open. Nor is the stored one, if its write landed.
    */
  lemma DecisionIsSafe(db: Db, config: RoutingConfig, query: Query, now: int, lt: (string, string) -> bool,
      draw: nat -> real, at: nat)
    requires GeometryOf(config).Valid() && BreakerStore.BreakersLast(db) && now >= 0
    requires query.metricsRead
    ensures
      var e := Route(db, config, query, now, lt, draw, at);
      var next := NextBreakers(db, config, IdsOf(Reachable(query.all, query.supported)), now);
      e.result.Decision? ==>
        && e.result.strategy != Degraded
        && e.result.channelId in next && next[e.result.channelId].state != OPEN
        && (query.landed(e.result.channelId) ==> BreakerStore.BreakerAt(e.db, e.result.channelId).state != OPEN)
        && exists ch :: ch in query.all && ch.id == e.result.channelId && ch.enabled && (query.supported.Some? ==>
          ch.id in query.supported.value)
  {
    hide Refreshed, Rank, NextBreakers, Select, Choose, DrawsUsed, Reachable, BreakerStore.ParseSnapshot;
    hide BreakerStore.BreakersLast, EvaluateBreaker, WindowStore.StatsIn;
    if Route(db, config, query, now, lt, draw, at).result.Decision? {
      var channels := Reachable(query.all, query.supported);
      var ids := IdsOf(channels);
      var cands, rate := Rank(db, config, channels, now, lt), config.explorationRate;
      var e := Route(db, config, query, now, lt, draw, at);
      var mid := Refreshed(db, config, ids, now, query.landed);
      var first := Select(cands, rate, draw(at), draw(at + 1));
      var used := DrawsUsed(cands, rate, draw(at));
      var held := first.Chosen? && mid.Live(Probe(first.channelId));
      ChoiceIsEligible(cands, rate, held, draw(at), draw(at + 1), draw(at + used), draw(at + used + 1));
      var c :| c in cands && c.eligible && c.channelId == e.result.channelId;
      RankRows(db, config, channels, now, lt);
      var next := NextBreakers(db, config, ids, now);
      var ch :| ch in channels && ch.id in next && RowOf(c, ch, next[ch.id].state);
      RefreshedReads(db, config, ids, now, query.landed);
      if query.landed(ch.id) {
        NextIsStored(db, config, ids, now, ch.id, query.landed);
      }
      SlotKeepsBreakers(mid, e);
    }
  }

  lemma NextIs(db: Db, config: RoutingConfig, ids: seq<string>, now: int, c: string)
    requires GeometryOf(config).Valid() && c in ids
    ensures NextBreakers(db, config, ids, now)[c]
         == EvaluateBreaker(BreakerStore.BreakerAt(db, c), WindowStore.StatsIn(db, GeometryOf(config), c, now),
           config, now)
  {
    hide WindowStore.StatsIn, EvaluateBreaker;
  }

  lemma NextIsStored(db: Db, config: RoutingConfig, ids: seq<string>, now: int, c: string, landed: string -> bool)
    requires GeometryOf(config).Valid() && BreakerStore.BreakersLast(db) && now >= 0 && c in ids && landed(c)
    ensures BreakerStore.BreakerAt(Refreshed(db, config, ids, now, landed), c) == NextBreakers(db, config, ids, now)[c]
  {
    hide Refreshed, EvaluateBreaker, WindowStore.StatsIn, BreakerStore.BreakersLast, BreakerStore.ParseSnapshot;
    RefreshedReads(db, config, ids, now, landed);
  }

  /** Taking a slot leaves every breaker alone. */
  lemma SlotKeepsBreakers(mid: Db, e: Effect)
    requires e.db == mid || exists c, ttl :: e.db == mid.SetNx(Probe(c), BreakerStore.SLOT_TEXT, ttl).0
    ensures forall c :: BreakerStore.BreakerAt(e.db, c) == BreakerStore.BreakerAt(mid, c)
  {
    hide BreakerStore.ParseSnapshot;
    forall c ensures BreakerStore.BreakerAt(e.db, c) == BreakerStore.BreakerAt(mid, c) {
      assert e.db.Fields(Breaker(c)) == mid.Fields(Breaker(c));
    }
  }

  /**
    * A row that a decision reports as blocked by its breaker is a row of the ranking, and
    * the call wrote at most a slot besides the refresh.
    */
  lemma BlockedIsRanked(db: Db, config: RoutingConfig, query: Query, now: int, lt: (string, string) -> bool,
      draw: nat -> real, at: nat, cand: Candidate)
    requires GeometryOf(config).Valid() && query.metricsRead && cand.ineligibleReason == Some(BreakerOpen)
    ensures
      var e := Route(db, config, query, now, lt, draw, at);
      var channels := Reachable(query.all, query.supported);
      var mid := Refreshed(db, config, IdsOf(channels), now, query.landed);
      e.result.Decision? && cand in e.result.candidates ==>
        && cand in Rank(db, config, channels, now, lt)
        && (e.db == mid || exists c, ttl :: e.db == mid.SetNx(Probe(c), BreakerStore.SLOT_TEXT, ttl).0)
  {
    hide Refreshed, Rank, Select, Choose, DrawsUsed, Reachable;
    var channels := Reachable(query.all, query.supported);
    var cands, rate := Rank(db, config, channels, now, lt), config.explorationRate;
    var mid := Refreshed(db, config, IdsOf(channels), now, query.landed);
    var first := Select(cands, rate, draw(at), draw(at + 1));
    var used := DrawsUsed(cands, rate, draw(at));
    var held := first.Chosen? && mid.Live(Probe(first.channelId));
    ChoiceIsEligible(cands, rate, held, draw(at), draw(at + 1), draw(at + used), draw(at + used + 1));
  }

  /** A channel that a decision reports as blocked by its breaker has been open for less than `openMs`. */
  lemma BlockIsYoung(db: Db, config: RoutingConfig, query: Query, now: int, lt: (string, string) -> bool,
      draw: nat -> real, at: nat, cand: Candidate)
    requires GeometryOf(config).Valid() && BreakerStore.BreakersLast(db) && now >= 0 && config.breaker.openMs > 0
    requires query.metricsRead && cand.ineligibleReason == Some(BreakerOpen)
    ensures
      var e := Route(db, config, query, now, lt, draw, at);
      var next := NextBreakers(db, config, IdsOf(Reachable(query.all, query.supported)), now);
      e.result.Decision? && cand in e.result.candidates ==>
        && cand.channelId in next && next[cand.channelId].state == OPEN
        && now - next[cand.channelId].openedAt < config.breaker.openMs
        && (query.landed(cand.channelId) ==> BreakerStore.BreakerAt(e.db, cand.channelId) == next[cand.channelId])
  {
    hide Refreshed, Rank, NextBreakers, Route, Reachable, BreakerStore.BreakerAt;
    hide BreakerStore.BreakersLast, EvaluateBreaker, WindowStore.StatsIn;
    var e := Route(db, config, query, now, lt, draw, at);
    if e.result.Decision? && cand in e.result.candidates {
      var channels := Reachable(query.all, query.supported);
      var ids := IdsOf(channels);
      var mid := Refreshed(db, config, ids, now, query.landed);
      BlockedIsRanked(db, config, query, now, lt, draw, at, cand);
      RankRows(db, config, channels, now, lt);
      var next := NextBreakers(db, config, ids, now);
      var ch :| ch in channels && ch.id in next && RowOf(cand, ch, next[ch.id].state);
      if query.landed(ch.id) {
        NextIsStored(db, config, ids, now, ch.id, query.landed);
      }
      SlotKeepsBreakers(mid, e);
      NextIs(db, config, ids, now, ch.id);
      EvaluateMoves(BreakerStore.BreakerAt(db, ch.id), WindowStore.StatsIn(db, GeometryOf(config), ch.id, now),
        config, now);
    }
  }

  /** Without metrics nothing in the store matters or changes, and the first enabled channel wins. */
  lemma DegradedIgnoresStore(db: Db, other: Db, config: RoutingConfig, query: Query, now: int,
      lt: (string, string) -> bool, draw: nat -> real, at: nat)
    requires GeometryOf(config).Valid() && !query.metricsRead
    ensures
      var e := Route(db, config, query, now, lt, draw, at);
      && e.db == db && e.slot.None? && e.drawn == 0
      && e.result == Route(other, config, query, now, lt, draw, at).result
      && (e.result.NotRouted? <==> forall ch :: ch in Reachable(query.all, query.supported) ==> !ch.enabled)
      && (e.result.Decision? ==>
            e.result.strategy == Degraded
            && exists i ::
              FirstEnabled(Reachable(query.all, query.supported), i) && Reachable(query.all, query.supported)[i].id
                == e.result.channelId)
  {
    hide Reachable;
    var channels := Reachable(query.all, query.supported);
    FirstEligible(channels);
  }

  ghost predicate FirstEnabled(channels: seq<Channel>, i: int) {
    0 <= i < |channels| && channels[i].enabled && forall j :: 0 <= j < i ==> !channels[j].enabled
  }

  lemma FirstEligible(channels: seq<Channel>)
    ensures var es := Eligible(DegradedRows(channels));
      && (es == [] <==> forall i :: 0 <= i < |channels| ==> !channels[i].enabled)
      && (es != [] ==> exists i :: FirstEnabled(channels, i) && channels[i].id == es[0].channelId)
  {
    var rows := DegradedRows(channels);
    var es := Eligible(rows);
    forall i | 0 <= i < |channels| && channels[i].enabled ensures rows[i] in es {
      assert rows[i] in rows;
    }
    if es != [] {
      var i := FirstOf(rows);
      assert FirstEnabled(channels, i) by {
        forall j | 0 <= j < i ensures !channels[j].enabled { assert !rows[j].eligible; }
      }
    }
  }

  /** The head of the eligible rows is the first eligible row. */
  lemma {:induction false} FirstOf(rows: seq<Candidate>) returns (i: nat)
    requires Eligible(rows) != []
    ensures i < |rows| && rows[i].eligible && rows[i] == Eligible(rows)[0]
    ensures forall j :: 0 <= j < i ==> !rows[j].eligible
  {
    var n := |rows| - 1;
    if Eligible(rows[..n]) == [] {
      forall j | 0 <= j < n ensures !rows[j].eligible {
        assert rows[..n][j] in rows[..n];
        assert rows[..n][j] in Eligible(rows[..n]) <==> rows[..n][j].eligible;
      }
      i := n;
    } else {
      i := FirstOf(rows[..n]);
    }
  }
}
