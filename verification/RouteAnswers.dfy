/**
  * What a routing call answers: the channels it considers, the degraded decision, and
  * everything an informed call returns and stores.
  */
module RouteAnswers {
  import opened Types
  import opened Keys
  import opened Redis
  import opened Window
  import BreakerStore
  import opened Selection
  import opened Routing
  import opened RoutingLaws
  import opened ProbeLaws

  // ---------- The channels in reach ----------

  /** The caller can reach the channel. */
  predicate InReach(channel: Channel, supported: Option<seq<string>>) {
    supported.None? || channel.id in supported.value
  }

  /** How many channels of a table are in reach. */
  function ReachCount(all: seq<Channel>, supported: Option<seq<string>>): nat {
    if all == [] then 0
    else
      var n := |all| - 1;
      ReachCount(all[..n], supported) + if InReach(all[n], supported) then 1 else 0
  }

  lemma {:induction false} ReachSize(all: seq<Channel>, supported: Option<seq<string>>)
    ensures |Reachable(all, supported)| == ReachCount(all, supported)
  {
    if all != [] {
      ReachSize(all[..|all| - 1], supported);
    }
  }

  /** The channels in reach keep the order of the table: each stands after exactly those in reach before it. */
  lemma {:induction false} ReachableInOrder(all: seq<Channel>, supported: Option<seq<string>>, i: nat)
    requires i < |all| && InReach(all[i], supported)
    ensures
      var r, k := Reachable(all, supported), ReachCount(all[..i], supported);
      |r| == ReachCount(all, supported) && k < |r| && r[k] == all[i]
  {
    var n := |all| - 1;
    ReachSize(all, supported);
    ReachSize(all[..n], supported);
    if i < n {
      ReachableInOrder(all[..n], supported, i);
      assert all[..n][..i] == all[..i];
    }
  }

  /** The place of the `k`-th channel in reach in the table. */
  lemma {:induction false} ReachableFrom(all: seq<Channel>, supported: Option<seq<string>>, k: nat) returns (i: nat)
    requires k < |Reachable(all, supported)|
    ensures i < |all| && InReach(all[i], supported) && ReachCount(all[..i], supported) == k
    ensures Reachable(all, supported)[k] == all[i]
  {
    var n := |all| - 1;
    ReachSize(all[..n], supported);
    if k < |Reachable(all[..n], supported)| {
      i := ReachableFrom(all[..n], supported, k);
      assert all[..n][..i] == all[..i];
    } else {
      i := n;
    }
  }

  lemma {:induction false} ReachCountGrows(all: seq<Channel>, supported: Option<seq<string>>, i: nat, j: nat)
    requires i <= j <= |all|
    ensures ReachCount(all[..i], supported) <= ReachCount(all[..j], supported)
    decreases j
  {
    if i < j {
      ReachCountGrows(all, supported, i, j - 1);
      assert all[..j][..j - 1] == all[..j - 1];
    }
  }

  lemma ReachCountAfter(all: seq<Channel>, supported: Option<seq<string>>, i: nat, j: nat)
    requires i < j <= |all| && InReach(all[i], supported)
    ensures ReachCount(all[..i], supported) < ReachCount(all[..j], supported)
  {
    assert all[..i + 1][..i] == all[..i];
    ReachCountGrows(all, supported, i + 1, j);
  }

  // ---------- The degraded decision ----------

  /** The first channel of the table that is enabled and in reach. */
  ghost predicate FirstUsable(all: seq<Channel>, supported: Option<seq<string>>, i: int) {
    && 0 <= i < |all| && all[i].enabled && InReach(all[i], supported)
    && forall j :: 0 <= j < i ==> !(all[j].enabled && InReach(all[j], supported))
  }

  lemma FirstOfTable(all: seq<Channel>, supported: Option<seq<string>>, k: nat) returns (i: nat)
    requires FirstEnabled(Reachable(all, supported), k)
    ensures FirstUsable(all, supported, i) && all[i] == Reachable(all, supported)[k]
  {
    hide Reachable, ReachCount;
    i := ReachableFrom(all, supported, k);
    forall j | 0 <= j < i && InReach(all[j], supported) ensures !all[j].enabled {
      ReachableInOrder(all, supported, j);
      ReachCountAfter(all, supported, j, i);
    }
  }

  /** A row of the degraded answer: no numbers, a closed breaker, and blocked only when its channel is disabled. */
  predicate DegradedFits(row: Candidate, channel: Channel, rank: int) {
    && row.channelId == channel.id && row.rank == rank && row.breakerState == CLOSED
    && row.score == 0.0 && row.successRate == 0.0 && row.costScore == 0.0 && row.p95Ms == None
    && row.samples == 0 && row.coldStart
    && row.eligible == channel.enabled
    && row.ineligibleReason == if channel.enabled then None else Some(ChannelDisabled)
  }

  /** Each channel in reach has its row, in the order of the table. */
  ghost predicate RowsOfTable(all: seq<Channel>, supported: Option<seq<string>>, rows: seq<Candidate>) {
    && |rows| == ReachCount(all, supported)
    && forall j :: 0 <= j < |all| && InReach(all[j], supported) ==>
         var k := ReachCount(all[..j], supported);
         k < |rows| && DegradedFits(rows[k], all[j], k + 1)
  }

  /**
    * The degraded decision, over the channel table itself: the first channel that is
    * enabled and in reach wins, every channel in reach has its row in the order of
    * the table, and the call fails exactly when no such channel is enabled.
    */
  lemma DegradedAnswers(db: Db, config: RoutingConfig, query: Query, now: int, lt: (string, string) -> bool,
      draw: nat -> real, at: nat)
    requires GeometryOf(config).Valid() && !query.metricsRead
    ensures
      var e := Route(db, config, query, now, lt, draw, at);
      var all, supported := query.all, query.supported;
      && e.db == db && e.slot.None? && e.drawn == 0
      && (e.result.Decision? <==> exists i :: FirstUsable(all, supported, i))
      && (e.result.Decision? ==>
            && e.result.strategy == Degraded && RowsOfTable(all, supported, e.result.candidates)
            && exists i :: FirstUsable(all, supported, i) && e.result.channelId == all[i].id)
      && (e.result.NotRouted? ==>
            e.result.failure
            == if all == [] then NoneConfigured else if ReachCount(all, supported) == 0 then NoneReachable
              else AllDisabled)
  {
    hide Reachable, ReachCount, FirstUsable, RowsOfTable, Degrade;
    ReachSize(query.all, query.supported);
    NothingInTable(query.supported);
    if Reachable(query.all, query.supported) == [] {
      NoneUsable(query.all, query.supported);
    } else {
      DegradeIs(query.all, query.supported);
    }
  }

  lemma DegradeIs(all: seq<Channel>, supported: Option<seq<string>>)
    ensures
      var d := Degrade(Reachable(all, supported));
      && (d.Decision? ==>
            && d.strategy == Degraded && RowsOfTable(all, supported, d.candidates)
            && exists i :: FirstUsable(all, supported, i) && d.channelId == all[i].id)
      && (d.NotRouted? ==> d.failure == AllDisabled && forall i :: !FirstUsable(all, supported, i))
  {
    hide Reachable, ReachCount, Eligible, FirstUsable, RowsOfTable;
    var channels := Reachable(all, supported);
    FirstEligible(channels);
    if Degrade(channels).Decision? {
      hide DegradedRows;
      var k :| FirstEnabled(channels, k) && channels[k].id == Degrade(channels).channelId;
      var i := FirstOfTable(all, supported, k);
      RowsFit(all, supported);
    } else {
      NoneUsable(all, supported);
    }
  }

  lemma NothingInTable(supported: Option<seq<string>>)
    ensures Reachable([], supported) == []
  {
  }

  lemma RowsFit(all: seq<Channel>, supported: Option<seq<string>>)
    ensures RowsOfTable(all, supported, DegradedRows(Reachable(all, supported)))
  {
    hide Reachable, ReachCount;
    var rows := DegradedRows(Reachable(all, supported));
    ReachSize(all, supported);
    forall j | 0 <= j < |all| && InReach(all[j], supported)
      ensures var k := ReachCount(all[..j], supported); k < |rows| && DegradedFits(rows[k], all[j], k + 1)
    {
      ReachableInOrder(all, supported, j);
    }
  }

  lemma NoneUsable(all: seq<Channel>, supported: Option<seq<string>>)
    requires forall k :: 0 <= k < |Reachable(all, supported)| ==> !Reachable(all, supported)[k].enabled
    ensures forall i :: !FirstUsable(all, supported, i)
  {
    hide Reachable, ReachCount;
    forall i ensures !FirstUsable(all, supported, i) {
      if FirstUsable(all, supported, i) {
        ReachableInOrder(all, supported, i);
      }
    }
  }

  // ---------- The informed answer ----------

  /** The list after a denied slot: only the row of that channel changed, and it says why it is blocked. */
  ghost predicate MarkedFits(ranked: seq<Candidate>, id: string, shown: seq<Candidate>) {
    && |shown| == |ranked|
    && forall i :: 0 <= i < |ranked| ==>
         shown[i] == if ranked[i].channelId
           == id then ranked[i].(eligible := false, ineligibleReason := Some(ProbeInFlight))
                     else ranked[i]
  }

  /**
    * The store after the call, against the refreshed store: the slot that was taken lasts
    * ten seconds, and nothing else changed.
    */
  ghost predicate SlotFits(mid: Db, slot: Option<string>, after: Db) {
    match slot
    case None => after == mid
    case Some(c) =>
      && !mid.Live(Probe(c)) && after.now == mid.now
      && Probe(c) in after.data && after.data[Probe(c)].expireAt == Some(mid.now + 10000)
      && forall k :: k != Probe(c) ==>
        (k in after.data <==> k in mid.data) && (k in mid.data ==> after.data[k] == mid.data[k])
  }

  /** Each candidate with its own reason, in order. */
  ghost predicate ReasonsFit(cands: seq<Candidate>, reasons: seq<(string, Option<Reason>)>) {
    && |reasons| == |cands|
    && forall i :: 0 <= i < |cands| ==> reasons[i] == (cands[i].channelId, cands[i].ineligibleReason)
  }

  /** The first selection found a half-open channel whose slot is held. */
  predicate FirstDenied(db: Db, cands: seq<Candidate>, rate: real, d1: real, d2: real)
  {
    var first := Select(cands, rate, d1, d2);
    WantsSlot(cands, first) && db.Live(Probe(first.channelId))
  }

  /** The result of one selection: a decision that shows the list, or a refusal with a reason for each of its rows. */
  ghost predicate ResultFits(shown: seq<Candidate>, selection: SelectResult, result: RouteResult) {
    if selection.Chosen? then result == Decision(selection.channelId, selection.strategy, shown)
    else result.NotRouted? && result.failure.NothingEligible? && ReasonsFit(shown, result.failure.reasons)
  }

  /**
    * After a denied slot: the marked list is shown, the second selection uses the draws
    * after the first, and no slot is held.
    */
  ghost predicate DeniedFits(ranked: seq<Candidate>, rate: real, draw: nat -> real, at: nat, id: string, e: Effect) {
    var used := DrawsUsed(ranked, rate, draw(at));
    exists shown ::
      && MarkedFits(ranked, id, shown)
      && ResultFits(shown, Select(shown, rate, draw(at + used), draw(at + used + 1)), e.result)
      && e.slot.None? && e.drawn == used + DrawsUsed(shown, rate, draw(at + used))
  }

  /** What one call shows, draws, stores and gives as its reasons, against the refreshed store and the ranking. */
  ghost predicate AnswerFits(mid: Db, ranked: seq<Candidate>, rate: real, draw: nat -> real, at: nat, e: Effect) {
    var first := Select(ranked, rate, draw(at), draw(at + 1));
    && SlotFits(mid, e.slot, e.db)
    && (if e.result == NotRouted(StoreFailed) then
          WantsSlot(ranked, first) && e.slot.None? && e.drawn == DrawsUsed(ranked, rate, draw(at))
        else if FirstDenied(mid, ranked, rate, draw(at), draw(at + 1)) then
          DeniedFits(ranked, rate, draw, at, first.channelId, e)
        else
          && ResultFits(ranked, first, e.result) && e.drawn == DrawsUsed(ranked, rate, draw(at))
          && e.slot == if WantsSlot(ranked, first) then Some(first.channelId) else None)
  }

  lemma DeniedAnswer(mid: Db, ranked: seq<Candidate>, rate: real, draw: nat -> real, at: nat)
    requires FirstDenied(mid, ranked, rate, draw(at), draw(at + 1))
    ensures
      var e := Finish(mid, ranked, rate, draw, at, true);
      var first := Select(ranked, rate, draw(at), draw(at + 1));
      e.db == mid && DeniedFits(ranked, rate, draw, at, first.channelId, e) && e.result != NotRouted(StoreFailed)
  {
    hide Select, DrawsUsed, StateOf, MarkInFlight;
    var first := Select(ranked, rate, draw(at), draw(at + 1));
    var used := DrawsUsed(ranked, rate, draw(at));
    var marked := MarkInFlight(ranked, first.channelId);
    MarksOne(ranked, first.channelId);
    StrategySays(marked, rate, draw(at + used), draw(at + used + 1));
    hide MarkedFits;
    assert ResultFits(marked, Select(marked, rate, draw(at + used), draw(at + used + 1)),
                      Finish(mid, ranked, rate, draw, at, true).result);
  }

  lemma AnswerOf(mid: Db, ranked: seq<Candidate>, rate: real, draw: nat -> real, at: nat, slotOk: bool)
    ensures AnswerFits(mid, ranked, rate, draw, at, Finish(mid, ranked, rate, draw, at, slotOk))
  {
    hide Select, DrawsUsed, StateOf, MarkInFlight, DeniedFits;
    StrategySays(ranked, rate, draw(at), draw(at + 1));
    if FirstDenied(mid, ranked, rate, draw(at), draw(at + 1)) && slotOk {
      DeniedAnswer(mid, ranked, rate, draw, at);
    }
  }

  /**
    * The informed answer. It shows the ranking, with the one blocked row marked after
    * a denied slot; its choice comes from selecting in the list that it shows, with
    * draws that were not used before; the store holds the refreshed breakers and the
    * slot taken; and a refusal says why.
    */
  lemma InformedAnswers(db: Db, config: RoutingConfig, query: Query, now: int, lt: (string, string) -> bool,
      draw: nat -> real, at: nat)
    requires Routable(db, config, query, now) && Reachable(query.all, query.supported) != []
    ensures
      var mid := Refreshed(db, config, IdsOf(Reachable(query.all, query.supported)), now, query.landed);
      && OnlyBreakersDiffer(db, mid)
      && AnswerFits(mid, RankOf(db, config, query, now, lt), config.explorationRate, draw, at,
                    Route(db, config, query, now, lt, draw, at))
  {
    hide Rank, Refreshed, Reachable, BreakerStore.BreakersLast, BreakerStore.ParseSnapshot, AnswerFits, Finish;
    var ids := IdsOf(Reachable(query.all, query.supported));
    RefreshedReads(db, config, ids, now, query.landed);
    AnswerOf(Refreshed(db, config, ids, now, query.landed), RankOf(db, config, query, now, lt), config.explorationRate,
             draw, at, query.slotOk);
  }

  lemma MarksOne(ranked: seq<Candidate>, id: string)
    ensures MarkedFits(ranked, id, MarkInFlight(ranked, id))
  {
  }
}
