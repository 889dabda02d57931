/** The routing decision: read the metrics, move the breakers, rank, select, and take a probe slot. */
module Routing {
  import opened Types
  import opened Keys
  import opened Redis
  import opened Window
  import WindowStore
  import opened Breaker
  import BreakerStore
  import opened Scoring
  import opened Selection

  const PROBE_SLOT_TTL_MS := 10000

  /** `StoreFailed` is an error of the store that the call passes on. */
  datatype Failure =
    | NoneConfigured
    | NoneReachable
    | NothingEligible(reasons: seq<(string, Option<Reason>)>)
    | AllDisabled
    | StoreFailed

  datatype RouteResult =
    | Decision(channelId: string, strategy: Strategy, candidates: seq<Candidate>)
    | NotRouted(failure: Failure)

  /** Keeps what the caller can reach. No list means no limit. */
  function Reachable(all: seq<Channel>, supported: Option<seq<string>>): (channels: seq<Channel>)
    ensures forall c :: c in channels <==> c in all && (supported.Some? ==> c.id in supported.value)
  {
    if all == [] then []
    else
      var n := |all| - 1;
      Reachable(all[..n], supported) + if supported.None? || all[n].id in supported.value then [all[n]] else []
  }

  lemma {:induction false} ReachableDistinct(all: seq<Channel>, supported: Option<seq<string>>)
    requires DistinctIds(all)
    ensures DistinctIds(Reachable(all, supported))
  {
    if all != [] {
      var n := |all| - 1;
      ReachableDistinct(all[..n], supported);
      var before := Reachable(all[..n], supported);
      forall i | 0 <= i < |before| ensures before[i].id != all[n].id {
        assert before[i] in before;
        var k :| 0 <= k < n && all[..n][k] == before[i];
      }
    }
  }

  function IdsOf(channels: seq<Channel>): (ids: seq<string>)
    ensures |ids| == |channels| && forall i :: 0 <= i < |ids| ==> ids[i] == channels[i].id
  {
    seq(|channels|, i requires 0 <= i < |channels| => channels[i].id)
  }

  /** A channel without a snapshot is closed. */
  function SnapshotOf(current: map<string, BreakerSnapshot>, id: string): BreakerSnapshot {
    if id in current then current[id] else CLOSED_BREAKER
  }

  /** A channel without window numbers has none. */
  function NumbersOf(stats: map<string, ChannelStats>, id: string): ChannelStats {
    if id in stats then stats[id] else EmptyStats(id)
  }

  /** The breakers after an evaluation with the window numbers. */
  function Evaluated(ids: seq<string>, current: map<string, BreakerSnapshot>, stats: map<string, ChannelStats>,
      config: RoutingConfig, now: int)
    : (next: map<string, BreakerSnapshot>)
    ensures forall c :: c in next <==> c in ids
  {
    map c | c in ids :: EvaluateBreaker(SnapshotOf(current, c), NumbersOf(stats, c), config, now)
  }

  predicate Changed(before: BreakerSnapshot, after: BreakerSnapshot) {
    after.state != before.state || after.openedAt != before.openedAt
  }

  /**
    * The store after the changed breakers were written, in the order of the list. A write
    * that does not land is dropped.
    */
  function WriteChanges(db: Db, ids: seq<string>, current: map<string, BreakerSnapshot>,
      next: map<string, BreakerSnapshot>,
                        landed: string -> bool): Db
    requires forall c :: c in ids ==> c in next
  {
    if ids == [] then db
    else
      var n := |ids| - 1;
      var before := WriteChanges(db, ids[..n], current, next, landed);
      if Changed(SnapshotOf(current, ids[n]), next[ids[n]]) && landed(ids[n]) then
        BreakerStore.Written(before, ids[n], next[ids[n]])
      else before
  }

  /** Both stores agree on every key that is not a breaker. */
  ghost predicate OnlyBreakersDiffer(a: Db, b: Db) {
    a.now == b.now && forall k: Key :: !k.Breaker? ==>
      (k in a.data <==> k in b.data) && (k in a.data ==> a.data[k] == b.data[k])
  }

  lemma {:induction false} WriteChangesReads(db: Db, ids: seq<string>, current: map<string, BreakerSnapshot>,
                                             next: map<string, BreakerSnapshot>, landed: string -> bool)
    requires BreakerStore.BreakersLast(db)
    requires forall c :: c in ids ==>
      c in current && c in next && current[c] == BreakerStore.BreakerAt(db, c) && BreakerStore.Storable(next[c])
    requires forall c :: c in ids && !Changed(current[c], next[c]) ==> next[c] == current[c]
    ensures
      var after := WriteChanges(db, ids, current, next, landed);
      && BreakerStore.BreakersLast(after) && OnlyBreakersDiffer(db, after)
      && (forall c ::
        BreakerStore.BreakerAt(after, c) == if c in ids && landed(c) then next[c] else BreakerStore.BreakerAt(db, c))
    decreases |ids|
  {
    hide BreakerStore.BreakerAt, BreakerStore.BreakersLast, BreakerStore.Written, Changed;
    if ids != [] {
      var n := |ids| - 1;
      assert ids == ids[..n] + [ids[n]];
      WriteChangesReads(db, ids[..n], current, next, landed);
      var before := WriteChanges(db, ids[..n], current, next, landed);
      if Changed(current[ids[n]], next[ids[n]]) && landed(ids[n]) {
        BreakerStore.WriteThenRead(before, ids[n], next[ids[n]]);
      }
    }
  }

  function MarkOne(c: Candidate, channelId: string): Candidate {
    if c.channelId == channelId then c.(eligible := false, ineligibleReason := Some(ProbeInFlight)) else c
  }

  function MarkInFlight(cands: seq<Candidate>, channelId: string): (marked: seq<Candidate>)
    ensures |marked| == |cands|
  {
    seq(|cands|, i requires 0 <= i < |cands| => MarkOne(cands[i], channelId))
  }

  function StateOf(cands: seq<Candidate>, id: string): BreakerState {
    if cands == [] then CLOSED else if cands[0].channelId == id then cands[0].breakerState else StateOf(cands[1..], id)
  }

  /** What one call decides: the final candidates, the selection, and the slot that it took. */
  datatype Choice = Choice(candidates: seq<Candidate>, selection: SelectResult, slot: Option<string>)

  predicate WantsSlot(cands: seq<Candidate>, first: SelectResult) {
    first.Chosen? && StateOf(cands, first.channelId) == HALF_OPEN
  }

  /** Select, ask for the slot of a half-open choice, and select again when the slot is held. */
  function Choose(cands: seq<Candidate>, rate: real, held: bool, d1: real, d2: real, d3: real, d4: real): Choice {
    var first := Select(cands, rate, d1, d2);
    if !WantsSlot(cands, first) then Choice(cands, first, None)
    else if !held then Choice(cands, first, Some(first.channelId))
    else
      var marked := MarkInFlight(cands, first.channelId);
      Choice(marked, Select(marked, rate, d3, d4), None)
  }

  /** Everything that one call of `route` does. */
  datatype Effect = Effect(db: Db, drawn: nat, result: RouteResult, slot: Option<string>)

  /**
    * What one call is given, and how the store answers it: whether the metrics
    * arrive, which breaker writes land, and whether the request for a slot is answered.
    */
  datatype Query = Query(all: seq<Channel>, supported: Option<seq<string>>, metricsRead: bool, landed: string -> bool,
    slotOk: bool)

  function DegradedRow(channel: Channel, index: nat): Candidate {
    Candidate(channel.id, index + 1, 0.0, 0.0, None, 0.0, CLOSED, 0, true, channel.enabled,
              if channel.enabled then None else Some(ChannelDisabled))
  }

  function DegradedRows(channels: seq<Channel>): (rows: seq<Candidate>)
    ensures |rows| == |channels|
    ensures forall i :: 0 <= i < |rows| ==> rows[i] == DegradedRow(channels[i], i)
  {
    seq(|channels|, i requires 0 <= i < |channels| => DegradedRow(channels[i], i))
  }

  function Degrade(channels: seq<Channel>): RouteResult {
    var rows := DegradedRows(channels);
    var enabled := Eligible(rows);
    if enabled == [] then NotRouted(AllDisabled) else Decision(enabled[0].channelId, Degraded, rows)
  }

  function ReadStats(db: Db, config: RoutingConfig, ids: seq<string>, now: int): (stats: map<string, ChannelStats>)
    requires GeometryOf(config).Valid()
    ensures forall c :: c in stats <==> c in ids
  {
    map c | c in ids :: WindowStore.StatsIn(db, GeometryOf(config), c, now)
  }

  function ReadBreakers(db: Db, ids: seq<string>): (breakers: map<string, BreakerSnapshot>)
    ensures forall c :: c in breakers <==> c in ids
  {
    map c | c in ids :: BreakerStore.BreakerAt(db, c)
  }

  function NextBreakers(db: Db, config: RoutingConfig, ids: seq<string>, now: int): (next: map<string, BreakerSnapshot>)
    requires GeometryOf(config).Valid()
    ensures forall c :: c in next <==> c in ids
  {
    Evaluated(ids, ReadBreakers(db, ids), ReadStats(db, config, ids, now), config, now)
  }

  function Rank(db: Db, config: RoutingConfig, channels: seq<Channel>, now: int,
      lt: (string, string) -> bool): seq<Candidate>
    requires GeometryOf(config).Valid()
  {
    var ids := IdsOf(channels);
    BuildCandidates(channels, Inputs(ReadStats(db, config, ids, now), NextBreakers(db, config, ids, now), config), lt)
  }

  function Refreshed(db: Db, config: RoutingConfig, ids: seq<string>, now: int, landed: string -> bool): Db
    requires GeometryOf(config).Valid()
  {
    WriteChanges(db, ids, ReadBreakers(db, ids), NextBreakers(db, config, ids, now), landed)
  }

  function Conclude(db: Db, drawn: nat, choice: Choice): Effect {
    match choice.selection
    case NoEligible(reasons) => Effect(db, drawn, NotRouted(NothingEligible(reasons)), choice.slot)
    case Chosen(id, strategy) => Effect(db, drawn, Decision(id, strategy, choice.candidates), choice.slot)
  }

  /** The part of the call after the ranking. */
  function Finish(db: Db, cands: seq<Candidate>, rate: real, draw: nat -> real, at: nat, slotOk: bool): Effect {
    var first := Select(cands, rate, draw(at), draw(at + 1));
    var used := DrawsUsed(cands, rate, draw(at));
    if WantsSlot(cands, first) && !slotOk then Effect(db, used, NotRouted(StoreFailed), None)
    else FinishAnswered(db, cands, rate, draw, at)
  }

  function FinishAnswered(db: Db, cands: seq<Candidate>, rate: real, draw: nat -> real, at: nat): Effect {
    var first := Select(cands, rate, draw(at), draw(at + 1));
    var used := DrawsUsed(cands, rate, draw(at));
    var held := first.Chosen? && db.Live(Probe(first.channelId));
    var choice := Choose(cands, rate, held, draw(at), draw(at + 1), draw(at + used), draw(at + used + 1));
    var more := if WantsSlot(cands, first) && held then DrawsUsed(choice.candidates, rate, draw(at + used)) else 0;
    var after :=
      if choice.slot.Some? then db.SetNx(Probe(choice.slot.value), BreakerStore.SLOT_TEXT, PROBE_SLOT_TTL_MS).0 else db;
    Conclude(after, used + more, choice)
  }

  function Route(db: Db, config: RoutingConfig, query: Query, now: int, lt: (string, string) -> bool,
      draw: nat -> real, at: nat): Effect
    requires GeometryOf(config).Valid()
  {
    var channels := Reachable(query.all, query.supported);
    if channels == [] then
      Effect(db, 0, NotRouted(if query.all == [] then NoneConfigured else NoneReachable), None)
    else if !query.metricsRead then Effect(db, 0, Degrade(channels), None)
    else
      Finish(Refreshed(db, config, IdsOf(channels), now, query.landed), Rank(db, config, channels, now, lt),
             config.explorationRate, draw, at, query.slotOk)
  }

  class RoutingService {
    const server: Server
    const windows: WindowStore.Store
    const breakers: BreakerStore.Store
    const rng: Rng
    const config: RoutingConfig

    ghost predicate Wired() {
      windows.server == server && breakers.server == server && windows.g == GeometryOf(config) && windows.g.Valid()
    }

    constructor (server: Server, windows: WindowStore.Store, breakers: BreakerStore.Store, rng: Rng,
        config: RoutingConfig)
      requires windows.server == server && breakers.server == server
      requires windows.g == GeometryOf(config) && windows.g.Valid()
      ensures Wired() && this.server == server && this.rng == rng && this.config == config
    {
      this.server, this.windows, this.breakers, this.rng, this.config := server, windows, breakers, rng, config;
    }

    /** Moves each breaker with the fresh window numbers before the decision. */
    method RefreshBreakers(ids: seq<string>, current: map<string, BreakerSnapshot>, stats: map<string, ChannelStats>,
        now: int,
                           landed: string -> bool)
      returns (next: map<string, BreakerSnapshot>)
      requires Wired()
      modifies server
      ensures next == Evaluated(ids, current, stats, config, now)
      ensures server.db == WriteChanges(old(server.db), ids, current, next, landed)
    {
      hide EvaluateBreaker, BreakerStore.Written, Changed;
      next := map[];
      ghost var all := Evaluated(ids, current, stats, config, now);
      for i := 0 to |ids|
        invariant forall c :: c in next <==> c in ids[..i]
        invariant forall c :: c in next ==>
          next[c] == EvaluateBreaker(SnapshotOf(current, c), NumbersOf(stats, c), config, now)
        invariant server.db == WriteChanges(old(server.db), ids[..i], current, all, landed)
      {
        var id := ids[i];
        var before := SnapshotOf(current, id);
        var after := EvaluateBreaker(before, NumbersOf(stats, id), config, now);
        next := next[id := after];
        // A lost write costs one cycle, and the decision still stands.
        if Changed(before, after) && landed(id) {
          breakers.Write(id, after);
        }
        assert ids[..i + 1][..i] == ids[..i];
        assert ids[..i + 1] == ids[..i] + [id];
      }
      assert ids[..|ids|] == ids;
      assert next == all;
    }

    /** Select, ask for the slot of a half-open choice, and select again when the slot is held. */
    method FinishCall(ranked: seq<Candidate>, slotOk: bool) returns (result: RouteResult, ghost slot: Option<string>)
      requires Wired()
      modifies server, rng
      ensures rng.index >= old(rng.index)
      ensures Effect(server.db, rng.index - old(rng.index), result, slot)
           == Finish(old(server.db), ranked, config.explorationRate, rng.stream, old(rng.index), slotOk)
    {
      hide Select, DrawsUsed, StateOf, MarkInFlight;
      var candidates := ranked;
      slot := None;
      var selection := SelectChannel(candidates, config.explorationRate, rng);
      if selection.NoEligible? {
        return NotRouted(NothingEligible(selection.reasons)), None;
      }
      if StateOf(candidates, selection.channelId) == HALF_OPEN {
        if !slotOk {
          return NotRouted(StoreFailed), None;
        }
        var gotSlot := breakers.TakeProbeSlot(selection.channelId, PROBE_SLOT_TTL_MS);
        if gotSlot {
          slot := Some(selection.channelId);
        } else {
          candidates := MarkInFlight(candidates, selection.channelId);
          selection := SelectChannel(candidates, config.explorationRate, rng);
          if selection.NoEligible? {
            return NotRouted(NothingEligible(selection.reasons)), None;
          }
        }
      }
      return Decision(selection.channelId, selection.strategy, candidates), slot;
    }

    method RouteCall(query: Query, now: int, lt: (string, string) -> bool)
        returns (result: RouteResult, ghost slot: Option<string>)
      requires Wired()
      modifies server, rng
      ensures rng.index >= old(rng.index)
      ensures Effect(server.db, rng.index - old(rng.index), result, slot)
           == Route(old(server.db), config, query, now, lt, rng.stream, old(rng.index))
    {
      hide Reachable, Degrade, BuildCandidates, Finish, WriteChanges, EvaluateBreaker, WindowStore.StatsIn;
      hide BreakerStore.BreakerAt;
      var channels := Reachable(query.all, query.supported);
      if channels == [] {
        return NotRouted(if query.all == [] then NoneConfigured else NoneReachable), None;
      }
      if !query.metricsRead {
        return Degrade(channels), None;
      }
      var ids := IdsOf(channels);
      var stats := windows.ReadMany(ids, now);
      var current := breakers.ReadMany(ids);
      assert stats == ReadStats(old(server.db), config, ids, now);
      assert current == ReadBreakers(old(server.db), ids);
      var next := RefreshBreakers(ids, current, stats, now, query.landed);
      result, slot := FinishCall(BuildCandidates(channels, Inputs(stats, next, config), lt), query.slotOk);
    }
  }
}
