/** What single calls do to a sound world, exactly, and runs that are built from them. */
module CallSteps {
  import opened Types
  import opened Decimal
  import opened Keys
  import opened Redis
  import opened Window
  import opened WindowLog
  import opened Breaker
  import ClaimLaws
  import ProcessedStore
  import BreakerStore
  import WindowStore
  import opened OutcomeHandler
  import opened Routing
  import opened RoutingLaws
  import SlotLaws
  import opened CallRuns
  import opened CallClaims

  /** How an outcome that has just been logged moves the breaker of its channel. */
  function HandleMove(q: Setup, before: BreakerSnapshot, success: bool, log: seq<Applied>, c: string,
      now: int): BreakerSnapshot
    requires q.Valid()
  {
    if before.state == HALF_OPEN then ProbedTo(q, before, Some(success), now)
    else EvaluateBreaker(before, LogStats(log, q.G(), c, now), q.config, now)
  }

  predicate Unclaimed(w: World, eventId: string) {
    !w.db.Live(Processed(eventId))
  }

  /** A call of `handle` with a new event: the log, the breaker of the channel, and what stays. */
  lemma HandleIs(q: Setup, w: World, e: Event)
    requires Sound(q, w) && Unclaimed(w, e.eventId) && e.schemaVersion <= MAX_SUPPORTED_SCHEMA_VERSION
    ensures
      var t := Next(q, w, HandleCall(Valid(e), true));
      && t.db.now == w.db.now && t.log == w.log + [OutcomeOf(e, w.db.now)]
      && StateAt(t, e.channelId) == HandleMove(q, StateAt(w, e.channelId), e.success, t.log, e.channelId, w.db.now)
      && (forall d :: d != e.channelId ==> StateAt(t, d) == StateAt(w, d))
      && (forall x :: x != e.eventId && Unclaimed(w, x) ==> Unclaimed(t, x))
  {
    hide Tracks, BreakerStore.BreakersLast, BreakerStore.BreakerAt, AfterRecord, AppliedToBreaker, WellFormed;
    hide BadNow, Moves;
    var call := HandleCall(Valid(e), true);
    assert AppliedBy(q, w, call) == Some(e);
    AppliedClaims(q, w, call, e);
    RecordedWorld(q, w, e);
    var mid := AfterRecord(w.db, q.config, q.ttlSeconds, w.db.now, e);
    var log := w.log + [OutcomeOf(e, w.db.now)];
    forall c ensures WellFormed(BreakerStore.BreakerAt(mid, c), q.config, mid.now) {
      assert WellFormed(StateAt(w, c), q.config, w.db.now);
    }
    BreakerPart(q, mid, log, e);
    MovedIs(q, mid, log, e);
  }

  lemma MovedIs(q: Setup, db: Db, log: seq<Applied>, e: Event)
    requires q.Valid() && db.now >= 0 && Tracks(db, q.G(), log) && BreakerStore.BreakersLast(db)
    requires forall c :: WellFormed(BreakerStore.BreakerAt(db, c), q.config, db.now)
    ensures BreakerStore.BreakerAt(AppliedToBreaker(db, q.config, e.channelId, e.success, db.now), e.channelId)
         == HandleMove(q, BreakerStore.BreakerAt(db, e.channelId), e.success, log, e.channelId, db.now)
  {
    hide Tracks, BreakerStore.BreakersLast, BreakerStore.BreakerAt, WindowStore.StatsIn, WriteIfChanged;
    hide WellFormed, EvaluateBreaker;
    hide BadNow;
    var c := e.channelId;
    var current, next := BreakerStore.BreakerAt(db, c), Moved(db, q.config, c, e.success, db.now);
    assert WellFormed(current, q.config, db.now);
    SpanFitsTtl(q.G());
    WindowIsLog(db, q.G(), log, c, db.now, 0);
    if current.state != HALF_OPEN {
      EvaluateIsMove(q, db, log, current, Some(e.success), c);
    }
    MovesKeepForm(q, current, next, Some(e.success), log, c, db.now);
    WriteIfChangedReads(db, c, next, q.G(), log);
    ReleaseReads(WriteIfChanged(db, c, current, next), c, q.G(), log);
  }

  /**
    * The probe slots after a call of `handle`: an outcome that found its channel half
    * open gives the slot of that channel back, and every other slot stays as it was.
    */
  lemma HandleReleases(q: Setup, w: World, e: Event, c: string)
    requires Sound(q, w) && Unclaimed(w, e.eventId) && e.schemaVersion <= MAX_SUPPORTED_SCHEMA_VERSION
    ensures
      var t := Next(q, w, HandleCall(Valid(e), true));
      if c == e.channelId && StateAt(w, c).state == HALF_OPEN then
        !t.db.Live(Probe(c))
      else SlotLaws.SameSlot(w.db, t.db, c)
  {
    hide Tracks, BreakerStore.BreakersLast, BreakerStore.BreakerAt, WindowStore.Recorded, Moved, WellFormed;
    var claimed := ProcessedStore.Claim(w.db, e.eventId, q.ttlSeconds).0;
    var mid := AfterRecord(w.db, q.config, q.ttlSeconds, w.db.now, e);
    RecordedWorld(q, w, e);
    RecordTouches(claimed, q.G(), OutcomeOf(e, w.db.now));
    assert !WindowKey(Probe(c));
    assert SlotLaws.SameSlot(w.db, mid, c);
    SlotLaws.WriteKeepsSlot(mid, e.channelId, Moved(mid, q.config, e.channelId, e.success, w.db.now), c);
    hide BreakerStore.Written;
  }

  /** A call of `handle` does not write a breaker that it leaves as it is. */
  lemma HandleSparesUnchanged(q: Setup, w: World, e: Event, c: string)
    requires Sound(q, w) && Unclaimed(w, e.eventId) && e.schemaVersion <= MAX_SUPPORTED_SCHEMA_VERSION
    ensures
      var t := Next(q, w, HandleCall(Valid(e), true));
      StateAt(t, c) == StateAt(w, c) ==> SameEntry(w.db, t.db, c)
  {
    hide Tracks, BreakerStore.BreakersLast, BreakerStore.BreakerAt, WindowStore.Recorded, Moved, WellFormed;
    var claimed := ProcessedStore.Claim(w.db, e.eventId, q.ttlSeconds).0;
    var mid := AfterRecord(w.db, q.config, q.ttlSeconds, w.db.now, e);
    RecordedWorld(q, w, e);
    RecordTouches(claimed, q.G(), OutcomeOf(e, w.db.now));
    assert !WindowKey(Breaker(c));
    assert SameEntry(w.db, mid, c);
    HandleIs(q, w, e);
    var next := Moved(mid, q.config, e.channelId, e.success, w.db.now);
    MovedIsState(q, w, e);
    WrittenElsewhere(mid, e.channelId, next, c);
    hide BreakerStore.Written, HandleMove;
  }

  lemma WrittenElsewhere(db: Db, d: string, x: BreakerSnapshot, c: string)
    ensures c != d ==> SameEntry(db, BreakerStore.Written(db, d, x), c)
  {
    hide BreakerStore.SnapshotFields;
  }

  /** What the breaker part of a call computes is what the store then holds, and what the call answers. */
  lemma MovedIsState(q: Setup, w: World, e: Event)
    requires Sound(q, w) && Unclaimed(w, e.eventId) && e.schemaVersion <= MAX_SUPPORTED_SCHEMA_VERSION
    ensures
      var mid := AfterRecord(w.db, q.config, q.ttlSeconds, w.db.now, e);
      var after := StateAt(Next(q, w, HandleCall(Valid(e), true)), e.channelId);
      && after == Moved(mid, q.config, e.channelId, e.success, w.db.now)
      && Handle(w.db, q.config, q.ttlSeconds, w.db.now, true, Valid(e)).1 == HandleOutcome.Applied(e.channelId, after)
  {
    hide Tracks, BreakerStore.BreakersLast, BreakerStore.BreakerAt, AfterRecord, WellFormed, EvaluateBreaker;
    hide WindowStore.StatsIn, LogStats, AppliedToBreaker;
    var mid := AfterRecord(w.db, q.config, q.ttlSeconds, w.db.now, e);
    var log := w.log + [OutcomeOf(e, w.db.now)];
    HandleIs(q, w, e);
    RecordedWorld(q, w, e);
    SpanFitsTtl(q.G());
    WindowIsLog(mid, q.G(), log, e.channelId, w.db.now, 0);
    ProbeMoves(StateAt(w, e.channelId), e.success, q.config, w.db.now);
  }

  /** An informed call over all channels, with a store that answers. */
  function QueryOf(all: seq<Channel>): Query {
    Query(all, None, true, id => true, true)
  }

  lemma {:induction false} AllReachable(all: seq<Channel>)
    ensures Reachable(all, None) == all
  {
    if all != [] {
      AllReachable(all[..|all| - 1]);
    }
  }

  /** A call of `route` evaluates each listed breaker with the window of the log. */
  lemma RouteIs(q: Setup, w: World, all: seq<Channel>, draw: nat -> real, at: nat)
    requires Sound(q, w) && all != []
    ensures
      var t := Next(q, w, RouteCall(QueryOf(all), draw, at));
      && t.db.now == w.db.now && t.log == w.log
      && (forall c :: StateAt(t, c)
           == if c in IdsOf(all) then
                EvaluateBreaker(StateAt(w, c), LogStats(w.log, q.G(), c, w.db.now), q.config, w.db.now)
              else StateAt(w, c))
      && (forall x :: Unclaimed(w, x) ==> Unclaimed(t, x))
  {
    hide Tracks, BreakerStore.BreakersLast, BreakerStore.BreakerAt, WellFormed, Refreshed;
    hide WindowStore.StatsIn, EvaluateBreaker;
    var call := RouteCall(QueryOf(all), draw, at);
    var ids := IdsOf(all);
    AllReachable(all);
    RouteStores(q, w, all, draw, at);
    RefreshedReads(w.db, q.config, ids, w.db.now, call.query.landed);
    var mid := Refreshed(w.db, q.config, ids, w.db.now, call.query.landed);
    RefreshedWorld(q, w, ids, call.query.landed);
    RefreshLeavesClaims(q, w, ids, call.query.landed);
    SlotsLeaveClaims(mid);
    SpanFitsTtl(q.G());
    forall c ensures WindowStore.StatsIn(w.db, q.G(), c, w.db.now) == LogStats(w.log, q.G(), c, w.db.now) {
      WindowIsLog(w.db, q.G(), w.log, c, w.db.now, 0);
    }
    var t := Next(q, w, call);
    if t.db != mid {
      var c :| t.db == mid.SetNx(Probe(c), BreakerStore.SLOT_TEXT, PROBE_SLOT_TTL_MS).0;
      SlotWorld(mid, c, q.G(), w.log);
      assert ClaimLaws.SameClaimKeys(mid, t.db);
    }
  }

  lemma RouteStores(q: Setup, w: World, all: seq<Channel>, draw: nat -> real, at: nat)
    requires q.Valid() && all != []
    ensures
      var t := Next(q, w, RouteCall(QueryOf(all), draw, at));
      var mid := Refreshed(w.db, q.config, IdsOf(all), w.db.now, QueryOf(all).landed);
      t.db == mid || exists c :: t.db == mid.SetNx(Probe(c), BreakerStore.SLOT_TEXT, PROBE_SLOT_TTL_MS).0
  {
    hide Refreshed, Rank, Reachable, Choose, Degrade;
    AllReachable(all);
  }

  /** Time passes. */
  lemma AdvanceIs(q: Setup, w: World, ms: nat)
    requires Sound(q, w)
    ensures
      var t := Next(q, w, Advance(ms));
      && t.db.now == w.db.now + ms && t.log == w.log
      && (forall c :: StateAt(t, c) == StateAt(w, c))
      && (forall x :: Unclaimed(w, x) ==> Unclaimed(t, x))
  {
    hide BreakerStore.BreakersLast, BreakerStore.BreakerAt, Tracks, BreakerStore.SameBreakers;
    BreakerStore.TimeKeepsBreakers(w.db, ms, {});
    BreakerStore.SameBreakersRead(w.db, w.db.Advance(ms));
  }

  // ---------- Runs ----------

  function Last(ws: seq<World>): World
    requires ws != []
  {
    ws[|ws| - 1]
  }

  ghost predicate Ran(q: Setup, ws: seq<World>, calls: seq<Call>) {
    ws != [] && Run(q, ws, calls) && Sound(q, Last(ws))
  }

  lemma Begin(q: Setup) returns (ws: seq<World>, calls: seq<Call>)
    requires q.Valid()
    ensures Ran(q, ws, calls) && ws == [START]
  {
    ws, calls := [START], [];
    StartIsSound(q);
  }

  lemma Then(q: Setup, ws: seq<World>, calls: seq<Call>, call: Call) returns (longer: seq<World>, more: seq<Call>)
    requires Ran(q, ws, calls)
    ensures Ran(q, longer, more) && Last(longer) == Next(q, Last(ws), call) && |longer| == |ws| + 1 && ws <= longer
    ensures |more| == |calls| + 1 && more[|calls|] == call
  {
    hide Next, Sound;
    longer, more := ws + [Next(q, Last(ws), call)], calls + [call];
    forall i | 0 <= i < |more| ensures longer[i + 1] == Next(q, longer[i], more[i]) {
      if i < |calls| {
        assert longer[i] == ws[i] && longer[i + 1] == ws[i + 1] && more[i] == calls[i];
      }
    }
    RunIsSound(q, longer, more, |ws|);
  }

  // ---------- Counting ----------

  lemma RecentSnoc(log: seq<Applied>, e: Applied, g: Geometry, c: string, now: int)
    requires g.Valid()
    ensures Recent(log + [e], g, c, now) == Recent(log, g, c, now)
      + if e.channelId == c && Counts(g, e.at, now) then [e] else []
  {
    assert (log + [e])[..|log|] == log;
  }

  /** The channel has `total` outcomes in its window, of which `good` succeeded. */
  predicate WindowHolds(q: Setup, w: World, c: string, good: nat, total: nat)
    requires q.Valid()
  {
    var recent := Recent(w.log, q.G(), c, w.db.now);
    Tally(recent, true) == good && |recent| == total
  }

  lemma WindowGrows(q: Setup, w: World, t: World, e: Event, c: string, good: nat, total: nat)
    requires q.Valid() && t.db.now == w.db.now && t.log == w.log + [OutcomeOf(e, w.db.now)]
      && WindowHolds(q, w, c, good, total)
    ensures
      if c == e.channelId then WindowHolds(q, t, c, good + (if e.success then 1 else 0), total + 1)
      else WindowHolds(q, t, c, good, total)
  {
    RecentSnoc(w.log, OutcomeOf(e, w.db.now), q.G(), c, w.db.now);
    TallySnoc(Recent(w.log, q.G(), c, w.db.now), OutcomeOf(e, w.db.now), true);
  }

  /** What an evaluation does with a window of that size. */
  lemma EvaluateWindow(q: Setup, w: World, before: BreakerSnapshot, c: string, good: nat, total: nat)
    requires q.Valid() && WindowHolds(q, w, c, good, total)
    ensures
      var next := EvaluateBreaker(before, LogStats(w.log, q.G(), c, w.db.now), q.config, w.db.now);
      && (before.state == CLOSED ==>
            next == if Bad(good, total, q.config) then BreakerSnapshot(OPEN, w.db.now, 0) else before)
      && (before.state == OPEN ==>
            next
            == if w.db.now - before.openedAt >= q.config.breaker.openMs then
                 BreakerSnapshot(HALF_OPEN, before.openedAt, 0)
               else before)
      && (before.state == HALF_OPEN ==> next == before)
  {
    hide Recent, SamplesOver;
    EvaluateMoves(before, LogStats(w.log, q.G(), c, w.db.now), q.config, w.db.now);
    TallySplits(Recent(w.log, q.G(), c, w.db.now));
  }

  // ---------- Phases ----------

  /** Events with these numbers have not been used. */
  ghost predicate FreshFrom(w: World, used: nat) {
    forall k: nat :: k >= used ==> Unclaimed(w, Render(k))
  }

  function EventOf(k: nat, c: string, success: bool): Event {
    Event(MAX_SUPPORTED_SCHEMA_VERSION, Render(k), c, success, 0)
  }

  lemma NextEvent(q: Setup, ws: seq<World>, calls: seq<Call>, c: string, success: bool, used: nat)
    returns (longer: seq<World>, more: seq<Call>)
    requires Ran(q, ws, calls) && FreshFrom(Last(ws), used)
    ensures Ran(q, longer, more) && FreshFrom(Last(longer), used + 1) && |longer| == |ws| + 1 && ws <= longer
    ensures
      var w, t := Last(ws), Last(longer);
      && t.db.now == w.db.now && t.log == w.log + [OutcomeOf(EventOf(used, c, success), w.db.now)]
      && StateAt(t, c) == HandleMove(q, StateAt(w, c), success, t.log, c, w.db.now)
      && (forall d :: d != c ==> StateAt(t, d) == StateAt(w, d))
  {
    hide Sound, Next, HandleMove, StateAt, Run, Unclaimed;
    var e := EventOf(used, c, success);
    longer, more := Then(q, ws, calls, HandleCall(Valid(e), true));
    HandleIs(q, Last(ws), e);
    forall k: nat | k >= used + 1 ensures Unclaimed(Last(longer), Render(k)) {
      if Render(k) == Render(used) {
        RenderInjective(k, used);
      }
    }
  }

  /** All outcomes so far carry the clock reading zero. */
  ghost predicate AllAtZero(log: seq<Applied>) {
    forall i :: 0 <= i < |log| ==> log[i].at == 0
  }

  /** Two worlds agree on every channel but one. */
  ghost predicate OthersSame(q: Setup, w: World, t: World, c: string)
    requires q.Valid()
  {
    forall d :: d != c ==>
      StateAt(t, d) == StateAt(w, d) && Recent(t.log, q.G(), d, t.db.now) == Recent(w.log, q.G(), d, w.db.now)
  }

  predicate CanOpen(q: Setup) {
    q.config.breaker.failureRateThreshold > 0.0 && q.config.minSamples > 0
  }

  /** One more failure at time zero, after `m - 1` of them. */
  lemma FailOne(q: Setup, ws: seq<World>, calls: seq<Call>, c: string, m: nat, used: nat)
    returns (longer: seq<World>, more: seq<Call>)
    requires Ran(q, ws, calls) && CanOpen(q) && FreshFrom(Last(ws), used) && AllAtZero(Last(ws).log)
      && Last(ws).db.now == 0
    requires WindowHolds(q, Last(ws), c, 0, m)
    requires StateAt(Last(ws), c) == if m >= q.config.minSamples then BreakerSnapshot(OPEN, 0, 0) else CLOSED_BREAKER
    ensures Ran(q, longer, more) && FreshFrom(Last(longer), used + 1) && AllAtZero(Last(longer).log)
      && Last(longer).db.now == 0
    ensures WindowHolds(q, Last(longer), c, 0, m + 1) && OthersSame(q, Last(ws), Last(longer), c)
    ensures StateAt(Last(longer), c) == if m + 1 >= q.config.minSamples then BreakerSnapshot(OPEN, 0, 0)
      else CLOSED_BREAKER
    ensures |longer| == |ws| + 1 && ws <= longer
  {
    hide Sound, Next, StateAt, Run, FreshFrom, Recent, EvaluateBreaker, LogStats, WindowHolds, OthersSame, AllAtZero;
    SoundIsValid(q, Last(ws));
    var w, e := Last(ws), EventOf(used, c, false);
    longer, more := NextEvent(q, ws, calls, c, false, used);
    var t := Last(longer);
    WindowGrows(q, w, t, e, c, 0, m);
    EvaluateWindow(q, t, StateAt(w, c), c, 0, m + 1);
    StillAtZero(w.log, OutcomeOf(e, w.db.now));
    OthersStay(q, w, t, e, c);
  }

  lemma StillAtZero(log: seq<Applied>, e: Applied)
    requires AllAtZero(log) && e.at == 0
    ensures AllAtZero(log + [e])
  {
  }

  lemma OthersStay(q: Setup, w: World, t: World, e: Event, c: string)
    requires q.Valid() && t.db.now == w.db.now && t.log == w.log + [OutcomeOf(e, w.db.now)] && e.channelId == c
    requires forall d :: d != c ==> StateAt(t, d) == StateAt(w, d)
    ensures OthersSame(q, w, t, c)
  {
    hide StateAt, Recent;
    forall d | d != c ensures Recent(t.log, q.G(), d, t.db.now) == Recent(w.log, q.G(), d, w.db.now) {
      RecentSnoc(w.log, OutcomeOf(e, w.db.now), q.G(), d, w.db.now);
    }
  }

  /** `m` failures of one channel at time zero open its breaker, when they are enough. */
  lemma {:induction false} FailMany(q: Setup, ws: seq<World>, calls: seq<Call>, c: string, m: nat, used: nat)
    returns (longer: seq<World>, more: seq<Call>)
    requires Ran(q, ws, calls) && CanOpen(q) && FreshFrom(Last(ws), used) && AllAtZero(Last(ws).log)
      && Last(ws).db.now == 0
    requires StateAt(Last(ws), c) == CLOSED_BREAKER && WindowHolds(q, Last(ws), c, 0, 0)
    ensures Ran(q, longer, more) && FreshFrom(Last(longer), used + m) && AllAtZero(Last(longer).log)
      && Last(longer).db.now == 0
    ensures WindowHolds(q, Last(longer), c, 0, m) && OthersSame(q, Last(ws), Last(longer), c)
    ensures StateAt(Last(longer), c) == if m >= q.config.minSamples then BreakerSnapshot(OPEN, 0, 0) else CLOSED_BREAKER
    ensures |longer| == |ws| + m && ws <= longer
  {
    hide Sound, Next, StateAt, Run, FreshFrom, Recent, WindowHolds;
    SoundIsValid(q, Last(ws));
    if m == 0 {
      longer, more := ws, calls;
    } else {
      longer, more := FailMany(q, ws, calls, c, m - 1, used);
      longer, more := FailOne(q, longer, more, c, m - 1, used + m - 1);
    }
  }
}
