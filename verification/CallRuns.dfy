/**
  * Runs in which every call of `handle` and `route` is one step. Here the probe
  * count has an exact history, and a recovered breaker starts from fresh evidence.
  */
module CallRuns {
  import opened Types
  import opened Keys
  import opened Redis
  import opened Window
  import opened WindowLog
  import opened Breaker
  import ProcessedStore
  import BreakerStore
  import WindowStore
  import opened OutcomeHandler
  import opened Routing
  import opened RoutingLaws

  datatype World = World(db: Db, log: seq<WindowLog.Applied>)

  datatype Setup = Setup(config: RoutingConfig, ttlSeconds: int, lt: (string, string) -> bool) {
    function G(): Geometry {
      GeometryOf(config)
    }

    predicate Valid() {
      G().Valid() && config.breaker.probesToClose > 0 && config.breaker.openMs > 0
    }
  }

  datatype Call =
    | HandleCall(msg: Message, known: bool)
    | RouteCall(query: Query, draw: nat -> real, at: nat)
    | Advance(ms: nat)
    | Evict(keys: set<Key>)

  /** The event that a call of `handle` applies, if it applies one. */
  function AppliedBy(q: Setup, w: World, call: Call): Option<Event> {
    if call.HandleCall? && call.msg.Valid? && call.msg.event.schemaVersion <= MAX_SUPPORTED_SCHEMA_VERSION && call.known
       && ProcessedStore.Claim(w.db, call.msg.event.eventId, q.ttlSeconds).1
    then Some(call.msg.event) else None
  }

  function OutcomeOf(e: Event, now: int): WindowLog.Applied {
    WindowLog.Applied.Applied(e.channelId, e.eventId, now, e.success, e.latencyMs)
  }

  function Next(q: Setup, w: World, call: Call): World
    requires q.Valid()
  {
    match call
    case HandleCall(msg, known) =>
      var e := AppliedBy(q, w, call);
      World(Handle(w.db, q.config, q.ttlSeconds, w.db.now, known, msg).0,
            if e.Some? then w.log + [OutcomeOf(e.value, w.db.now)] else w.log)
    case RouteCall(query, draw, at) => World(Route(w.db, q.config, query, w.db.now, q.lt, draw, at).db, w.log)
    case Advance(ms) => World(w.db.Advance(ms), w.log)
    case Evict(keys) => World(w.db.Evict(keys), w.log)
  }

  function StateAt(w: World, c: string): BreakerSnapshot {
    BreakerStore.BreakerAt(w.db, c)
  }

  ghost predicate Sound(q: Setup, w: World) {
    && q.Valid() && w.db.now >= 0
    && Tracks(w.db, q.G(), w.log)
    && BreakerStore.BreakersLast(w.db)
    && forall c :: WellFormed(StateAt(w, c), q.config, w.db.now)
  }

  /** The log says that the window of the channel is bad at `now`. */
  ghost predicate BadNow(q: Setup, log: seq<WindowLog.Applied>, c: string, now: int)
    requires q.Valid()
  {
    var recent := Recent(log, q.G(), c, now);
    Bad(Tally(recent, true), |recent|, q.config)
  }

  /**
    * A half-open breaker after a call: a failure opens it anew, and each success brings
    * it one step closer to closed.
    */
  function ProbedTo(q: Setup, before: BreakerSnapshot, own: Option<bool>, now: int): BreakerSnapshot {
    if own.None? then before
    else if !own.value then BreakerSnapshot(OPEN, now, 0)
    else if before.probeSuccess + 1 >= q.config.breaker.probesToClose then BreakerSnapshot(CLOSED, 0, 0)
    else BreakerSnapshot(HALF_OPEN, before.openedAt, before.probeSuccess + 1)
  }

  /**
    * Every way in which one call can move the breaker of a channel. `own` is the outcome
    * that the call applied to it.
    */
  ghost predicate Moves(q: Setup, before: BreakerSnapshot, after: BreakerSnapshot, own: Option<bool>,
      log: seq<WindowLog.Applied>, c: string, now: int)
    requires q.Valid()
  {
    match before.state
    case HALF_OPEN => after == ProbedTo(q, before, own, now)
    case OPEN =>
      after == before
        || (after == BreakerSnapshot(HALF_OPEN, before.openedAt, 0) && now - before.openedAt >= q.config.breaker.openMs)
    case CLOSED => after == before || (after == BreakerSnapshot(OPEN, now, 0) && BadNow(q, log, c, now))
  }

  function OwnOutcome(q: Setup, w: World, call: Call, c: string): Option<bool> {
    var e := AppliedBy(q, w, call);
    if e.Some? && e.value.channelId == c then Some(e.value.success) else None
  }

  lemma EvaluateIsMove(q: Setup, db: Db, log: seq<WindowLog.Applied>, before: BreakerSnapshot, own: Option<bool>,
      c: string)
    requires q.Valid() && Tracks(db, q.G(), log) && (before.state == HALF_OPEN ==> own.None?)
    ensures Moves(q, before, EvaluateBreaker(before, WindowStore.StatsIn(db, q.G(), c, db.now), q.config, db.now),
      own, log, c, db.now)
  {
    hide Tracks, Recent, SamplesOver;
    SpanFitsTtl(q.G());
    WindowIsLog(db, q.G(), log, c, db.now, 0);
    EvaluateMoves(before, WindowStore.StatsIn(db, q.G(), c, db.now), q.config, db.now);
    TallySplits(Recent(log, q.G(), c, db.now));
  }

  lemma MovesKeepForm(q: Setup, before: BreakerSnapshot, after: BreakerSnapshot, own: Option<bool>,
      log: seq<WindowLog.Applied>, c: string, now: int)
    requires q.Valid() && WellFormed(before, q.config, now) && Moves(q, before, after, own, log, c, now) && now >= 0
    ensures WellFormed(after, q.config, now) && BreakerStore.Storable(after)
  {
    hide BadNow;
  }

  lemma FormLasts(q: Setup, x: BreakerSnapshot, now: int, later: int)
    requires WellFormed(x, q.config, now) && now <= later
    ensures WellFormed(x, q.config, later)
  {
  }

  /** Claim and record: the window follows the log, and no breaker moves. */
  lemma RecordedWorld(q: Setup, w: World, e: Event)
    requires Sound(q, w)
    ensures
      var mid := AfterRecord(w.db, q.config, q.ttlSeconds, w.db.now, e);
      && mid.now == w.db.now
      && Tracks(mid, q.G(), w.log + [OutcomeOf(e, w.db.now)])
      && BreakerStore.BreakersLast(mid)
      && forall c :: BreakerStore.BreakerAt(mid, c) == StateAt(w, c)
  {
    hide Tracks, BreakerStore.BreakersLast, BreakerStore.BreakerAt, WindowStore.Recorded;
    var claimed := ProcessedStore.Claim(w.db, e.eventId, q.ttlSeconds).0;
    assert SameWindows(w.db, claimed) && BreakerStore.SameBreakers(w.db, claimed);
    OtherKeysKeepTracks(w.db, claimed, q.G(), w.log);
    BreakerStore.SameBreakersRead(w.db, claimed);
    SpanFitsTtl(q.G());
    RecordKeepsTracks(claimed, q.G(), w.log, OutcomeOf(e, w.db.now), 0);
    RecordTouches(claimed, q.G(), OutcomeOf(e, w.db.now));
    BreakerStore.SameBreakersRead(claimed, AfterRecord(w.db, q.config, q.ttlSeconds, w.db.now, e));
  }

  lemma WriteIfChangedReads(db: Db, c: string, next: BreakerSnapshot, g: Geometry, log: seq<WindowLog.Applied>)
    requires g.Valid() && BreakerStore.BreakersLast(db) && BreakerStore.Storable(next) && Tracks(db, g, log)
    ensures
      var after := WriteIfChanged(db, c, BreakerStore.BreakerAt(db, c), next);
      && after.now == db.now && BreakerStore.BreakersLast(after) && Tracks(after, g, log)
      && forall d :: BreakerStore.BreakerAt(after, d) == if d == c then next else BreakerStore.BreakerAt(db, d)
  {
    hide BreakerStore.BreakerAt, BreakerStore.BreakersLast, Tracks, BreakerStore.Written;
    BreakerStore.WriteThenRead(db, c, next);
    if next != BreakerStore.BreakerAt(db, c) {
      assert SameWindows(db, BreakerStore.Written(db, c, next));
      OtherKeysKeepTracks(db, BreakerStore.Written(db, c, next), g, log);
    }
  }

  lemma ReleaseReads(db: Db, c: string, g: Geometry, log: seq<WindowLog.Applied>)
    requires g.Valid() && BreakerStore.BreakersLast(db) && Tracks(db, g, log)
    ensures
      var after := db.Del(Probe(c));
      && after.now == db.now && BreakerStore.BreakersLast(after) && Tracks(after, g, log)
      && forall d :: BreakerStore.BreakerAt(after, d) == BreakerStore.BreakerAt(db, d)
  {
    hide BreakerStore.BreakerAt, BreakerStore.BreakersLast, Tracks;
    var after := db.Del(Probe(c));
    assert SameWindows(db, after) && BreakerStore.SameBreakers(db, after);
    OtherKeysKeepTracks(db, after, g, log);
    BreakerStore.SameBreakersRead(db, after);
  }

  /** The breaker part of `handle`: only the channel of the event moves. */
  lemma BreakerPart(q: Setup, db: Db, log: seq<WindowLog.Applied>, e: Event)
    requires q.Valid() && db.now >= 0 && Tracks(db, q.G(), log) && BreakerStore.BreakersLast(db)
    requires forall c :: WellFormed(BreakerStore.BreakerAt(db, c), q.config, db.now)
    ensures
      var after := AppliedToBreaker(db, q.config, e.channelId, e.success, db.now);
      && after.now == db.now && Tracks(after, q.G(), log) && BreakerStore.BreakersLast(after)
      && (forall d :: d != e.channelId ==> BreakerStore.BreakerAt(after, d) == BreakerStore.BreakerAt(db, d))
      && Moves(q, BreakerStore.BreakerAt(db, e.channelId), BreakerStore.BreakerAt(after, e.channelId),
        Some(e.success), log, e.channelId, db.now)
  {
    hide Tracks, BreakerStore.BreakersLast, BreakerStore.BreakerAt, WindowStore.StatsIn, WriteIfChanged;
    hide WellFormed, BadNow, EvaluateBreaker;
    var c := e.channelId;
    var current := BreakerStore.BreakerAt(db, c);
    var next := Moved(db, q.config, c, e.success, db.now);
    assert WellFormed(current, q.config, db.now);
    if current.state != HALF_OPEN {
      EvaluateIsMove(q, db, log, current, Some(e.success), c);
    }
    assert Moves(q, current, next, Some(e.success), log, c, db.now);
    MovesKeepForm(q, current, next, Some(e.success), log, c, db.now);
    WriteIfChangedReads(db, c, next, q.G(), log);
    ReleaseReads(WriteIfChanged(db, c, current, next), c, q.G(), log);
  }

  lemma HandleKeeps(q: Setup, w: World, call: Call)
    requires Sound(q, w) && call.HandleCall?
    ensures Stepped(q, w, call)
  {
    hide Sound, AppliedToBreaker, AfterRecord, StateAt, Moves, ProcessedStore.Claim;
    var e := AppliedBy(q, w, call);
    assert q.Valid() by { SoundIsValid(q, w); }
    if e.None? {
      if call.msg.Valid? {
        ProcessedStore.FailedClaim(w.db, call.msg.event.eventId, q.ttlSeconds);
      }
      StillStepped(q, w, call);
    } else {
      AppliedKeeps(q, w, call);
    }
  }

  lemma SoundIsValid(q: Setup, w: World)
    requires Sound(q, w)
    ensures q.Valid()
  {
  }

  lemma StillStepped(q: Setup, w: World, call: Call)
    requires Sound(q, w) && Next(q, w, call) == w && AppliedBy(q, w, call).None?
    ensures Stepped(q, w, call)
  {
    hide StateAt, Tracks, BreakerStore.BreakersLast, WellFormed, BadNow, ProcessedStore.Claim;
  }

  lemma AppliedKeeps(q: Setup, w: World, call: Call)
    requires Sound(q, w) && AppliedBy(q, w, call).Some?
    ensures Stepped(q, w, call)
  {
    hide Tracks, BreakerStore.BreakersLast, BreakerStore.BreakerAt, WellFormed, BadNow, AfterRecord, AppliedToBreaker;
    var e := AppliedBy(q, w, call).value;
    var mid := AfterRecord(w.db, q.config, q.ttlSeconds, w.db.now, e);
    var log := w.log + [OutcomeOf(e, w.db.now)];
    RecordedWorld(q, w, e);
    BreakerPart(q, mid, log, e);
    var t := Next(q, w, call);
    assert t == World(AppliedToBreaker(mid, q.config, e.channelId, e.success, w.db.now), log);
    forall c
      ensures WellFormed(StateAt(t, c), q.config, t.db.now)
      ensures Moves(q, StateAt(w, c), StateAt(t, c), OwnOutcome(q, w, call, c), t.log, c, w.db.now)
    {
      assert WellFormed(StateAt(w, c), q.config, w.db.now);
      if c == e.channelId {
        MovesKeepForm(q, StateAt(w, c), StateAt(t, c), Some(e.success), log, c, w.db.now);
      }
    }
  }

  /** One call keeps the world sound, extends the log by what it applied, and moves each breaker in an allowed way. */
  ghost predicate Stepped(q: Setup, w: World, call: Call)
    requires q.Valid()
  {
    var t := Next(q, w, call);
    && Sound(q, t)
    && t.log == w.log + (if AppliedBy(q, w, call).Some? then [OutcomeOf(AppliedBy(q, w, call).value, w.db.now)] else [])
    && w.db.now <= t.db.now
    && forall c :: Moves(q, StateAt(w, c), StateAt(t, c), OwnOutcome(q, w, call, c), t.log, c, w.db.now)
  }

  /** What `route` does to the store besides its answer: a refresh, and perhaps a slot. */
  lemma RouteDb(q: Setup, w: World, call: Call)
    requires q.Valid() && call.RouteCall?
    ensures
      var e := Route(w.db, q.config, call.query, w.db.now, q.lt, call.draw, call.at);
      var channels := Reachable(call.query.all, call.query.supported);
      var mid := Refreshed(w.db, q.config, IdsOf(channels), w.db.now, call.query.landed);
      e.db == w.db || e.db == mid
        || exists c :: e.db == mid.SetNx(Probe(c), BreakerStore.SLOT_TEXT, PROBE_SLOT_TTL_MS).0
  {
    hide Refreshed, Rank, Reachable, Choose, Degrade;
  }

  lemma SlotWorld(db: Db, c: string, g: Geometry, log: seq<WindowLog.Applied>)
    requires g.Valid() && BreakerStore.BreakersLast(db) && Tracks(db, g, log)
    ensures
      var after := db.SetNx(Probe(c), BreakerStore.SLOT_TEXT, PROBE_SLOT_TTL_MS).0;
      && after.now == db.now && BreakerStore.BreakersLast(after) && Tracks(after, g, log)
      && forall d :: BreakerStore.BreakerAt(after, d) == BreakerStore.BreakerAt(db, d)
  {
    hide BreakerStore.BreakerAt, BreakerStore.BreakersLast, Tracks;
    var after := db.SetNx(Probe(c), BreakerStore.SLOT_TEXT, PROBE_SLOT_TTL_MS).0;
    assert SameWindows(db, after) && BreakerStore.SameBreakers(db, after);
    OtherKeysKeepTracks(db, after, g, log);
    BreakerStore.SameBreakersRead(db, after);
  }

  lemma RefreshedWorld(q: Setup, w: World, ids: seq<string>, landed: string -> bool)
    requires Sound(q, w)
    ensures
      var mid := Refreshed(w.db, q.config, ids, w.db.now, landed);
      && mid.now == w.db.now && BreakerStore.BreakersLast(mid) && Tracks(mid, q.G(), w.log)
      && forall c :: WellFormed(BreakerStore.BreakerAt(mid, c), q.config, w.db.now)
                     && Moves(q, StateAt(w, c), BreakerStore.BreakerAt(mid, c), None, w.log, c, w.db.now)
  {
    hide Tracks, BreakerStore.BreakersLast, BreakerStore.BreakerAt, WindowStore.StatsIn, Refreshed;
    hide EvaluateBreaker, WellFormed, BadNow;
    RefreshedReads(w.db, q.config, ids, w.db.now, landed);
    var mid := Refreshed(w.db, q.config, ids, w.db.now, landed);
    assert SameWindows(w.db, mid);
    OtherKeysKeepTracks(w.db, mid, q.G(), w.log);
    forall c
      ensures WellFormed(BreakerStore.BreakerAt(mid, c), q.config, w.db.now)
      ensures Moves(q, StateAt(w, c), BreakerStore.BreakerAt(mid, c), None, w.log, c, w.db.now)
    {
      assert WellFormed(StateAt(w, c), q.config, w.db.now);
      if c in ids && landed(c) {
        EvaluateIsMove(q, w.db, w.log, StateAt(w, c), None, c);
      }
      MovesKeepForm(q, StateAt(w, c), BreakerStore.BreakerAt(mid, c), None, w.log, c, w.db.now);
    }
  }

  lemma RouteKeeps(q: Setup, w: World, call: Call)
    requires Sound(q, w) && call.RouteCall?
    ensures Stepped(q, w, call)
  {
    hide Tracks, BreakerStore.BreakersLast, BreakerStore.BreakerAt, WellFormed, Refreshed, Route, BadNow;
    var ids := IdsOf(Reachable(call.query.all, call.query.supported));
    var mid := Refreshed(w.db, q.config, ids, w.db.now, call.query.landed);
    RouteDb(q, w, call);
    RefreshedWorld(q, w, ids, call.query.landed);
    var t := Next(q, w, call);
    if t.db != w.db && t.db != mid {
      var c :| t.db == mid.SetNx(Probe(c), BreakerStore.SLOT_TEXT, PROBE_SLOT_TTL_MS).0;
      SlotWorld(mid, c, q.G(), w.log);
    }
    forall c ensures OwnOutcome(q, w, call, c).None?
      && (t.db == w.db ==> WellFormed(StateAt(t, c), q.config, t.db.now)) {
      assert WellFormed(StateAt(w, c), q.config, w.db.now);
    }
  }

  lemma TimeKeeps(q: Setup, w: World, call: Call)
    requires Sound(q, w) && (call.Advance? || call.Evict?)
    ensures Stepped(q, w, call)
  {
    hide Tracks, BreakerStore.BreakersLast, BreakerStore.BreakerAt, WellFormed, BreakerStore.SameBreakers, BadNow;
    var t := Next(q, w, call);
    match call {
      case Advance(ms) =>
        AdvanceKeepsTracks(w.db, q.G(), w.log, ms);
        BreakerStore.TimeKeepsBreakers(w.db, ms, {});
      case Evict(keys) =>
        EvictKeepsTracks(w.db, q.G(), w.log, keys);
        BreakerStore.TimeKeepsBreakers(w.db, 0, keys);
    }
    BreakerStore.SameBreakersRead(w.db, t.db);
    forall c ensures WellFormed(StateAt(t, c), q.config, t.db.now) {
      assert WellFormed(StateAt(w, c), q.config, w.db.now);
      FormLasts(q, StateAt(w, c), w.db.now, t.db.now);
    }
  }

  lemma CallKeeps(q: Setup, w: World, call: Call)
    requires Sound(q, w)
    ensures Stepped(q, w, call)
  {
    hide Sound, Stepped;
    match call {
      case HandleCall(_, _) => HandleKeeps(q, w, call);
      case RouteCall(_, _, _) => RouteKeeps(q, w, call);
      case Advance(_) => TimeKeeps(q, w, call);
      case Evict(_) => TimeKeeps(q, w, call);
    }
  }

  const START := World(EMPTY, [])

  ghost predicate Run(q: Setup, ws: seq<World>, calls: seq<Call>) {
    && q.Valid()
    && |ws| == |calls| + 1 && ws[0] == START
    && forall i :: 0 <= i < |calls| ==> ws[i + 1] == Next(q, ws[i], calls[i])
  }

  lemma StartIsSound(q: Setup)
    requires q.Valid()
    ensures Sound(q, START)
  {
    EmptyTracks(q.G());
    forall c ensures WellFormed(StateAt(START, c), q.config, 0) {
      assert START.db.Fields(Breaker(c)) == map[];
    }
  }

  lemma {:induction false} RunIsSound(q: Setup, ws: seq<World>, calls: seq<Call>, i: nat)
    requires Run(q, ws, calls) && i < |ws|
    ensures Sound(q, ws[i]) && (i < |calls| ==> Stepped(q, ws[i], calls[i]))
    decreases i
  {
    hide Sound, Next;
    if i == 0 {
      StartIsSound(q);
    } else {
      RunIsSound(q, ws, calls, i - 1);
    }
    if i < |calls| {
      CallKeeps(q, ws[i], calls[i]);
    }
  }

  // ---------- Histories ----------

  function OutcomesOf(log: seq<WindowLog.Applied>, c: string): seq<bool> {
    if log == [] then []
    else
      var n := |log| - 1;
      OutcomesOf(log[..n], c) + if log[n].channelId == c then [log[n].success] else []
  }

  /** The outcomes of a channel that were applied between two points of a run. */
  function Since(ws: seq<World>, j: nat, n: nat, c: string): seq<bool>
    requires j <= n < |ws|
  {
    if |ws[j].log| <= |ws[n].log| then OutcomesOf(ws[n].log[|ws[j].log|..], c) else []
  }

  predicate AllTrue(s: seq<bool>) {
    forall i :: 0 <= i < |s| ==> s[i]
  }

  predicate HalfOpenFrom(ws: seq<World>, j: nat, n: nat, c: string)
    requires n < |ws|
  {
    forall i :: j <= i <= n ==> StateAt(ws[i], c).state == HALF_OPEN
  }

  lemma {:induction false} LogGrows(q: Setup, ws: seq<World>, calls: seq<Call>, j: nat, n: nat)
    requires Run(q, ws, calls) && j <= n < |ws|
    ensures ws[j].log <= ws[n].log && ws[j].db.now <= ws[n].db.now
    decreases n
  {
    hide Sound, Next, Moves;
    if j < n {
      LogGrows(q, ws, calls, j, n - 1);
      RunIsSound(q, ws, calls, n - 1);
    }
  }

  /** One more call adds its own outcome to the history, if it has one. */
  lemma SinceGrows(q: Setup, ws: seq<World>, calls: seq<Call>, j: nat, n: nat, c: string)
    requires Run(q, ws, calls) && j <= n < |calls|
    ensures
      var own := OwnOutcome(q, ws[n], calls[n], c);
      Since(ws, j, n + 1, c) == Since(ws, j, n, c) + if own.Some? then [own.value] else []
  {
    hide Sound, Next, Moves;
    LogGrows(q, ws, calls, j, n);
    RunIsSound(q, ws, calls, n);
    var e := AppliedBy(q, ws[n], calls[n]);
    var from := |ws[j].log|;
    if e.Some? {
      var tail := ws[n].log[from..];
      assert ws[n + 1].log[from..] == tail + [OutcomeOf(e.value, ws[n].db.now)];
      assert (tail + [OutcomeOf(e.value, ws[n].db.now)])[..|tail|] == tail;
      assert Since(ws, j, n + 1, c) == OutcomesOf(tail + [OutcomeOf(e.value, ws[n].db.now)], c);
      assert OutcomesOf(tail + [OutcomeOf(e.value, ws[n].db.now)], c)
          == OutcomesOf(tail, c) + if e.value.channelId == c then [e.value.success] else [];
    } else {
      assert ws[n + 1].log == ws[n].log;
    }
  }

  /** While a breaker stays half open, its probe count goes up by one with each outcome, and every outcome succeeds. */
  lemma {:induction false} CountIsHistory(q: Setup, ws: seq<World>, calls: seq<Call>, j: nat, n: nat, c: string)
    requires Run(q, ws, calls) && j <= n < |ws| && HalfOpenFrom(ws, j, n, c)
    ensures AllTrue(Since(ws, j, n, c))
    ensures StateAt(ws[n], c).probeSuccess == StateAt(ws[j], c).probeSuccess + |Since(ws, j, n, c)|
    ensures StateAt(ws[n], c).openedAt == StateAt(ws[j], c).openedAt
    decreases n
  {
    hide Sound, Next, StateAt;
    if j == n {
      assert Since(ws, j, n, c) == [];
    } else {
      CountIsHistory(q, ws, calls, j, n - 1, c);
      SinceGrows(q, ws, calls, j, n - 1, c);
      RunIsSound(q, ws, calls, n - 1);
    }
  }

  /** The point at which a breaker became half open. */
  ghost predicate BecameHalfOpen(q: Setup, ws: seq<World>, j: nat, c: string)
    requires q.Valid()
  {
    && 0 < j < |ws|
    && StateAt(ws[j - 1], c).state == OPEN
    && StateAt(ws[j], c) == BreakerSnapshot(HALF_OPEN, StateAt(ws[j - 1], c).openedAt, 0)
    && ws[j - 1].db.now - StateAt(ws[j], c).openedAt >= q.config.breaker.openMs
  }

  lemma {:induction false} FindBecame(q: Setup, ws: seq<World>, calls: seq<Call>, n: nat, c: string) returns (j: nat)
    requires Run(q, ws, calls) && n < |ws| && StateAt(ws[n], c).state == HALF_OPEN
    ensures j <= n && BecameHalfOpen(q, ws, j, c) && HalfOpenFrom(ws, j, n, c)
    decreases n
  {
    hide Sound, Next, StateAt;
    if n == 0 {
      StartIsClosed(c);
      assert false;
    } else {
      RunIsSound(q, ws, calls, n - 1);
      assert Moves(q, StateAt(ws[n - 1], c), StateAt(ws[n], c), OwnOutcome(q, ws[n - 1], calls[n - 1], c), ws[n].log,
        c, ws[n - 1].db.now);
      if StateAt(ws[n - 1], c).state == HALF_OPEN {
        j := FindBecame(q, ws, calls, n - 1, c);
      } else {
        j := n;
      }
    }
  }

  lemma StartIsClosed(c: string)
    ensures StateAt(START, c).state == CLOSED
  {
    assert START.db.Fields(Breaker(c)) == map[];
  }

  /** Half open from `j` to `n`, with exactly `count` outcomes from `j` to `m`, and no failure among them. */
  predicate ProbeRun(ws: seq<World>, j: nat, n: nat, m: nat, c: string, count: int) {
    && j <= n < |ws| && j <= m < |ws| && HalfOpenFrom(ws, j, n, c)
    && AllTrue(Since(ws, j, m, c)) && |Since(ws, j, m, c)| == count
  }

  /**
    * The exact probe history. A half-open breaker with k good probes became half
    * open at a definite point, at least `openMs` after it opened, and since then
    * exactly k outcomes were applied to its channel, all of them successes.
    */
  lemma ProbeHistory(q: Setup, ws: seq<World>, calls: seq<Call>, n: nat, c: string)
    requires Run(q, ws, calls) && n < |ws|
    ensures
      StateAt(ws[n], c).state == HALF_OPEN ==>
        exists j: nat ::
          j <= n && BecameHalfOpen(q, ws, j, c) && ProbeRun(ws, j, n, n, c, StateAt(ws[n], c).probeSuccess)
  {
    hide StateAt;
    if StateAt(ws[n], c).state == HALF_OPEN {
      var j := FindBecame(q, ws, calls, n, c);
      CountIsHistory(q, ws, calls, j, n, c);
      assert ProbeRun(ws, j, n, n, c, StateAt(ws[n], c).probeSuccess);
    }
  }

  /**
    * A breaker closes only from half open, and only with exactly `probesToClose`
    * successes in a row since it became half open.
    */
  lemma ClosingNeedsProbes(q: Setup, ws: seq<World>, calls: seq<Call>, n: nat, c: string)
    requires Run(q, ws, calls) && n < |calls|
    ensures
      StateAt(ws[n], c).state != CLOSED && StateAt(ws[n + 1], c).state == CLOSED ==>
        exists j: nat ::
          j <= n && BecameHalfOpen(q, ws, j, c) && ProbeRun(ws, j, n, n + 1, c, q.config.breaker.probesToClose)
  {
    hide StateAt, Next;
    if StateAt(ws[n], c).state != CLOSED && StateAt(ws[n + 1], c).state == CLOSED {
      RunIsSound(q, ws, calls, n);
      assert Moves(q, StateAt(ws[n], c), StateAt(ws[n + 1], c), OwnOutcome(q, ws[n], calls[n], c), ws[n + 1].log, c,
        ws[n].db.now);
      assert WellFormed(StateAt(ws[n], c), q.config, ws[n].db.now);
      var j := FindBecame(q, ws, calls, n, c);
      CountIsHistory(q, ws, calls, j, n, c);
      SinceGrows(q, ws, calls, j, n, c);
      assert ProbeRun(ws, j, n, n + 1, c, q.config.breaker.probesToClose);
    }
  }

  /** Recovery: once the missing successes have been applied without a failure, the breaker has closed. */
  lemma {:induction false} ProbesClose(q: Setup, ws: seq<World>, calls: seq<Call>, j: nat, n: nat, c: string)
    requires Run(q, ws, calls) && j <= n < |ws| && StateAt(ws[j], c).state == HALF_OPEN
    requires AllTrue(Since(ws, j, n, c))
    requires |Since(ws, j, n, c)| >= q.config.breaker.probesToClose - StateAt(ws[j], c).probeSuccess
    ensures exists i :: j < i <= n && StateAt(ws[i], c).state == CLOSED
    decreases n - j
  {
    hide StateAt, Next, Since;
    RunIsSound(q, ws, calls, j);
    assert WellFormed(StateAt(ws[j], c), q.config, ws[j].db.now);
    SinceSplits(q, ws, calls, j, n, c);
    var own := OwnOutcome(q, ws[j], calls[j], c);
    assert Moves(q, StateAt(ws[j], c), StateAt(ws[j + 1], c), own, ws[j + 1].log, c, ws[j].db.now);
    if own.Some? {
      assert Since(ws, j, n, c)[0] == own.value;
      assert own.value;
    }
    if StateAt(ws[j + 1], c).state == HALF_OPEN {
      var rest := Since(ws, j + 1, n, c);
      forall i | 0 <= i < |rest| ensures rest[i] {
        assert rest[i] == Since(ws, j, n, c)[if own.Some? then i + 1 else i];
      }
      ProbesClose(q, ws, calls, j + 1, n, c);
    }
  }

  /** The first call of a stretch gives the first outcome of its history. */
  lemma {:induction false} SinceSplits(q: Setup, ws: seq<World>, calls: seq<Call>, j: nat, n: nat, c: string)
    requires Run(q, ws, calls) && j <= n < |ws| && |ws| == |calls| + 1
    ensures j == n ==> Since(ws, j, n, c) == []
    ensures j < n ==>
      var own := OwnOutcome(q, ws[j], calls[j], c);
      Since(ws, j, n, c) == (if own.Some? then [own.value] else []) + Since(ws, j + 1, n, c)
    decreases n
  {
    hide Sound, Next, Moves, OwnOutcome, Since, Run;
    SinceSelf(ws, j, c);
    if j + 1 == n {
      SinceSelf(ws, n, c);
      SinceGrows(q, ws, calls, j, j, c);
    } else if j < n {
      SinceSplits(q, ws, calls, j, n - 1, c);
      SinceGrows(q, ws, calls, j, n - 1, c);
      SinceGrows(q, ws, calls, j + 1, n - 1, c);
    }
  }

  lemma SinceSelf(ws: seq<World>, j: nat, c: string)
    requires j < |ws|
    ensures Since(ws, j, j, c) == []
  {
  }

  // ---------- A failed probe ----------

  /** A failed outcome opens a half-open breaker at the moment of that outcome. */
  lemma FailedProbeOpens(q: Setup, ws: seq<World>, calls: seq<Call>, n: nat, c: string)
    requires Run(q, ws, calls) && n < |calls|
    ensures
      StateAt(ws[n], c).state == HALF_OPEN && OwnOutcome(q, ws[n], calls[n], c) == Some(false) ==>
        StateAt(ws[n + 1], c) == BreakerSnapshot(OPEN, ws[n].db.now, 0)
  {
    hide StateAt, Next, Sound;
    RunIsSound(q, ws, calls, n);
  }

  /** And it stays open, whatever is called, until `openMs` after the failed probe. */
  lemma FailedProbeHolds(q: Setup, ws: seq<World>, calls: seq<Call>, n: nat, m: nat, c: string)
    requires Run(q, ws, calls) && n < m < |ws|
    requires StateAt(ws[n], c).state == HALF_OPEN && OwnOutcome(q, ws[n], calls[n], c) == Some(false)
    ensures ws[m].db.now - ws[n].db.now < q.config.breaker.openMs ==>
      StateAt(ws[m], c) == BreakerSnapshot(OPEN, ws[n].db.now, 0)
  {
    hide StateAt, Next;
    FailedProbeOpens(q, ws, calls, n, c);
    OpenLasts(q, ws, calls, n + 1, m, c);
  }

  // ---------- Fresh evidence ----------

  /** Once a breaker has left OPEN, at least `openMs` have passed since it opened. */
  lemma {:induction false} OpenLasts(q: Setup, ws: seq<World>, calls: seq<Call>, i: nat, n: nat, c: string)
    requires Run(q, ws, calls) && i <= n < |ws| && StateAt(ws[i], c).state == OPEN
    ensures StateAt(ws[n], c) == StateAt(ws[i], c)
      || ws[n].db.now - StateAt(ws[i], c).openedAt >= q.config.breaker.openMs
    decreases n
  {
    hide StateAt, Next, Sound;
    if i < n {
      OpenLasts(q, ws, calls, i, n - 1, c);
      LogGrows(q, ws, calls, n - 1, n);
      RunIsSound(q, ws, calls, n - 1);
      assert Moves(q, StateAt(ws[n - 1], c), StateAt(ws[n], c), OwnOutcome(q, ws[n - 1], calls[n - 1], c), ws[n].log,
        c, ws[n - 1].db.now);
    }
  }

  /**
    * Fresh evidence. With `openMs` at least as long as the window, a breaker
    * that was open and later opens again from CLOSED does so on outcomes that
    * were all applied after the earlier opening.
    */
  lemma FreshEvidence(q: Setup, ws: seq<World>, calls: seq<Call>, i: nat, n: nat, c: string)
    requires Run(q, ws, calls) && i <= n < |calls|
    requires q.config.breaker.openMs >= q.G().SpanMs()
    ensures
      StateAt(ws[i], c).state == OPEN && StateAt(ws[n], c).state == CLOSED && StateAt(ws[n + 1], c).state == OPEN ==>
        && BadNow(q, ws[n + 1].log, c, ws[n].db.now)
        && forall e :: e in Recent(ws[n + 1].log, q.G(), c, ws[n].db.now) ==> e.at > StateAt(ws[i], c).openedAt
  {
    hide StateAt, Next, Sound, BadNow, Recent;
    if StateAt(ws[i], c).state == OPEN && StateAt(ws[n], c).state == CLOSED && StateAt(ws[n + 1], c).state == OPEN {
      OpenLasts(q, ws, calls, i, n, c);
      RunIsSound(q, ws, calls, n);
      assert Moves(q, StateAt(ws[n], c), StateAt(ws[n + 1], c), OwnOutcome(q, ws[n], calls[n], c), ws[n + 1].log, c,
        ws[n].db.now);
      var g, now := q.G(), ws[n].db.now;
      forall e | e in Recent(ws[n + 1].log, g, c, now) ensures e.at > StateAt(ws[i], c).openedAt {
        CountsIsYoung(g, e.at, now);
      }
    }
  }

  lemma CountsIsYoung(g: Geometry, at: int, now: int)
    requires g.Valid() && Counts(g, at, now)
    ensures now - at < g.SpanMs()
  {
    hide BucketIdAt, BucketCount;
    CountedTogether(g, at, now, now);
  }

  /** An outcome from before an opening does not count once the breaker may have left OPEN. */
  ghost predicate StaysOut(g: Geometry, openMs: int, at: int, openedAt: int, now: int)
    requires g.Valid()
  {
    0 <= at <= openedAt && openedAt + openMs <= now ==> !Counts(g, at, now)
  }

  /** The hypothesis is exact: with a shorter `openMs`, an outcome from before the opening can still count after it. */
  lemma FreshExactly(g: Geometry, openMs: int)
    requires g.Valid() && openMs > 0
    ensures openMs >= g.SpanMs() <==> forall at, openedAt, now :: StaysOut(g, openMs, at, openedAt, now)
  {
    hide Counts;
    if openMs >= g.SpanMs() {
      forall at, openedAt, now ensures StaysOut(g, openMs, at, openedAt, now) {
        if Counts(g, at, now) {
          CountsIsYoung(g, at, now);
        }
      }
    } else {
      ZeroStillCounts(g, openMs);
      assert !StaysOut(g, openMs, 0, 0, openMs);
    }
  }

  lemma ZeroStillCounts(g: Geometry, openMs: int)
    requires g.Valid() && 0 < openMs < g.SpanMs()
    ensures Counts(g, 0, openMs)
  {
    hide BucketIdAt, BucketCount;
    BucketInWindow(g, 0, openMs);
    BucketOfZero(g);
  }

  lemma BucketOfZero(g: Geometry)
    requires g.Valid()
    ensures g.Bucket(0) == 0
  {
    var b, m := g.Bucket(0), g.bucketMs;
    if b < 0 {
      MulMono(b + 1, 0, m);
    }
    if b > 0 {
      MulMono(1, b, m);
    }
  }
}
