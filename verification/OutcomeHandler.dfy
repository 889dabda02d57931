/** Applies one outcome event: claim it, record it, and move the breaker. */
module OutcomeHandler {
  import opened Types
  import opened Keys
  import opened Redis
  import opened Window
  import WindowStore
  import opened Breaker
  import BreakerStore
  import ProcessedStore

  datatype Event = Event(schemaVersion: int, eventId: string, channelId: string, success: bool, latencyMs: nat)

  /** A message either breaks the contract or is a well-formed event. */
  datatype Message = Broken(detail: string) | Valid(event: Event)

  datatype HandleOutcome =
    | Applied(channelId: string, breaker: BreakerSnapshot)
    | Duplicate(eventId: string)
    | IgnoredVersion(schemaVersion: int)
    | IgnoredChannel(channelId: string)
    | ContractBreak(detail: string)

  const MAX_SUPPORTED_SCHEMA_VERSION := 1

  function WriteIfChanged(db: Db, c: string, current: BreakerSnapshot, next: BreakerSnapshot): Db {
    if next == current then db else BreakerStore.Written(db, c, next)
  }

  /** How the breaker of a channel moves after an outcome was recorded. */
  function Moved(db: Db, config: RoutingConfig, c: string, success: bool, now: int): BreakerSnapshot
    requires GeometryOf(config).Valid()
  {
    var current := BreakerStore.BreakerAt(db, c);
    if current.state == HALF_OPEN then RecordProbe(current, success, config, now)
    else EvaluateBreaker(current, WindowStore.StatsIn(db, GeometryOf(config), c, now), config, now)
  }

  function AppliedToBreaker(db: Db, config: RoutingConfig, c: string, success: bool, now: int): Db
    requires GeometryOf(config).Valid()
  {
    var current := BreakerStore.BreakerAt(db, c);
    var written := WriteIfChanged(db, c, current, Moved(db, config, c, success, now));
    if current.state == HALF_OPEN then written.Del(Probe(c)) else written
  }

  /** The store after the claim and the record of one event. */
  function AfterRecord(db: Db, config: RoutingConfig, ttlSeconds: int, now: int, e: Event): Db
    requires GeometryOf(config).Valid()
  {
    WindowStore.Recorded(ProcessedStore.Claim(db, e.eventId, ttlSeconds).0, GeometryOf(config), e.channelId,
      e.success, e.latencyMs, now)
  }

  /** One call of `handle` with every store operation succeeding. */
  function Handle(db: Db, config: RoutingConfig, ttlSeconds: int, now: int, known: bool, msg: Message): (Db,
      HandleOutcome)
    requires GeometryOf(config).Valid()
  {
    match msg
    case Broken(detail) => (db, ContractBreak(detail))
    case Valid(e) =>
      if e.schemaVersion > MAX_SUPPORTED_SCHEMA_VERSION then (db, IgnoredVersion(e.schemaVersion))
      else if !known then (db, IgnoredChannel(e.channelId))
      else if !ProcessedStore.Claim(db, e.eventId, ttlSeconds).1 then (db, Duplicate(e.eventId))
      else
        var recorded := AfterRecord(db, config, ttlSeconds, now, e);
        (AppliedToBreaker(recorded, config, e.channelId, e.success, now),
         Applied(e.channelId, Moved(recorded, config, e.channelId, e.success, now)))
  }

  /**
    * What one call answers, and for which messages. A message that is broken, of a
    * version above one, for an unknown channel, or already claimed changes nothing.
    */
  lemma HandleAnswers(db: Db, config: RoutingConfig, ttlSeconds: int, now: int, known: bool, msg: Message)
    requires GeometryOf(config).Valid()
    ensures
      var (after, outcome) := Handle(db, config, ttlSeconds, now, known, msg);
      && (msg.Broken? ==> outcome == ContractBreak(msg.detail))
      && (msg.Valid? ==>
            var e := msg.event;
            if e.schemaVersion > 1 then outcome == IgnoredVersion(e.schemaVersion)
            else if !known then outcome == IgnoredChannel(e.channelId)
            else if db.Live(Processed(e.eventId)) then outcome == Duplicate(e.eventId)
            else outcome.Applied? && outcome.channelId == e.channelId)
      && (!outcome.Applied? ==> after == db)
  {
    hide AppliedToBreaker, AfterRecord, Moved;
  }

  predicate SameSnapshot(a: BreakerSnapshot, b: BreakerSnapshot) {
    a.state == b.state && a.openedAt == b.openedAt && a.probeSuccess == b.probeSuccess
  }

  class Handler {
    const server: Server
    const windows: WindowStore.Store
    const breakers: BreakerStore.Store
    const processed: ProcessedStore.RedisProcessedStore
    const config: RoutingConfig

    ghost predicate Wired() {
      && windows.server == server && breakers.server == server && processed.server == server
      && windows.g == GeometryOf(config) && windows.g.Valid()
    }

    constructor (server: Server, windows: WindowStore.Store, breakers: BreakerStore.Store,
                 processed: ProcessedStore.RedisProcessedStore, config: RoutingConfig)
      requires windows.server == server && breakers.server == server && processed.server == server
      requires windows.g == GeometryOf(config) && windows.g.Valid()
      ensures Wired() && this.server == server && this.config == config && this.processed == processed
    {
      this.server, this.windows, this.breakers, this.processed, this.config := server, windows, breakers, processed,
        config;
    }

    method HandleMessage(msg: Message, known: bool, now: int) returns (outcome: HandleOutcome)
      requires Wired()
      modifies server
      ensures (server.db, outcome) == Handle(old(server.db), config, processed.ttlSeconds, now, known, msg)
    {
      hide Moved, AppliedToBreaker, WindowStore.Recorded, ProcessedStore.Claim;
      if msg.Broken? {
        return ContractBreak(msg.detail);
      }
      var event := msg.event;
      if event.schemaVersion > MAX_SUPPORTED_SCHEMA_VERSION {
        return IgnoredVersion(event.schemaVersion);
      }
      if !known {
        return IgnoredChannel(event.channelId);
      }
      ghost var before := server.db;
      var claimed := processed.TryClaim(event.eventId);
      if !claimed {
        ProcessedStore.FailedClaim(before, event.eventId, processed.ttlSeconds);
        return Duplicate(event.eventId);
      }
      windows.Record(event.channelId, event.success, event.latencyMs, now);
      var breaker := ApplyToBreaker(event.channelId, event.success, now);
      return Applied(event.channelId, breaker);
    }

    method ApplyToBreaker(channelId: string, success: bool, now: int) returns (next: BreakerSnapshot)
      requires Wired()
      modifies server
      ensures next == Moved(old(server.db), config, channelId, success, now)
      ensures server.db == AppliedToBreaker(old(server.db), config, channelId, success, now)
    {
      hide BreakerStore.BreakerAt, BreakerStore.Written, EvaluateBreaker, RecordProbe, WindowStore.StatsIn;
      var current := breakers.Read(channelId);
      // A half-open breaker moves on the probe result only.
      if current.state == HALF_OPEN {
        next := RecordProbe(current, success, config, now);
        if !SameSnapshot(current, next) {
          breakers.Write(channelId, next);
        }
        breakers.ReleaseProbeSlot(channelId);
        return;
      }
      var stats := windows.Read(channelId, now);
      next := EvaluateBreaker(current, stats, config, now);
      if !SameSnapshot(current, next) {
        breakers.Write(channelId, next);
      }
    }
  }
}
