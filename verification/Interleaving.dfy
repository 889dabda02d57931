/**
  * The routers and the outcome handlers as processes. Every store operation is
  * one step, and the steps of any number of processes interleave: a process may
  * work with a stale snapshot, and it may stop for good between any two steps.
  */
module Interleaving {
  import opened Types
  import opened Keys
  import opened Redis
  import opened Window
  import opened WindowLog
  import WindowStore
  import opened Breaker
  import BreakerStore
  import ProcessedStore
  import opened OutcomeHandler
  import Routing

  /**
    * The configuration, and the delays within which a process on time goes on after
    * it read the clock (`lag`) or claimed an event (`delay`).
    */
  datatype Params = Params(config: RoutingConfig, ttlSeconds: int, lag: nat, delay: nat) {
    function G(): Geometry {
      GeometryOf(config)
    }

    predicate Valid() {
      G().Valid() && config.breaker.probesToClose > 0 && config.breaker.openMs > 0
    }
  }

  /** A snapshot and, as history, the log positions of the outcomes that its probe count stands for. */
  datatype Tagged = Tagged(snap: BreakerSnapshot, probes: set<nat>)

  /** Where one call of `handle` stands, past the checks of the message. */
  datatype HandlerState =
    | Claiming(ev: Event)
    | Clocking(ev: Event, claim: nat)
    | Recording(ev: Event, claim: nat, now: int)
    | ReadingBreaker(ev: Event, now: int, own: nat)
    | ReadingWindow(ev: Event, now: int, current: Tagged)
    | Writing(ev: Event, next: Tagged, release: bool)
    | Releasing(ev: Event, next: Tagged)
    | Finished(ev: Event, applied: Option<BreakerSnapshot>)

  /** Where one call of `route` stands, up to its probe slot. */
  datatype RouterState =
    | ReadingStats(ids: seq<string>, now: int)
    | ReadingBreakers(ids: seq<string>, now: int, stats: map<string, ChannelStats>)
    | Refreshing(ids: seq<string>, now: int, stats: map<string, ChannelStats>, current: map<string, Tagged>,
      next: map<string, Tagged>, i: nat)
    | Routed(next: map<string, Tagged>, slot: Option<string>)

  /** A successful claim of an event. */
  datatype ClaimRecord = ClaimRecord(eventId: string, at: int)

  /**
    * The store, the processes, and the history: the applied outcomes, the claim
    * of each outcome, the claims whose process stopped before it recorded, and
    * the outcomes that were already used as a probe result.
    */
  datatype Sys = Sys(
    db: Db,
    log: seq<Applied>,
    claims: seq<ClaimRecord>,
    owner: seq<nat>,
    lost: set<nat>,
    spent: set<nat>,
    tags: map<string, set<nat>>,
    handlers: map<nat, HandlerState>,
    routers: map<nat, RouterState>)

  const INIT := Sys(EMPTY, [], [], [], {}, {}, map[], map[], map[])

  datatype Action =
    | StartHandler(pid: nat, ev: Event)
    | StepHandler(pid: nat)
    | CrashHandler(pid: nat)
    | StartRouter(pid: nat, ids: seq<string>)
    | StepRouter(pid: nat, landed: bool)
    | AskSlot(pid: nat, channelId: string)
    | CrashRouter(pid: nat)
    | Advance(ms: nat)
    | Evict(keys: set<Key>)

  function TagOf(s: Sys, c: string): set<nat> {
    if c in s.tags then s.tags[c] else {}
  }

  function ReadTagged(s: Sys, c: string): Tagged {
    Tagged(BreakerStore.BreakerAt(s.db, c), TagOf(s, c))
  }

  function WriteTagged(s: Sys, c: string, t: Tagged): Sys {
    s.(db := BreakerStore.Written(s.db, c, t.snap), tags := s.tags[c := t.probes])
  }

  /** A probe result, with its own outcome added to the history of the count. */
  function ProbeTagged(t: Tagged, success: bool, config: RoutingConfig, now: int, own: nat): Tagged {
    var next := RecordProbe(t.snap, success, config, now);
    Tagged(next, if next.state == HALF_OPEN then t.probes + {own} else {})
  }

  /** A window evaluation. Only an unchanged snapshot keeps its history. */
  function EvaluateTagged(t: Tagged, stats: ChannelStats, config: RoutingConfig, now: int): Tagged {
    var next := EvaluateBreaker(t.snap, stats, config, now);
    if next == t.snap then t else Tagged(next, {})
  }

  function Outcome(ev: Event, now: int): Applied {
    WindowLog.Applied.Applied(ev.channelId, ev.eventId, now, ev.success, ev.latencyMs)
  }

  function SetHandler(s: Sys, pid: nat, h: HandlerState): Sys {
    s.(handlers := s.handlers[pid := h])
  }

  function SetRouter(s: Sys, pid: nat, r: RouterState): Sys {
    s.(routers := s.routers[pid := r])
  }

  function ClaimStep(p: Params, s: Sys, pid: nat, ev: Event): Sys {
    var (db, ok) := ProcessedStore.Claim(s.db, ev.eventId, p.ttlSeconds);
    if ok then
      SetHandler(s.(db := db, claims := s.claims + [ClaimRecord(ev.eventId, s.db.now)]), pid, Clocking(ev, |s.claims|))
    else SetHandler(s, pid, Finished(ev, None))
  }

  function RecordStep(p: Params, s: Sys, pid: nat, ev: Event, claim: nat, now: int): Sys
    requires p.Valid()
  {
    SetHandler(
      s.(db := WindowStore.Recorded(s.db, p.G(), ev.channelId, ev.success, ev.latencyMs, now),
         log := s.log + [Outcome(ev, now)],
         owner := s.owner + [claim]),
      pid, ReadingBreaker(ev, now, |s.log|))
  }

  function ReadBreakerStep(p: Params, s: Sys, pid: nat, ev: Event, now: int, own: nat): Sys {
    var current := ReadTagged(s, ev.channelId);
    if current.snap.state != HALF_OPEN then SetHandler(s, pid, ReadingWindow(ev, now, current))
    else
      var next := ProbeTagged(current, ev.success, p.config, now, own);
      var used := s.(spent := s.spent + {own});
      SetHandler(used, pid, if next.snap != current.snap then Writing(ev, next, true) else Releasing(ev, next))
  }

  function ReadWindowStep(p: Params, s: Sys, pid: nat, ev: Event, now: int, current: Tagged): Sys
    requires p.Valid()
  {
    var next := EvaluateTagged(current, WindowStore.StatsIn(s.db, p.G(), ev.channelId, now), p.config, now);
    SetHandler(s, pid, if next.snap != current.snap then Writing(ev, next, false) else Finished(ev, Some(next.snap)))
  }

  function WriteStep(s: Sys, pid: nat, ev: Event, next: Tagged, release: bool): Sys {
    SetHandler(WriteTagged(s, ev.channelId, next), pid,
               if release then Releasing(ev, next) else Finished(ev, Some(next.snap)))
  }

  function ReleaseStep(s: Sys, pid: nat, ev: Event, next: Tagged): Sys {
    SetHandler(s.(db := s.db.Del(Probe(ev.channelId))), pid, Finished(ev, Some(next.snap)))
  }

  function HandlerStep(p: Params, s: Sys, pid: nat): Sys
    requires p.Valid()
  {
    if pid !in s.handlers then s
    else match s.handlers[pid]
      case Claiming(ev) => ClaimStep(p, s, pid, ev)
      case Clocking(ev, claim) => SetHandler(s, pid, Recording(ev, claim, s.db.now))
      case Recording(ev, claim, now) => RecordStep(p, s, pid, ev, claim, now)
      case ReadingBreaker(ev, now, own) => ReadBreakerStep(p, s, pid, ev, now, own)
      case ReadingWindow(ev, now, current) => ReadWindowStep(p, s, pid, ev, now, current)
      case Writing(ev, next, release) => WriteStep(s, pid, ev, next, release)
      case Releasing(ev, next) => ReleaseStep(s, pid, ev, next)
      case Finished(_, _) => s
  }

  /** One turn of the refresh loop. The write of a change may fail, and the loop goes on. */
  function RefreshStep(p: Params, s: Sys, pid: nat, r: RouterState, landed: bool): Sys
    requires r.Refreshing? && r.i < |r.ids|
  {
    var id := r.ids[r.i];
    if id !in r.current || id !in r.stats then s
    else
      var before := r.current[id];
      var after := EvaluateTagged(before, r.stats[id], p.config, r.now);
      var written := if Routing.Changed(before.snap, after.snap) && landed then WriteTagged(s, id, after) else s;
      SetRouter(written, pid, r.(next := r.next[id := after], i := r.i + 1))
  }

  function RouterStep(p: Params, s: Sys, pid: nat, landed: bool): Sys
    requires p.Valid()
  {
    if pid !in s.routers then s
    else
      var r := s.routers[pid];
      match r
      case ReadingStats(ids, now) =>
        SetRouter(s, pid, ReadingBreakers(ids, now, Routing.ReadStats(s.db, p.config, ids, now)))
      case ReadingBreakers(ids, now, stats) =>
        SetRouter(s, pid, Refreshing(ids, now, stats, map c | c in ids :: ReadTagged(s, c), map[], 0))
      case Refreshing(ids, _, _, _, next, i) =>
        if i < |ids| then RefreshStep(p, s, pid, r, landed) else SetRouter(s, pid, Routed(next, None))
      case Routed(_, _) => s
  }

  /** Asking for the slot of a channel that this call saw half open. */
  function SlotStep(s: Sys, pid: nat, c: string): Sys {
    if pid in s.routers && s.routers[pid].Routed? && s.routers[pid].slot.None?
       && c in s.routers[pid].next && s.routers[pid].next[c].snap.state == HALF_OPEN then
      var (db, ok) := s.db.SetNx(Probe(c), BreakerStore.SLOT_TEXT, Routing.PROBE_SLOT_TTL_MS);
      SetRouter(s.(db := db), pid, s.routers[pid].(slot := if ok then Some(c) else None))
    else s
  }

  predicate HoldsClaim(h: HandlerState) {
    h.Clocking? || h.Recording?
  }

  function CrashStep(s: Sys, pid: nat): Sys {
    if pid !in s.handlers then s
    else
      var h := s.handlers[pid];
      s.(handlers := s.handlers - {pid}, lost := s.lost + if HoldsClaim(h) then {h.claim} else {})
  }

  function Next(p: Params, s: Sys, a: Action): Sys
    requires p.Valid()
  {
    match a
    case StartHandler(pid, ev) => if pid in s.handlers then s else SetHandler(s, pid, Claiming(ev))
    case StepHandler(pid) => HandlerStep(p, s, pid)
    case CrashHandler(pid) => CrashStep(s, pid)
    case StartRouter(pid, ids) => if pid in s.routers then s else SetRouter(s, pid, ReadingStats(ids, s.db.now))
    case StepRouter(pid, landed) => RouterStep(p, s, pid, landed)
    case AskSlot(pid, c) => SlotStep(s, pid, c)
    case CrashRouter(pid) => s.(routers := s.routers - {pid})
    case Advance(ms) => s.(db := s.db.Advance(ms))
    case Evict(keys) => s.(db := s.db.Evict(keys))
  }

  /** A step that uses an old clock reading or an old claim comes within the delays. */
  predicate InTime(p: Params, s: Sys, a: Action) {
    match a
    case StepHandler(pid) =>
      pid in s.handlers ==>
        (match s.handlers[pid]
         case Clocking(_, claim) => claim < |s.claims| ==> s.db.now <= s.claims[claim].at + p.delay
         case Recording(_, _, now) => s.db.now <= now + p.lag
         case ReadingWindow(_, now, _) => s.db.now <= now + p.lag
         case _ => true)
    case StepRouter(pid, _) =>
      pid in s.routers && s.routers[pid].ReadingStats? ==> s.db.now <= s.routers[pid].now + p.lag
    case _ => true
  }

  /** A run: states, and the action between each two of them. A process may take any time between its steps. */
  ghost predicate Run(p: Params, states: seq<Sys>, actions: seq<Action>) {
    && p.Valid()
    && |states| == |actions| + 1 && states[0] == INIT
    && (forall i :: 0 <= i < |actions| ==> states[i + 1] == Next(p, states[i], actions[i]))
  }

  /** Every step of the run comes within the delays, and the window bears the lag. */
  ghost predicate OnTime(p: Params, states: seq<Sys>, actions: seq<Action>)
    requires p.Valid() && |states| == |actions| + 1
  {
    Timely(p.G(), p.lag) && forall i :: 0 <= i < |actions| ==> InTime(p, states[i], actions[i])
  }
}
