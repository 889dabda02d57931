/**
  * Breaker safety under every interleaving. Every snapshot, stored or held by a
  * process, is well formed, and its probe count stands for distinct successful
  * outcomes, however slow the processes are. When they are on time (`timed`), the
  * window follows the log, and whatever is not closed has evidence for its opening.
  */
module InterleavedSafety {
  import opened Types
  import opened Keys
  import opened Redis
  import opened Window
  import opened WindowLog
  import opened Breaker
  import BreakerStore
  import ProcessedStore
  import opened Interleaving

  /** A failed outcome of the channel with clock reading `at`, which a half-open breaker used as its probe result. */
  ghost predicate FailedProbe(log: seq<Applied>, spent: set<nat>, c: string, at: int) {
    exists i: nat :: i < |log| && i in spent && log[i].channelId == c && !log[i].success && log[i].at == at
  }

  /** When the log had `k` entries, the window at `at` was bad enough to open the breaker. */
  ghost predicate BadWindow(config: RoutingConfig, log: seq<Applied>, k: int, c: string, at: int)
    requires GeometryOf(config).Valid()
  {
    0 <= k <= |log| &&
    var recent := Recent(log[..k], GeometryOf(config), c, at);
    Bad(Tally(recent, true), |recent|, config)
  }

  ghost predicate Evidence(config: RoutingConfig, log: seq<Applied>, spent: set<nat>, c: string, at: int)
    requires GeometryOf(config).Valid()
  {
    FailedProbe(log, spent, c, at) || exists k :: BadWindow(config, log, k, c, at)
  }

  /**
    * The probe count is the number of distinct log positions, each a successful outcome
    * of the channel that was used once.
    */
  ghost predicate CountsSuccesses(log: seq<Applied>, spent: set<nat>, c: string, t: Tagged) {
    && |t.probes| == t.snap.probeSuccess
    && t.probes <= spent
    && forall i :: i in t.probes ==> i < |log| && log[i].channelId == c && log[i].success
  }

  /** A good snapshot. Its form and its probe count need no timing; the evidence for its opening does. */
  ghost predicate Good(timed: bool, config: RoutingConfig, log: seq<Applied>, spent: set<nat>, now: int, c: string,
      t: Tagged)
    requires GeometryOf(config).Valid()
  {
    && WellFormed(t.snap, config, now)
    && CountsSuccesses(log, spent, c, t)
    && (timed && t.snap.state != CLOSED ==> Evidence(config, log, spent, c, t.snap.openedAt))
  }

  /** The history only grows. */
  ghost predicate Grows(s: Sys, t: Sys) {
    && s.log <= t.log && s.spent <= t.spent && s.claims <= t.claims && s.db.now <= t.db.now
  }

  lemma EvidenceLasts(config: RoutingConfig, log: seq<Applied>, longer: seq<Applied>, spent: set<nat>, more: set<nat>,
      c: string, at: int)
    requires GeometryOf(config).Valid() && log <= longer && spent <= more && Evidence(config, log, spent, c, at)
    ensures Evidence(config, longer, more, c, at)
  {
    if FailedProbe(log, spent, c, at) {
      var i: nat :| i < |log| && i in spent && log[i].channelId == c && !log[i].success && log[i].at == at;
      assert longer[i] == log[i] && i in more;
    } else {
      var k :| BadWindow(config, log, k, c, at);
      assert longer[..k] == log[..k];
      assert BadWindow(config, longer, k, c, at);
    }
  }

  lemma GoodLasts(timed: bool, config: RoutingConfig, s: Sys, t: Sys, c: string, x: Tagged)
    requires GeometryOf(config).Valid() && Grows(s, t) && Good(timed, config, s.log, s.spent, s.db.now, c, x)
    ensures Good(timed, config, t.log, t.spent, t.db.now, c, x)
  {
    hide Evidence;
    if timed && x.snap.state != CLOSED {
      EvidenceLasts(config, s.log, t.log, s.spent, t.spent, c, x.snap.openedAt);
    }
  }

  /** Window numbers that were read when the log had `k` entries. */
  ghost predicate StatsAsOf(config: RoutingConfig, log: seq<Applied>, k: int, c: string, stats: ChannelStats, now: int)
    requires GeometryOf(config).Valid()
  {
    0 <= k <= |log| && stats == LogStats(log[..k], GeometryOf(config), c, now)
  }

  ghost predicate StatsRead(config: RoutingConfig, log: seq<Applied>, c: string, stats: ChannelStats, now: int)
    requires GeometryOf(config).Valid()
  {
    exists k :: StatsAsOf(config, log, k, c, stats, now)
  }

  lemma StatsLast(config: RoutingConfig, log: seq<Applied>, longer: seq<Applied>, c: string, stats: ChannelStats,
      now: int)
    requires GeometryOf(config).Valid() && log <= longer && StatsRead(config, log, c, stats, now)
    ensures StatsRead(config, longer, c, stats, now)
  {
    var k :| StatsAsOf(config, log, k, c, stats, now);
    assert longer[..k] == log[..k];
    assert StatsAsOf(config, longer, k, c, stats, now);
  }

  /** Evaluating a good snapshot with numbers that were truly read gives a good snapshot. */
  lemma EvaluateStaysGood(timed: bool, config: RoutingConfig, log: seq<Applied>, spent: set<nat>, clock: int,
      c: string, t: Tagged, stats: ChannelStats, now: int)
    requires GeometryOf(config).Valid() && config.breaker.probesToClose > 0
    requires Good(timed, config, log, spent, clock, c, t) && (timed ==> StatsRead(config, log, c, stats, now))
      && 0 <= now <= clock
    ensures Good(timed, config, log, spent, clock, c, EvaluateTagged(t, stats, config, now))
  {
    hide Bad, Recent, LogStats;
    EvaluateKeepsForm(t.snap, stats, config, now, clock);
    EvaluateMoves(t.snap, stats, config, now);
    var next := EvaluateBreaker(t.snap, stats, config, now);
    if timed && next != t.snap && t.snap.state == CLOSED {
      var k :| StatsAsOf(config, log, k, c, stats, now);
      StatsToBad(config, log, k, c, stats, now);
    }
  }

  lemma StatsToBad(config: RoutingConfig, log: seq<Applied>, k: int, c: string, stats: ChannelStats, now: int)
    requires GeometryOf(config).Valid() && StatsAsOf(config, log, k, c, stats, now)
    requires Bad(stats.success, stats.success + stats.failure, config)
    ensures BadWindow(config, log, k, c, now)
  {
    hide Recent, SamplesOver;
    TallySplits(Recent(log[..k], GeometryOf(config), c, now));
  }

  /** Applying an unused outcome as a probe result gives a good snapshot. */
  lemma ProbeStaysGood(timed: bool, config: RoutingConfig, log: seq<Applied>, spent: set<nat>, clock: int, c: string,
      t: Tagged, own: nat)
    requires GeometryOf(config).Valid()
    requires Good(timed, config, log, spent, clock, c, t) && t.snap.state == HALF_OPEN
    requires own < |log| && own !in spent && log[own].channelId == c && 0 <= log[own].at <= clock
    ensures Good(timed, config, log, spent + {own}, clock, c,
      ProbeTagged(t, log[own].success, config, log[own].at, own))
  {
    hide BadWindow;
    ProbeKeepsForm(t.snap, log[own].success, config, log[own].at, clock);
    assert !log[own].success ==> FailedProbe(log, spent + {own}, c, log[own].at);
    assert forall at :: FailedProbe(log, spent, c, at) ==> FailedProbe(log, spent + {own}, c, at);
    assert own !in t.probes;
  }

  // ---------- The invariant ----------

  /** What a process may rely on, whatever the others do meanwhile. */
  ghost predicate HandlerOk(p: Params, timed: bool, s: Sys, h: HandlerState)
    requires p.Valid()
  {
    match h
    case Claiming(_) => true
    case Clocking(_, _) => true
    case Recording(_, _, now) => 0 <= now <= s.db.now
    case ReadingBreaker(ev, now, own) =>
      0 <= now <= s.db.now && own < |s.log| && s.log[own] == Outcome(ev, now)
    case ReadingWindow(ev, now, current) =>
      0 <= now <= s.db.now && Good(timed, p.config, s.log, s.spent, s.db.now, ev.channelId, current)
    case Writing(ev, next, _) => Good(timed, p.config, s.log, s.spent, s.db.now, ev.channelId, next)
    case Releasing(ev, next) => Good(timed, p.config, s.log, s.spent, s.db.now, ev.channelId, next)
    case Finished(_, _) => true
  }

  ghost predicate AllGood(p: Params, timed: bool, s: Sys, m: map<string, Tagged>)
    requires p.Valid()
  {
    forall c :: c in m ==> Good(timed, p.config, s.log, s.spent, s.db.now, c, m[c])
  }

  ghost predicate AllRead(p: Params, s: Sys, m: map<string, ChannelStats>, now: int)
    requires p.Valid()
  {
    forall c :: c in m ==> StatsRead(p.config, s.log, c, m[c], now)
  }

  ghost predicate RouterOk(p: Params, timed: bool, s: Sys, r: RouterState)
    requires p.Valid()
  {
    match r
    case ReadingStats(_, now) => 0 <= now <= s.db.now
    case ReadingBreakers(_, now, stats) => 0 <= now <= s.db.now && (timed ==> AllRead(p, s, stats, now))
    case Refreshing(_, now, stats, current, next, _) =>
      0 <= now <= s.db.now && (timed ==> AllRead(p, s, stats, now)) && AllGood(p, timed, s, current)
        && AllGood(p, timed, s, next)
    case Routed(next, _) => AllGood(p, timed, s, next)
  }

  predicate Unused(s: Sys, pid: nat) {
    pid in s.handlers && s.handlers[pid].ReadingBreaker?
  }

  /** No two processes hold one outcome that is still to be used, and none of these is used already. */
  ghost predicate FreshOutcomes(s: Sys) {
    && (forall i :: i in s.spent ==> i < |s.log|)
    && (forall pid :: Unused(s, pid) ==> s.handlers[pid].own !in s.spent)
    && (forall pid, qid :: Unused(s, pid) && Unused(s, qid) && pid != qid ==>
      s.handlers[pid].own != s.handlers[qid].own)
  }

  ghost predicate StoredGood(p: Params, timed: bool, s: Sys)
    requires p.Valid()
  {
    forall c :: Good(timed, p.config, s.log, s.spent, s.db.now, c, ReadTagged(s, c))
  }

  ghost predicate ProcessesOk(p: Params, timed: bool, s: Sys)
    requires p.Valid()
  {
    && (forall pid :: pid in s.handlers ==> HandlerOk(p, timed, s, s.handlers[pid]))
    && (forall pid :: pid in s.routers ==> RouterOk(p, timed, s, s.routers[pid]))
  }

  /** The parts of the invariant that speak of the store alone. */
  ghost predicate StoreInv(p: Params, timed: bool, s: Sys)
    requires p.Valid()
  {
    && s.db.now >= 0 && (timed ==> Tracks(s.db, p.G(), s.log)) && BreakerStore.BreakersLast(s.db)
      && StoredGood(p, timed, s)
  }

  ghost predicate Inv(p: Params, timed: bool, s: Sys) {
    p.Valid() && (timed ==> Timely(p.G(), p.lag)) && StoreInv(p, timed, s) && ProcessesOk(p, timed, s)
      && FreshOutcomes(s)
  }

  // ---------- Preservation ----------

  lemma HandlerLasts(p: Params, timed: bool, s: Sys, t: Sys, h: HandlerState)
    requires p.Valid() && Grows(s, t) && HandlerOk(p, timed, s, h)
    ensures HandlerOk(p, timed, t, h)
  {
    hide Good;
    match h {
      case ReadingWindow(ev, _, current) => GoodLasts(timed, p.config, s, t, ev.channelId, current);
      case Writing(ev, next, _) => GoodLasts(timed, p.config, s, t, ev.channelId, next);
      case Releasing(ev, next) => GoodLasts(timed, p.config, s, t, ev.channelId, next);
      case _ =>
    }
  }

  lemma AllLast(p: Params, timed: bool, s: Sys, t: Sys, m: map<string, Tagged>, stats: map<string, ChannelStats>,
      now: int)
    requires p.Valid() && Grows(s, t)
    ensures AllGood(p, timed, s, m) ==> AllGood(p, timed, t, m)
    ensures AllRead(p, s, stats, now) ==> AllRead(p, t, stats, now)
  {
    hide Good, StatsRead;
    if AllGood(p, timed, s, m) {
      forall c | c in m ensures Good(timed, p.config, t.log, t.spent, t.db.now, c, m[c]) {
        GoodLasts(timed, p.config, s, t, c, m[c]);
      }
    }
    if AllRead(p, s, stats, now) {
      forall c | c in stats ensures StatsRead(p.config, t.log, c, stats[c], now) {
        StatsLast(p.config, s.log, t.log, c, stats[c], now);
      }
    }
  }

  lemma RouterLasts(p: Params, timed: bool, s: Sys, t: Sys, r: RouterState)
    requires p.Valid() && Grows(s, t) && RouterOk(p, timed, s, r)
    ensures RouterOk(p, timed, t, r)
  {
    hide AllGood, AllRead;
    match r {
      case ReadingStats(_, _) =>
      case ReadingBreakers(_, now, stats) => AllLast(p, timed, s, t, map[], stats, now);
      case Refreshing(_, now, stats, current, next, _) =>
        AllLast(p, timed, s, t, current, stats, now);
        AllLast(p, timed, s, t, next, stats, now);
      case Routed(next, _) => AllLast(p, timed, s, t, next, map[], 0);
    }
  }

  /** When one handler moves and the rest stay, only the moved one needs a look. */
  lemma HandlersAfter(p: Params, timed: bool, s: Sys, t: Sys, pid: nat, h: HandlerState)
    requires p.Valid() && Grows(s, t) && ProcessesOk(p, timed, s)
    requires t.handlers == s.handlers[pid := h] && t.routers == s.routers && HandlerOk(p, timed, t, h)
    ensures ProcessesOk(p, timed, t)
  {
    hide HandlerOk, RouterOk;
    forall q | q in t.handlers ensures HandlerOk(p, timed, t, t.handlers[q]) {
      if q != pid {
        HandlerLasts(p, timed, s, t, s.handlers[q]);
      }
    }
    forall q | q in t.routers ensures RouterOk(p, timed, t, t.routers[q]) {
      RouterLasts(p, timed, s, t, s.routers[q]);
    }
  }

  lemma RoutersAfter(p: Params, timed: bool, s: Sys, t: Sys, pid: nat, r: RouterState)
    requires p.Valid() && Grows(s, t) && ProcessesOk(p, timed, s)
    requires t.routers == s.routers[pid := r] && t.handlers == s.handlers && RouterOk(p, timed, t, r)
    ensures ProcessesOk(p, timed, t)
  {
    hide HandlerOk, RouterOk;
    forall q | q in t.handlers ensures HandlerOk(p, timed, t, t.handlers[q]) {
      HandlerLasts(p, timed, s, t, s.handlers[q]);
    }
    forall q | q in t.routers ensures RouterOk(p, timed, t, t.routers[q]) {
      if q != pid {
        RouterLasts(p, timed, s, t, s.routers[q]);
      }
    }
  }

  lemma ProcessesLast(p: Params, timed: bool, s: Sys, t: Sys)
    requires p.Valid() && Grows(s, t) && ProcessesOk(p, timed, s)
    requires forall pid :: pid in t.handlers ==> pid in s.handlers && t.handlers[pid] == s.handlers[pid]
    requires forall pid :: pid in t.routers ==> pid in s.routers && t.routers[pid] == s.routers[pid]
    ensures ProcessesOk(p, timed, t)
  {
    hide HandlerOk, RouterOk;
    forall q | q in t.handlers ensures HandlerOk(p, timed, t, t.handlers[q]) {
      HandlerLasts(p, timed, s, t, s.handlers[q]);
    }
    forall q | q in t.routers ensures RouterOk(p, timed, t, t.routers[q]) {
      RouterLasts(p, timed, s, t, s.routers[q]);
    }
  }

  /** The stored snapshots are the same, and the history grew. */
  lemma StoredLasts(p: Params, timed: bool, s: Sys, t: Sys)
    requires p.Valid() && Grows(s, t) && StoredGood(p, timed, s)
    requires forall c :: ReadTagged(t, c) == ReadTagged(s, c)
    ensures StoredGood(p, timed, t)
  {
    hide Good, ReadTagged;
    forall c ensures Good(timed, p.config, t.log, t.spent, t.db.now, c, ReadTagged(t, c)) {
      GoodLasts(timed, p.config, s, t, c, ReadTagged(s, c));
    }
  }

  /** A step that touches neither a window entry nor a breaker entry. */
  lemma StoreUntouched(p: Params, timed: bool, s: Sys, t: Sys)
    requires p.Valid() && StoreInv(p, timed, s) && Grows(s, t) && t.log == s.log && t.tags == s.tags
    requires SameWindows(s.db, t.db) && BreakerStore.SameBreakers(s.db, t.db)
    ensures StoreInv(p, timed, t)
  {
    hide Tracks, StoredGood, BreakerStore.BreakersLast, SameWindows, BreakerStore.SameBreakers, BreakerStore.BreakerAt;
    assert s.db.now == t.db.now by { SameClock(s.db, t.db); }
    if timed {
      OtherKeysKeepTracks(s.db, t.db, p.G(), s.log);
    }
    BreakerStore.SameBreakersRead(s.db, t.db);
    StoredLasts(p, timed, s, t);
  }

  lemma SameClock(a: Db, b: Db)
    requires SameWindows(a, b)
    ensures a.now == b.now
  {
  }

  lemma ClaimTouches(db: Db, eventId: string, ttlSeconds: int)
    ensures SameWindows(db, ProcessedStore.Claim(db, eventId, ttlSeconds).0)
    ensures BreakerStore.SameBreakers(db, ProcessedStore.Claim(db, eventId, ttlSeconds).0)
  {
  }

  lemma SlotTouches(db: Db, c: string, ttlMs: int)
    ensures SameWindows(db, db.SetNx(Probe(c), BreakerStore.SLOT_TEXT, ttlMs).0)
    ensures BreakerStore.SameBreakers(db, db.SetNx(Probe(c), BreakerStore.SLOT_TEXT, ttlMs).0)
    ensures SameWindows(db, db.Del(Probe(c))) && BreakerStore.SameBreakers(db, db.Del(Probe(c)))
  {
  }

  /** Writing a good snapshot keeps the store in order. */
  lemma StoreWritten(p: Params, timed: bool, s: Sys, c: string, x: Tagged)
    requires p.Valid() && StoreInv(p, timed, s) && Good(timed, p.config, s.log, s.spent, s.db.now, c, x)
    ensures StoreInv(p, timed, WriteTagged(s, c, x)) && Grows(s, WriteTagged(s, c, x))
  {
    hide Tracks, Good, BreakerStore.BreakersLast, BreakerStore.BreakerAt, BreakerStore.Written;
    assert BreakerStore.Storable(x.snap) by { GoodIsStorable(timed, p.config, s.log, s.spent, s.db.now, c, x); }
    BreakerStore.WriteThenRead(s.db, c, x.snap);
    var t := WriteTagged(s, c, x);
    assert SameWindows(s.db, t.db);
    if timed {
      OtherKeysKeepTracks(s.db, t.db, p.G(), s.log);
    }
    forall d ensures Good(timed, p.config, t.log, t.spent, t.db.now, d, ReadTagged(t, d)) {
      assert ReadTagged(t, d) == if d == c then x else ReadTagged(s, d);
      assert Good(timed, p.config, s.log, s.spent, s.db.now, d, ReadTagged(s, d));
    }
  }

  lemma GoodIsStorable(timed: bool, config: RoutingConfig, log: seq<Applied>, spent: set<nat>, now: int, c: string,
      x: Tagged)
    requires GeometryOf(config).Valid() && Good(timed, config, log, spent, now, c, x)
    ensures BreakerStore.Storable(x.snap)
  {
    hide Evidence;
  }
}
