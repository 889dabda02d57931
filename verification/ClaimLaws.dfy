/**
  * Deduplication: in every run a claim is recorded at most once, exactly once
  * unless its process stopped; in every run on time no window counts one event
  * twice, and no breaker opens without a window of distinct events.
  */
module ClaimLaws {
  import opened Types
  import opened Keys
  import opened Redis
  import opened Window
  import opened WindowLog
  import WindowStore
  import opened Breaker
  import BreakerStore
  import ProcessedStore
  import opened OutcomeHandler
  import Routing
  import opened Interleaving
  import opened InterleavedSafety
  import opened InterleavedRuns

  function TtlOf(p: Params): int {
    1000 * p.ttlSeconds
  }

  predicate Holds(s: Sys, pid: nat) {
    pid in s.handlers && HoldsClaim(s.handlers[pid])
  }

  /** Each log entry comes from its own claim, and its clock reading follows that claim within the delay. */
  ghost predicate EntriesClaimed(p: Params, timed: bool, s: Sys) {
    && |s.owner| == |s.log|
    && (forall i :: 0 <= i < |s.log| ==>
          s.owner[i] < |s.claims| && s.claims[s.owner[i]].eventId == s.log[i].eventId
          && s.claims[s.owner[i]].at <= s.log[i].at && (timed ==> s.log[i].at <= s.claims[s.owner[i]].at + p.delay))
    && (forall i, j :: 0 <= i < j < |s.log| ==> s.owner[i] != s.owner[j])
  }

  ghost predicate HoldersClaimed(p: Params, timed: bool, s: Sys) {
    && (forall pid :: Holds(s, pid) ==>
          var h := s.handlers[pid];
          h.claim < |s.claims| && s.claims[h.claim].eventId == h.ev.eventId && h.claim !in s.owner
          && (h.Recording? ==> s.claims[h.claim].at <= h.now && (timed ==> h.now <= s.claims[h.claim].at + p.delay)))
    && (forall pid, qid :: Holds(s, pid) && Holds(s, qid) && pid != qid ==>
      s.handlers[pid].claim != s.handlers[qid].claim)
  }

  ghost predicate LostApart(s: Sys) {
    && (forall k :: k in s.lost ==> k < |s.claims| && k !in s.owner)
    && (forall pid :: Holds(s, pid) ==> s.handlers[pid].claim !in s.lost)
  }

  /** No claim disappears: it is recorded, lost with its process, or still in work. */
  ghost predicate ClaimsAccounted(s: Sys) {
    forall k: nat :: k < |s.claims| ==> k in s.owner || k in s.lost || InWork(s, k)
  }

  ghost predicate InWork(s: Sys, k: nat) {
    exists pid :: Holds(s, pid) && s.handlers[pid].claim == k
  }

  /** While a claim lasts, its key stands in the store. */
  ghost predicate KeysStand(p: Params, s: Sys) {
    forall k :: 0 <= k < |s.claims| ==> KeyStands(p, s, s.claims[k])
  }

  ghost predicate KeyStands(p: Params, s: Sys, r: ClaimRecord) {
    && r.at <= s.db.now
    && (s.db.now < r.at + TtlOf(p) ==>
          Processed(r.eventId) in s.db.data && Lasting(s.db.data[Processed(r.eventId)], r.at + TtlOf(p)))
  }

  /** Two claims of one event lie a whole lifetime apart. */
  ghost predicate ClaimsApart(p: Params, s: Sys) {
    forall i, j :: 0 <= i < j < |s.claims| && s.claims[i].eventId == s.claims[j].eventId ==>
      s.claims[j].at >= s.claims[i].at + TtlOf(p)
  }

  ghost predicate ClaimInv(p: Params, timed: bool, s: Sys) {
    EntriesClaimed(p, timed, s) && HoldersClaimed(p, timed, s) && LostApart(s) && ClaimsAccounted(s)
      && KeysStand(p, s) && ClaimsApart(p, s)
  }

  ghost predicate SameClaimKeys(a: Db, b: Db) {
    && a.now == b.now
    && forall e :: (Processed(e) in a.data <==> Processed(e) in b.data)
                   && (Processed(e) in a.data ==> a.data[Processed(e)] == b.data[Processed(e)])
  }

  /** A step that leaves claims, log and claim holders as they are. */
  ghost predicate Quiet(s: Sys, t: Sys) {
    && t.claims == s.claims && t.owner == s.owner && t.log == s.log && t.lost == s.lost
    && SameClaimKeys(s.db, t.db)
    && (forall pid :: Holds(t, pid) <==> Holds(s, pid))
    && (forall pid :: Holds(s, pid) ==> t.handlers[pid] == s.handlers[pid])
  }

  lemma QuietKeeps(p: Params, timed: bool, s: Sys, t: Sys)
    requires ClaimInv(p, timed, s) && Quiet(s, t)
    ensures ClaimInv(p, timed, t)
  {
    forall k | 0 <= k < |t.claims| ensures KeyStands(p, t, t.claims[k]) {
      assert KeyStands(p, s, s.claims[k]);
    }
    forall k: nat | k < |t.claims| && k !in t.owner && k !in t.lost ensures InWork(t, k) {
      assert InWork(s, k);
      var pid :| Holds(s, pid) && s.handlers[pid].claim == k;
      assert Holds(t, pid);
    }
  }

  lemma ClaimSucceeds(p: Params, timed: bool, s: Sys, pid: nat, ev: Event)
    requires ClaimInv(p, timed, s) && pid in s.handlers && s.handlers[pid] == Claiming(ev)
    ensures ClaimInv(p, timed, ClaimStep(p, s, pid, ev))
  {
    var t := ClaimStep(p, s, pid, ev);
    if ProcessedStore.Claim(s.db, ev.eventId, p.ttlSeconds).1 {
      var new_ := ClaimRecord(ev.eventId, s.db.now);
      forall k | 0 <= k < |t.claims| ensures KeyStands(p, t, t.claims[k]) {
        if k < |s.claims| {
          assert KeyStands(p, s, s.claims[k]);
        }
      }
      forall k | 0 <= k < |s.claims| && s.claims[k].eventId == ev.eventId
        ensures s.db.now >= s.claims[k].at + TtlOf(p) {
        assert KeyStands(p, s, s.claims[k]);
      }
      assert ClaimsApart(p, t);
      assert Holds(t, pid);
      forall k: nat | k < |t.claims| && k !in t.owner && k !in t.lost ensures InWork(t, k) {
        if k < |s.claims| {
          assert InWork(s, k);
          var q :| Holds(s, q) && s.handlers[q].claim == k;
          assert Holds(t, q);
        }
      }
      NewHolder(p, timed, s, t, pid);
    } else {
      QuietKeeps(p, timed, s, t);
    }
  }

  lemma NewHolder(p: Params, timed: bool, s: Sys, t: Sys, pid: nat)
    requires EntriesClaimed(p, timed, s) && HoldersClaimed(p, timed, s) && LostApart(s)
    requires t.owner == s.owner && t.log == s.log && t.lost == s.lost && s.claims <= t.claims
      && |t.claims| == |s.claims| + 1
    requires t.handlers.Keys == s.handlers.Keys && pid in t.handlers && t.handlers[pid].Clocking?
      && t.handlers[pid].claim == |s.claims|
    requires t.claims[|s.claims|].eventId == t.handlers[pid].ev.eventId
    requires forall q :: q in s.handlers && q != pid ==> t.handlers[q] == s.handlers[q]
    ensures EntriesClaimed(p, timed, t) && HoldersClaimed(p, timed, t) && LostApart(t)
  {
    forall q | Holds(t, q) && q != pid ensures Holds(s, q) {
    }
    forall i | i in s.owner ensures i < |s.claims| {
      var k :| 0 <= k < |s.owner| && s.owner[k] == i;
    }
  }

  lemma ClockKeepsClaims(p: Params, timed: bool, s: Sys, pid: nat, ev: Event, claim: nat)
    requires ClaimInv(p, timed, s) && pid in s.handlers && s.handlers[pid] == Clocking(ev, claim)
    requires timed ==> InTime(p, s, StepHandler(pid))
    ensures ClaimInv(p, timed, SetHandler(s, pid, Recording(ev, claim, s.db.now)))
  {
    var t := SetHandler(s, pid, Recording(ev, claim, s.db.now));
    assert Holds(s, pid);
    assert KeyStands(p, s, s.claims[claim]);
    forall q ensures Holds(t, q) <==> Holds(s, q) {
    }
    forall k | 0 <= k < |t.claims| ensures KeyStands(p, t, t.claims[k]) {
      assert KeyStands(p, s, s.claims[k]);
    }
    forall k: nat | k < |t.claims| && k !in t.owner && k !in t.lost ensures InWork(t, k) {
      assert InWork(s, k);
      var q :| Holds(s, q) && s.handlers[q].claim == k;
      assert Holds(t, q) && t.handlers[q].claim == k;
    }
  }

  lemma RecordKeepsClaims(p: Params, timed: bool, s: Sys, t: Sys, pid: nat, ev: Event, claim: nat, now: int)
    requires ClaimInv(p, timed, s) && pid in s.handlers && s.handlers[pid] == Recording(ev, claim, now)
    requires t.claims == s.claims && t.lost == s.lost && SameClaimKeys(s.db, t.db)
    requires t.log == s.log + [Outcome(ev, now)] && t.owner == s.owner + [claim]
    requires t.handlers == s.handlers[pid := ReadingBreaker(ev, now, |s.log|)]
    ensures ClaimInv(p, timed, t)
  {
    assert Holds(s, pid);
    forall q | Holds(t, q) ensures Holds(s, q) && q != pid && t.handlers[q] == s.handlers[q] {
    }
    forall k | 0 <= k < |t.claims| ensures KeyStands(p, t, t.claims[k]) {
      assert KeyStands(p, s, s.claims[k]);
    }
    forall k: nat | k < |t.claims| && k !in t.owner && k !in t.lost ensures InWork(t, k) {
      assert k !in s.owner;
      assert InWork(s, k);
      var q :| Holds(s, q) && s.handlers[q].claim == k;
      assert Holds(t, q);
    }
    assert forall i :: i in t.owner <==> i in s.owner || i == claim;
  }

  lemma CrashKeepsClaims(p: Params, timed: bool, s: Sys, pid: nat)
    requires ClaimInv(p, timed, s)
    ensures ClaimInv(p, timed, CrashStep(s, pid))
  {
    var t := CrashStep(s, pid);
    forall q ensures Holds(t, q) <==> Holds(s, q) && q != pid {
    }
    forall k | 0 <= k < |t.claims| ensures KeyStands(p, t, t.claims[k]) {
      assert KeyStands(p, s, s.claims[k]);
    }
    forall k: nat | k < |t.claims| && k !in t.owner && k !in t.lost ensures InWork(t, k) {
      assert k !in s.lost;
      assert InWork(s, k);
      var q :| Holds(s, q) && s.handlers[q].claim == k;
      assert q != pid;
      assert Holds(t, q);
    }
  }

  lemma TimeKeepsClaims(p: Params, timed: bool, s: Sys, a: Action)
    requires p.Valid() && ClaimInv(p, timed, s) && (a.Advance? || a.Evict?)
    ensures ClaimInv(p, timed, Next(p, s, a))
  {
    var t := Next(p, s, a);
    forall q ensures Holds(t, q) <==> Holds(s, q) {
    }
    forall k | 0 <= k < |t.claims| ensures KeyStands(p, t, t.claims[k]) {
      assert KeyStands(p, s, s.claims[k]);
    }
    forall k: nat | k < |t.claims| && k !in t.owner && k !in t.lost ensures InWork(t, k) {
      assert InWork(s, k);
      var q :| Holds(s, q) && s.handlers[q].claim == k;
      assert Holds(t, q);
    }
  }

  lemma WriteIsQuiet(db: Db, c: string, x: BreakerSnapshot)
    ensures SameClaimKeys(db, BreakerStore.Written(db, c, x))
  {
    hide BreakerStore.SnapshotFields;
  }

  lemma SameKeys(db: Db)
    ensures SameClaimKeys(db, db)
  {
  }

  lemma OtherKeysQuiet(a: Db, b: Db)
    requires a.now == b.now
    requires forall k :: !WindowKey(k) ==> (k in b.data <==> k in a.data) && (k in a.data ==> b.data[k] == a.data[k])
    ensures SameClaimKeys(a, b)
  {
    forall e ensures (Processed(e) in a.data <==> Processed(e) in b.data)
                   && (Processed(e) in a.data ==> a.data[Processed(e)] == b.data[Processed(e)]) {
      assert !WindowKey(Processed(e));
    }
  }

  lemma SlotIsQuiet(db: Db, c: string, ttlMs: int)
    ensures SameClaimKeys(db, db.SetNx(Probe(c), BreakerStore.SLOT_TEXT, ttlMs).0)
    ensures SameClaimKeys(db, db.Del(Probe(c)))
  {
  }

  lemma HandlerKeepsClaims(p: Params, timed: bool, s: Sys, pid: nat)
    requires p.Valid() && ClaimInv(p, timed, s) && (timed ==> InTime(p, s, StepHandler(pid)))
    ensures ClaimInv(p, timed, HandlerStep(p, s, pid))
  {
    hide ClaimInv, ClaimStep, WindowStore.Recorded, BreakerStore.Written, BreakerStore.BreakerAt, WindowStore.StatsIn;
    hide EvaluateTagged, ProbeTagged, SameClaimKeys;
    SameKeys(s.db);
    if pid in s.handlers {
      var t := HandlerStep(p, s, pid);
      match s.handlers[pid] {
        case Claiming(ev) => ClaimSucceeds(p, timed, s, pid, ev);
        case Clocking(ev, claim) => ClockKeepsClaims(p, timed, s, pid, ev, claim);
        case Recording(ev, claim, now) =>
          RecordTouches(s.db, p.G(), Outcome(ev, now));
          OtherKeysQuiet(s.db, t.db);
          RecordKeepsClaims(p, timed, s, t, pid, ev, claim, now);
        case ReadingBreaker(ev, now, own) => QuietKeeps(p, timed, s, t);
        case ReadingWindow(ev, now, current) => QuietKeeps(p, timed, s, t);
        case Writing(ev, next, release) =>
          WriteIsQuiet(s.db, ev.channelId, next.snap);
          QuietKeeps(p, timed, s, t);
        case Releasing(ev, next) =>
          SlotIsQuiet(s.db, ev.channelId, 0);
          QuietKeeps(p, timed, s, t);
        case Finished(_, _) =>
      }
    }
  }

  lemma RouterKeepsClaims(p: Params, timed: bool, s: Sys, pid: nat, landed: bool, c: string)
    requires p.Valid() && ClaimInv(p, timed, s)
    ensures ClaimInv(p, timed, RouterStep(p, s, pid, landed)) && ClaimInv(p, timed, SlotStep(s, pid, c))
  {
    hide ClaimInv, BreakerStore.Written, WindowStore.StatsIn, EvaluateTagged;
    var t := RouterStep(p, s, pid, landed);
    assert SameClaimKeys(s.db, t.db) by {
      if pid in s.routers && s.routers[pid].Refreshing? && s.routers[pid].i < |s.routers[pid].ids| {
        var r := s.routers[pid];
        var id := r.ids[r.i];
        if id in r.current && id in r.stats {
          WriteIsQuiet(s.db, id, EvaluateTagged(r.current[id], r.stats[id], p.config, r.now).snap);
        }
      }
    }
    QuietKeeps(p, timed, s, t);
    SlotIsQuiet(s.db, c, Routing.PROBE_SLOT_TTL_MS);
    QuietKeeps(p, timed, s, SlotStep(s, pid, c));
  }

  lemma NextKeepsClaims(p: Params, timed: bool, s: Sys, a: Action)
    requires p.Valid() && ClaimInv(p, timed, s) && (timed ==> InTime(p, s, a))
    ensures ClaimInv(p, timed, Next(p, s, a))
  {
    hide ClaimInv, HandlerStep, RouterStep, SlotStep, CrashStep;
    match a {
      case StartHandler(_, _) => QuietKeeps(p, timed, s, Next(p, s, a));
      case StepHandler(pid) => HandlerKeepsClaims(p, timed, s, pid);
      case CrashHandler(pid) => CrashKeepsClaims(p, timed, s, pid);
      case StartRouter(_, _) => QuietKeeps(p, timed, s, Next(p, s, a));
      case StepRouter(pid, landed) => RouterKeepsClaims(p, timed, s, pid, landed, "");
      case AskSlot(pid, c) => RouterKeepsClaims(p, timed, s, pid, false, c);
      case CrashRouter(_) => QuietKeeps(p, timed, s, Next(p, s, a));
      case Advance(_) => TimeKeepsClaims(p, timed, s, a);
      case Evict(_) => TimeKeepsClaims(p, timed, s, a);
    }
  }

  lemma InitKeepsClaims(p: Params, timed: bool)
    ensures ClaimInv(p, timed, INIT)
  {
  }

  /** Claims are kept in every run; only the delay after a claim needs a run that is on time. */
  lemma {:induction false} RunsKeepClaims(p: Params, timed: bool, states: seq<Sys>, actions: seq<Action>, i: nat)
    requires Run(p, states, actions) && (timed ==> OnTime(p, states, actions)) && i < |states|
    ensures ClaimInv(p, timed, states[i])
    decreases i
  {
    hide ClaimInv, Next, InTime;
    if i == 0 {
      InitKeepsClaims(p, timed);
    } else {
      RunsKeepClaims(p, timed, states, actions, i - 1);
      NextKeepsClaims(p, timed, states[i - 1], actions[i - 1]);
    }
  }

  // ---------- What follows for a whole run ----------

  /** No two outcomes that count at one moment belong to one event. */
  ghost predicate CountedOnce(g: Geometry, log: seq<Applied>, now: int)
    requires g.Valid()
  {
    forall i, j :: 0 <= i < j < |log| && Counts(g, log[i].at, now) && Counts(g, log[j].at, now) ==>
      log[i].eventId != log[j].eventId
  }

  /**
    * No window counts one event twice, over every run of redeliveries, crashes
    * and stale processes that is on time, when a claim outlives the window and the
    * delay between a claim and its clock reading.
    */
  lemma NoDoubleCount(p: Params, states: seq<Sys>, actions: seq<Action>, i: nat, now: int)
    requires Run(p, states, actions) && OnTime(p, states, actions) && i < |states|
    requires TtlOf(p) >= p.G().SpanMs() + p.delay
    ensures CountedOnce(p.G(), states[i].log, now)
  {
    RunsKeepClaims(p, true, states, actions, i);
    var s, g := states[i], p.G();
    forall a, b | 0 <= a < b < |s.log| && Counts(g, s.log[a].at, now) && Counts(g, s.log[b].at, now)
      ensures s.log[a].eventId != s.log[b].eventId
    {
      CountedTogether(g, s.log[a].at, s.log[b].at, now);
      CountedTogether(g, s.log[b].at, s.log[a].at, now);
      var x, y := s.owner[a], s.owner[b];
      assert x != y;
      assert s.claims[y].at - s.claims[x].at < TtlOf(p) && s.claims[x].at - s.claims[y].at < TtlOf(p);
    }
  }

  ghost predicate DistinctEvents(es: seq<Applied>) {
    forall i, j :: 0 <= i < j < |es| ==> es[i].eventId != es[j].eventId
  }

  lemma {:induction false} RecentDistinct(g: Geometry, log: seq<Applied>, c: string, now: int)
    requires g.Valid() && CountedOnce(g, log, now)
    ensures DistinctEvents(Recent(log, g, c, now))
  {
    hide Counts;
    if log == [] {
      assert Recent(log, g, c, now) == [];
    } else {
      var n := |log| - 1;
      assert CountedOnce(g, log[..n], now);
      RecentDistinct(g, log[..n], c, now);
      if Counts(g, log[n].at, now) {
        LastIsNew(g, log, c, now);
      }
    }
  }

  lemma LastIsNew(g: Geometry, log: seq<Applied>, c: string, now: int)
    requires g.Valid() && log != [] && CountedOnce(g, log, now) && Counts(g, log[|log| - 1].at, now)
    ensures forall e :: e in Recent(log[..|log| - 1], g, c, now) ==> e.eventId != log[|log| - 1].eventId
  {
    hide Counts;
    var n := |log| - 1;
    forall e | e in Recent(log[..n], g, c, now) ensures e.eventId != log[n].eventId {
      assert e in log[..n];
      var k :| 0 <= k < n && log[..n][k] == e;
      assert log[k] == e;
    }
  }

  /** Enough outcomes, of distinct events, with too few successes, all in the window at `at`. */
  ghost predicate ProvenBad(config: RoutingConfig, log: seq<Applied>, k: int, c: string, at: int)
    requires GeometryOf(config).Valid()
  {
    BadWindow(config, log, k, c, at) && DistinctEvents(Recent(log[..k], GeometryOf(config), c, at))
  }

  /** The window that opens a breaker counts distinct events. */
  lemma BadIsProven(p: Params, states: seq<Sys>, actions: seq<Action>, i: nat, k: nat, c: string, at: int)
    requires Run(p, states, actions) && OnTime(p, states, actions) && i < |states|
    requires TtlOf(p) >= p.G().SpanMs() + p.delay && BadWindow(p.config, states[i].log, k, c, at)
    ensures ProvenBad(p.config, states[i].log, k, c, at)
  {
    NoDoubleCount(p, states, actions, i, at);
    var log := states[i].log;
    assert CountedOnce(p.G(), log[..k], at);
    RecentDistinct(p.G(), log[..k], c, at);
  }

  /** The handler is about to decide on a closed breaker: on the stored one, or on the one that it has read. */
  predicate SeesClosed(s: Sys, h: HandlerState) {
    || (h.ReadingBreaker? && ReadTagged(s, h.ev.channelId).snap.state == CLOSED)
    || (h.ReadingWindow? && h.current.snap.state == CLOSED)
  }

  /** A handler turns the closed snapshot that it sees into an open one. */
  predicate HandlerOpens(s: Sys, t: Sys, pid: nat) {
    && pid in s.handlers && SeesClosed(s, s.handlers[pid])
    && pid in t.handlers && (t.handlers[pid].Writing? || t.handlers[pid].Releasing?)
      && t.handlers[pid].next.snap.state == OPEN
  }

  /** A router turns the closed snapshot that it has read into an open one. */
  predicate RouterOpens(s: Sys, t: Sys, pid: nat, c: string) {
    && pid in s.routers && s.routers[pid].Refreshing? && s.routers[pid].i < |s.routers[pid].ids|
      && s.routers[pid].ids[s.routers[pid].i] == c
    && c in s.routers[pid].current && c in s.routers[pid].stats && s.routers[pid].current[c].snap.state == CLOSED
    && pid in t.routers && t.routers[pid].Refreshing? && c in t.routers[pid].next && t.routers[pid].next[c].snap.state
      == OPEN
  }

  lemma StatsAreBad(p: Params, s: Sys, c: string, t: Tagged, stats: ChannelStats, now: int) returns (k: nat)
    requires p.Valid() && StatsRead(p.config, s.log, c, stats, now) && t.snap.state == CLOSED
    requires EvaluateTagged(t, stats, p.config, now).snap.state == OPEN
    ensures BadWindow(p.config, s.log, k, c, now) && EvaluateTagged(t, stats, p.config, now).snap.openedAt == now
  {
    hide BadWindow, LogStats;
    EvaluateMoves(t.snap, stats, p.config, now);
    k :| StatsAsOf(p.config, s.log, k, c, stats, now);
    StatsToBad(p.config, s.log, k, c, stats, now);
  }

  /**
    * Opening needs evidence, for the handler: it opens a closed breaker only when
    * the window that it has just read holds at least `minSamples` outcomes of
    * distinct events, with too few successes.
    */
  lemma HandlerOpensProven(p: Params, states: seq<Sys>, actions: seq<Action>, i: nat, pid: nat)
    requires Run(p, states, actions) && OnTime(p, states, actions) && i < |actions| && actions[i] == StepHandler(pid)
    requires TtlOf(p) >= p.G().SpanMs() + p.delay
    ensures
      HandlerOpens(states[i], states[i + 1], pid) ==>
        var c, at := states[i + 1].handlers[pid].ev.channelId, states[i + 1].handlers[pid].next.snap.openedAt;
        exists k :: ProvenBad(p.config, states[i].log, k, c, at)
  {
    hide StatsRead, ProvenBad, BadWindow, WindowStore.StatsIn, Bad, EvaluateTagged;
    var s := states[i];
    RunsAreSafe(p, true, states, actions, i);
    if HandlerOpens(s, states[i + 1], pid) {
      hide Inv, Tracks;
      var h := s.handlers[pid];
      TrackedNow(p, s);
      ReadNow(p, s, h.ev.channelId, h.now);
      var stats := WindowStore.StatsIn(s.db, p.G(), h.ev.channelId, h.now);
      var k := StatsAreBad(p, s, h.ev.channelId, h.current, stats, h.now);
      BadIsProven(p, states, actions, i, k, h.ev.channelId, h.now);
    }
  }

  lemma TrackedNow(p: Params, s: Sys)
    requires Inv(p, true, s)
    ensures p.Valid() && Timely(p.G(), p.lag) && Tracks(s.db, p.G(), s.log)
  {
  }

  /** Opening needs evidence, for the router: likewise, with the window that this call has read. */
  lemma RouterOpensProven(p: Params, states: seq<Sys>, actions: seq<Action>, i: nat, pid: nat, landed: bool, c: string)
    requires Run(p, states, actions) && OnTime(p, states, actions) && i < |actions|
      && actions[i] == StepRouter(pid, landed)
    requires TtlOf(p) >= p.G().SpanMs() + p.delay
    ensures
      RouterOpens(states[i], states[i + 1], pid, c) ==>
        var at := states[i + 1].routers[pid].next[c].snap.openedAt;
        exists k :: ProvenBad(p.config, states[i].log, k, c, at)
  {
    hide StatsRead, ProvenBad, BadWindow, Bad, EvaluateTagged, Tracks, Good;
    var s := states[i];
    RunsAreSafe(p, true, states, actions, i);
    if RouterOpens(s, states[i + 1], pid, c) {
      var r := s.routers[pid];
      assert RouterOk(p, true, s, r);
      var k := StatsAreBad(p, s, c, r.current[c], r.stats[c], r.now);
      BadIsProven(p, states, actions, i, k, c, r.now);
    }
  }

  /**
    * Opening needs evidence, for the store. Whatever the interleaving, a stored
    * breaker that is not closed was opened by a failed outcome that a half-open
    * breaker used as its probe result at that moment, or by a window in which
    * distinct events, at least `minSamples` of them, had too few successes.
    */
  lemma OpeningNeedsEvidence(p: Params, states: seq<Sys>, actions: seq<Action>, i: nat, c: string)
    requires Run(p, states, actions) && OnTime(p, states, actions) && i < |states|
    requires TtlOf(p) >= p.G().SpanMs() + p.delay
    requires BreakerStore.BreakerAt(states[i].db, c).state != CLOSED
    ensures
      var s, at := states[i], BreakerStore.BreakerAt(states[i].db, c).openedAt;
      at <= s.db.now && (FailedProbe(s.log, s.spent, c, at) || exists k :: ProvenBad(p.config, s.log, k, c, at))
  {
    hide BreakerStore.BreakerAt, Tracks;
    RunsAreSafe(p, true, states, actions, i);
    var s := states[i];
    var at := BreakerStore.BreakerAt(s.db, c).openedAt;
    assert Good(true, p.config, s.log, s.spent, s.db.now, c, ReadTagged(s, c));
    OpenedInThePast(p, s, c);
    if !FailedProbe(s.log, s.spent, c, at) {
      var k :| BadWindow(p.config, s.log, k, c, at);
      BadIsProven(p, states, actions, i, k, c, at);
    }
  }

  lemma OpenedInThePast(p: Params, s: Sys, c: string)
    requires p.Valid() && StoredGood(p, true, s) && BreakerStore.BreakerAt(s.db, c).state != CLOSED
    ensures BreakerStore.BreakerAt(s.db, c).openedAt <= s.db.now
  {
    hide BreakerStore.BreakerAt, Evidence;
    assert Good(true, p.config, s.log, s.spent, s.db.now, c, ReadTagged(s, c));
  }

  /**
    * In every run, a claim without an outcome in the log is lost or still in work, and
    * each other claim has exactly one.
    */
  lemma ClaimedAtMostOnce(p: Params, states: seq<Sys>, actions: seq<Action>, i: nat, k: nat)
    requires Run(p, states, actions) && i < |states| && k < |states[i].claims|
    ensures
      var s := states[i];
      && |s.owner| == |s.log|
      && (forall a, b :: 0 <= a < |s.owner| && 0 <= b < |s.owner| && s.owner[a] == k && s.owner[b] == k ==> a == b)
      && (k in s.owner <==> k !in s.lost && !InWork(s, k))
  {
    RunsKeepClaims(p, false, states, actions, i);
  }
}
