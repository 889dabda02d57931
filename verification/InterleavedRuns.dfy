/** Every reachable state of the interleaved system keeps the safety invariant. */
module InterleavedRuns {
  import opened Types
  import opened Keys
  import opened WindowLog
  import opened Breaker
  import Routing
  import ProcessedStore
  import BreakerStore
  import WindowStore
  import opened OutcomeHandler
  import opened Interleaving
  import opened InterleavedSafety

  lemma InitIsSafe(p: Params, timed: bool)
    requires p.Valid() && (timed ==> Timely(p.G(), p.lag))
    ensures Inv(p, timed, INIT)
  {
    EmptyTracks(p.G());
    forall c ensures Good(timed, p.config, INIT.log, INIT.spent, INIT.db.now, c, ReadTagged(INIT, c)) {
      assert INIT.db.Fields(Breaker(c)) == map[];
    }
  }

  lemma FreshLasts(s: Sys, t: Sys)
    requires FreshOutcomes(s) && |t.log| >= |s.log| && t.spent == s.spent
    requires forall pid :: Unused(t, pid) ==> Unused(s, pid) && t.handlers[pid] == s.handlers[pid]
    ensures FreshOutcomes(t)
  {
  }

  lemma ClaimKeeps(p: Params, timed: bool, s: Sys, pid: nat, ev: Event)
    requires Inv(p, timed, s) && pid in s.handlers && s.handlers[pid] == Claiming(ev)
    ensures Inv(p, timed, ClaimStep(p, s, pid, ev))
  {
    hide StoreInv, ProcessesOk, FreshOutcomes, SameWindows, BreakerStore.SameBreakers;
    var t := ClaimStep(p, s, pid, ev);
    ClaimTouches(s.db, ev.eventId, p.ttlSeconds);
    ProcessedStore.ClaimKeepsClock(s.db, ev.eventId, p.ttlSeconds);
    ProcessedStore.FailedClaim(s.db, ev.eventId, p.ttlSeconds);
    hide ProcessedStore.Claim;
    StoreUntouched(p, timed, s, t);
    HandlersAfter(p, timed, s, t, pid, t.handlers[pid]);
    FreshLasts(s, t);
  }

  lemma ClockKeeps(p: Params, timed: bool, s: Sys, pid: nat, ev: Event, claim: nat)
    requires Inv(p, timed, s) && pid in s.handlers && s.handlers[pid] == Clocking(ev, claim)
    ensures Inv(p, timed, SetHandler(s, pid, Recording(ev, claim, s.db.now)))
  {
    hide ProcessesOk, FreshOutcomes, Tracks, StoredGood, BreakerStore.BreakersLast;
    var t := SetHandler(s, pid, Recording(ev, claim, s.db.now));
    StoreUntouched(p, timed, s, t);
    HandlersAfter(p, timed, s, t, pid, t.handlers[pid]);
    FreshLasts(s, t);
  }

  lemma RecordKeeps(p: Params, timed: bool, s: Sys, pid: nat, ev: Event, claim: nat, now: int)
    requires Inv(p, timed, s) && pid in s.handlers && s.handlers[pid] == Recording(ev, claim, now)
    requires timed ==> s.db.now <= now + p.lag
    ensures Inv(p, timed, RecordStep(p, s, pid, ev, claim, now))
  {
    hide Tracks, StoredGood, BreakerStore.BreakersLast, WindowStore.Recorded, BreakerStore.BreakerAt;
    var t := RecordStep(p, s, pid, ev, claim, now);
    assert HandlerOk(p, timed, s, s.handlers[pid]);
    if timed {
      RecordKeepsTracks(s.db, p.G(), s.log, Outcome(ev, now), p.lag);
    }
    RecordTouches(s.db, p.G(), Outcome(ev, now));
    BreakerStore.SameBreakersRead(s.db, t.db);
    StoredLasts(p, timed, s, t);
    HandlersAfter(p, timed, s, t, pid, t.handlers[pid]);
    forall q | Unused(t, q) && q != pid ensures Unused(s, q) && t.handlers[q].own < |s.log| {
      assert HandlerOk(p, timed, s, s.handlers[q]);
    }
  }

  lemma ReadBreakerKeeps(p: Params, timed: bool, s: Sys, pid: nat, ev: Event, now: int, own: nat)
    requires Inv(p, timed, s) && pid in s.handlers && s.handlers[pid] == ReadingBreaker(ev, now, own)
    ensures Inv(p, timed, ReadBreakerStep(p, s, pid, ev, now, own))
  {
    hide Good, BreakerStore.BreakerAt, Tracks, BreakerStore.BreakersLast;
    var t := ReadBreakerStep(p, s, pid, ev, now, own);
    var current := ReadTagged(s, ev.channelId);
    assert HandlerOk(p, timed, s, s.handlers[pid]);
    assert Unused(s, pid);
    assert Good(timed, p.config, s.log, s.spent, s.db.now, ev.channelId, current);
    StoredLasts(p, timed, s, t);
    if current.snap.state == HALF_OPEN {
      ProbeStaysGood(timed, p.config, s.log, s.spent, s.db.now, ev.channelId, current, own);
    }
    HandlersAfter(p, timed, s, t, pid, t.handlers[pid]);
  }

  lemma ReadWindowKeeps(p: Params, timed: bool, s: Sys, pid: nat, ev: Event, now: int, current: Tagged)
    requires Inv(p, timed, s) && pid in s.handlers && s.handlers[pid] == ReadingWindow(ev, now, current)
    requires timed ==> s.db.now <= now + p.lag
    ensures Inv(p, timed, ReadWindowStep(p, s, pid, ev, now, current))
  {
    hide Good, Tracks, StoredGood, BreakerStore.BreakersLast, EvaluateTagged;
    var t := ReadWindowStep(p, s, pid, ev, now, current);
    assert HandlerOk(p, timed, s, s.handlers[pid]);
    if timed {
      ReadNow(p, s, ev.channelId, now);
    }
    EvaluateStaysGood(timed, p.config, s.log, s.spent, s.db.now, ev.channelId, current,
                      WindowStore.StatsIn(s.db, p.G(), ev.channelId, now), now);
    StoreUntouched(p, timed, s, t);
    HandlersAfter(p, timed, s, t, pid, t.handlers[pid]);
    FreshLasts(s, t);
  }

  /** Numbers that are read in time are the numbers of the log. */
  lemma ReadNow(p: Params, s: Sys, c: string, now: int)
    requires p.Valid() && Timely(p.G(), p.lag) && Tracks(s.db, p.G(), s.log) && s.db.now <= now + p.lag
    ensures StatsRead(p.config, s.log, c, WindowStore.StatsIn(s.db, p.G(), c, now), now)
  {
    WindowIsLog(s.db, p.G(), s.log, c, now, p.lag);
    assert s.log[..|s.log|] == s.log;
    assert StatsAsOf(p.config, s.log, |s.log|, c, WindowStore.StatsIn(s.db, p.G(), c, now), now);
  }

  lemma WriteKeeps(p: Params, timed: bool, s: Sys, pid: nat, ev: Event, next: Tagged, release: bool)
    requires Inv(p, timed, s) && pid in s.handlers && s.handlers[pid] == Writing(ev, next, release)
    ensures Inv(p, timed, WriteStep(s, pid, ev, next, release))
  {
    hide Good, Tracks, StoredGood, BreakerStore.BreakersLast;
    var t := WriteStep(s, pid, ev, next, release);
    assert HandlerOk(p, timed, s, s.handlers[pid]);
    StoreWritten(p, timed, s, ev.channelId, next);
    StoreUntouched(p, timed, WriteTagged(s, ev.channelId, next), t);
    HandlersAfter(p, timed, s, t, pid, t.handlers[pid]);
    FreshLasts(s, t);
  }

  lemma ReleaseKeeps(p: Params, timed: bool, s: Sys, pid: nat, ev: Event, next: Tagged)
    requires Inv(p, timed, s) && pid in s.handlers && s.handlers[pid] == Releasing(ev, next)
    ensures Inv(p, timed, ReleaseStep(s, pid, ev, next))
  {
    hide Tracks, StoredGood, BreakerStore.BreakersLast, ProcessesOk, FreshOutcomes;
    var t := ReleaseStep(s, pid, ev, next);
    SlotTouches(s.db, ev.channelId, 0);
    StoreUntouched(p, timed, s, t);
    HandlersAfter(p, timed, s, t, pid, t.handlers[pid]);
    FreshLasts(s, t);
  }

  lemma HandlerStepKeeps(p: Params, timed: bool, s: Sys, pid: nat)
    requires Inv(p, timed, s) && (timed ==> InTime(p, s, StepHandler(pid)))
    ensures Inv(p, timed, HandlerStep(p, s, pid))
  {
    hide Inv, ClaimStep, RecordStep, ReadBreakerStep, ReadWindowStep, WriteStep, ReleaseStep;
    assert p.Valid() by { InvIsValid(p, timed, s); }
    if pid in s.handlers {
      match s.handlers[pid] {
        case Claiming(ev) => ClaimKeeps(p, timed, s, pid, ev);
        case Clocking(ev, claim) => ClockKeeps(p, timed, s, pid, ev, claim);
        case Recording(ev, claim, now) => RecordKeeps(p, timed, s, pid, ev, claim, now);
        case ReadingBreaker(ev, now, own) => ReadBreakerKeeps(p, timed, s, pid, ev, now, own);
        case ReadingWindow(ev, now, current) => ReadWindowKeeps(p, timed, s, pid, ev, now, current);
        case Writing(ev, next, release) => WriteKeeps(p, timed, s, pid, ev, next, release);
        case Releasing(ev, next) => ReleaseKeeps(p, timed, s, pid, ev, next);
        case Finished(_, _) =>
      }
    }
  }

  lemma InvIsValid(p: Params, timed: bool, s: Sys)
    requires Inv(p, timed, s)
    ensures p.Valid()
  {
  }

  lemma RefreshKeeps(p: Params, timed: bool, s: Sys, pid: nat, r: RouterState, landed: bool)
    requires Inv(p, timed, s) && pid in s.routers && s.routers[pid] == r && r.Refreshing? && r.i < |r.ids|
    ensures Inv(p, timed, RefreshStep(p, s, pid, r, landed))
  {
    hide Good, Tracks, StoredGood, BreakerStore.BreakersLast, EvaluateTagged, StatsRead;
    var t := RefreshStep(p, s, pid, r, landed);
    var id := r.ids[r.i];
    assert RouterOk(p, timed, s, r);
    if id in r.current && id in r.stats {
      var after := EvaluateTagged(r.current[id], r.stats[id], p.config, r.now);
      EvaluateStaysGood(timed, p.config, s.log, s.spent, s.db.now, id, r.current[id], r.stats[id], r.now);
      StoreWritten(p, timed, s, id, after);
      var w := if Routing.Changed(r.current[id].snap, after.snap) && landed then WriteTagged(s, id, after) else s;
      StoreUntouched(p, timed, w, t);
      RefreshedRouter(p, timed, s, t, r, id, after);
      RoutersAfter(p, timed, s, t, pid, t.routers[pid]);
      FreshLasts(s, t);
    }
  }

  lemma RefreshedRouter(p: Params, timed: bool, s: Sys, t: Sys, r: RouterState, id: string, after: Tagged)
    requires p.Valid() && Grows(s, t) && RouterOk(p, timed, s, r) && r.Refreshing?
    requires Good(timed, p.config, s.log, s.spent, s.db.now, id, after)
    ensures RouterOk(p, timed, t, r.(next := r.next[id := after], i := r.i + 1))
  {
    hide Good, StatsRead;
    var mid := r.(next := r.next[id := after], i := r.i + 1);
    assert RouterOk(p, timed, s, mid);
    RouterLasts(p, timed, s, t, mid);
  }

  lemma RouterStepKeeps(p: Params, timed: bool, s: Sys, pid: nat, landed: bool)
    requires Inv(p, timed, s) && (timed ==> InTime(p, s, StepRouter(pid, landed)))
    ensures Inv(p, timed, RouterStep(p, s, pid, landed))
  {
    hide Good, Tracks, BreakerStore.BreakersLast, RefreshStep, StatsRead, BreakerStore.BreakerAt, WindowStore.StatsIn;
    var t := RouterStep(p, s, pid, landed);
    if pid in s.routers {
      var r := s.routers[pid];
      assert RouterOk(p, timed, s, r);
      match r {
        case ReadingStats(ids, now) =>
          forall c | timed && c in ids
            ensures StatsRead(p.config, s.log, c, WindowStore.StatsIn(s.db, p.G(), c, now), now) {
            ReadNow(p, s, c, now);
          }
          RouterMoves(p, timed, s, pid, ReadingBreakers(ids, now, Routing.ReadStats(s.db, p.config, ids, now)));
        case ReadingBreakers(ids, now, stats) =>
          var current := map c | c in ids :: ReadTagged(s, c);
          RouterMoves(p, timed, s, pid, Refreshing(ids, now, stats, current, map[], 0));
        case Refreshing(ids, _, _, _, next, i) =>
          if i < |ids| {
            RefreshKeeps(p, timed, s, pid, r, landed);
          } else {
            RouterMoves(p, timed, s, pid, Routed(next, None));
          }
        case Routed(_, _) =>
      }
    }
  }

  /** A router that only changes its own state. */
  lemma RouterMoves(p: Params, timed: bool, s: Sys, pid: nat, r: RouterState)
    requires Inv(p, timed, s) && RouterOk(p, timed, s, r)
    ensures Inv(p, timed, SetRouter(s, pid, r))
  {
    hide Tracks, StoredGood, BreakerStore.BreakersLast, RouterOk, HandlerOk;
    var t := SetRouter(s, pid, r);
    RouterLasts(p, timed, s, t, r);
    StoreUntouched(p, timed, s, t);
    RoutersAfter(p, timed, s, t, pid, r);
    FreshLasts(s, t);
  }

  lemma SlotKeeps(p: Params, timed: bool, s: Sys, pid: nat, c: string)
    requires Inv(p, timed, s)
    ensures Inv(p, timed, SlotStep(s, pid, c))
  {
    hide Tracks, StoredGood, BreakerStore.BreakersLast, AllGood, HandlerOk;
    var t := SlotStep(s, pid, c);
    if t != s {
      SlotTouches(s.db, c, Routing.PROBE_SLOT_TTL_MS);
      StoreUntouched(p, timed, s, t);
      assert RouterOk(p, timed, s, s.routers[pid]);
      RouterLasts(p, timed, s, t, s.routers[pid]);
      RoutersAfter(p, timed, s, t, pid, t.routers[pid]);
      FreshLasts(s, t);
    }
  }

  /** Processes that stop, and new handlers, touch nothing that is shared. */
  lemma BystanderKeeps(p: Params, timed: bool, s: Sys, a: Action)
    requires Inv(p, timed, s) && (a.CrashHandler? || a.CrashRouter? || a.StartHandler?)
    ensures Inv(p, timed, Next(p, s, a))
  {
    hide Tracks, StoredGood, BreakerStore.BreakersLast;
    var t := Next(p, s, a);
    StoreUntouched(p, timed, s, t);
    if a.StartHandler? {
      if a.pid !in s.handlers {
        HandlersAfter(p, timed, s, t, a.pid, Claiming(a.ev));
      }
    } else {
      ProcessesLast(p, timed, s, t);
    }
    FreshLasts(s, t);
  }

  lemma TimeKeeps(p: Params, timed: bool, s: Sys, a: Action)
    requires Inv(p, timed, s) && (a.Advance? || a.Evict?)
    ensures Inv(p, timed, Next(p, s, a))
  {
    hide Tracks, BreakerStore.BreakersLast, Good, BreakerStore.BreakerAt, BreakerStore.SameBreakers;
    var t := Next(p, s, a);
    match a {
      case Advance(ms) =>
        if timed { AdvanceKeepsTracks(s.db, p.G(), s.log, ms); }
        BreakerStore.TimeKeepsBreakers(s.db, ms, {});
      case Evict(keys) =>
        if timed { EvictKeepsTracks(s.db, p.G(), s.log, keys); }
        BreakerStore.TimeKeepsBreakers(s.db, 0, keys);
    }
    BreakerStore.SameBreakersRead(s.db, t.db);
    StoredLasts(p, timed, s, t);
    ProcessesLast(p, timed, s, t);
  }

  lemma NextKeeps(p: Params, timed: bool, s: Sys, a: Action)
    requires Inv(p, timed, s) && (timed ==> InTime(p, s, a))
    ensures Inv(p, timed, Next(p, s, a))
  {
    hide StoreInv, ProcessesOk, FreshOutcomes, HandlerStep, RouterStep, SlotStep, CrashStep;
    match a {
      case StartHandler(_, _) => BystanderKeeps(p, timed, s, a);
      case StepHandler(pid) => HandlerStepKeeps(p, timed, s, pid);
      case CrashHandler(_) => BystanderKeeps(p, timed, s, a);
      case StartRouter(pid, ids) =>
        if pid !in s.routers {
          ClockIsReal(p, timed, s);
          RouterMoves(p, timed, s, pid, ReadingStats(ids, s.db.now));
        }
      case StepRouter(pid, landed) => RouterStepKeeps(p, timed, s, pid, landed);
      case AskSlot(pid, c) => SlotKeeps(p, timed, s, pid, c);
      case CrashRouter(_) => BystanderKeeps(p, timed, s, a);
      case Advance(_) => TimeKeeps(p, timed, s, a);
      case Evict(_) => TimeKeeps(p, timed, s, a);
    }
  }

  lemma ClockIsReal(p: Params, timed: bool, s: Sys)
    requires p.Valid() && StoreInv(p, timed, s)
    ensures s.db.now >= 0
  {
  }

  /**
    * Safety over whole runs. Form, probe counts and the use of outcomes are kept
    * in every run; the window and the evidence in every run that is on time.
    */
  lemma {:induction false} RunsAreSafe(p: Params, timed: bool, states: seq<Sys>, actions: seq<Action>, i: nat)
    requires Run(p, states, actions) && (timed ==> OnTime(p, states, actions)) && i < |states|
    ensures Inv(p, timed, states[i])
    decreases i
  {
    hide Inv, Next, InTime;
    if i == 0 {
      InitIsSafe(p, timed);
    } else {
      RunsAreSafe(p, timed, states, actions, i - 1);
      NextKeeps(p, timed, states[i - 1], actions[i - 1]);
    }
  }

  /** A handler works with the snapshot `x` of channel `c`. */
  predicate HandlerHolds(h: HandlerState, c: string, x: Tagged) {
    || (h.ReadingWindow? && h.ev.channelId == c && h.current == x)
    || ((h.Writing? || h.Releasing?) && h.ev.channelId == c && h.next == x)
  }

  /** A router works with the snapshot `x` of channel `c`. */
  predicate RouterHolds(r: RouterState, c: string, x: Tagged) {
    || (r.Refreshing? && c in r.current && r.current[c] == x)
    || ((r.Refreshing? || r.Routed?) && c in r.next && r.next[c] == x)
  }

  /** The snapshot is in the store, or some process works with it. */
  ghost predicate Around(s: Sys, c: string, x: Tagged) {
    || x == ReadTagged(s, c)
    || (exists pid :: pid in s.handlers && HandlerHolds(s.handlers[pid], c, x))
    || (exists pid :: pid in s.routers && RouterHolds(s.routers[pid], c, x))
  }

  /**
    * In every run, however long a process takes between its steps, each snapshot
    * in the store or in flight is well formed, and its probe count is the number
    * of distinct successful outcomes of its channel that were used for it.
    */
  lemma SnapshotsAreSound(p: Params, states: seq<Sys>, actions: seq<Action>, i: nat, c: string, x: Tagged)
    requires Run(p, states, actions) && i < |states| && Around(states[i], c, x)
    ensures WellFormed(x.snap, p.config, states[i].db.now)
    ensures CountsSuccesses(states[i].log, states[i].spent, c, x)
  {
    hide WellFormed, CountsSuccesses;
    RunsAreSafe(p, false, states, actions, i);
    var s := states[i];
    if x == ReadTagged(s, c) {
      assert Good(false, p.config, s.log, s.spent, s.db.now, c, x);
    } else if pid :| pid in s.handlers && HandlerHolds(s.handlers[pid], c, x) {
      assert HandlerOk(p, false, s, s.handlers[pid]);
    } else {
      var pid :| pid in s.routers && RouterHolds(s.routers[pid], c, x);
      assert RouterOk(p, false, s, s.routers[pid]);
    }
  }

  /**
    * A handler that finds the breaker half open decides by its own outcome: a
    * failure opens the breaker at the clock reading of that outcome, and a success
    * counts one more or closes it.
    */
  lemma HandlerProbes(p: Params, s: Sys, pid: nat, ev: Event, now: int, own: nat)
    requires p.Valid() && pid in s.handlers && s.handlers[pid] == ReadingBreaker(ev, now, own)
    ensures
      var current := BreakerStore.BreakerAt(s.db, ev.channelId);
      var h := HandlerStep(p, s, pid).handlers[pid];
      && (current.state == HALF_OPEN ==> (h.Writing? && h.release) || (h.Releasing? && h.next.snap == current))
      && (current.state == HALF_OPEN && !ev.success ==> h.Writing? && h.next.snap == BreakerSnapshot(OPEN, now, 0))
      && (current.state == HALF_OPEN && ev.success && current.probeSuccess + 1 < p.config.breaker.probesToClose ==>
            h.Writing? && h.next.snap == current.(probeSuccess := current.probeSuccess + 1))
      && (current.state == HALF_OPEN && ev.success && current.probeSuccess + 1 >= p.config.breaker.probesToClose ==>
            h.Writing? && h.next.snap == BreakerSnapshot(CLOSED, 0, 0))
      && (current.state != HALF_OPEN ==> h.ReadingWindow? && h.current.snap == current)
  {
    hide BreakerStore.BreakerAt;
    ProbeMoves(BreakerStore.BreakerAt(s.db, ev.channelId), ev.success, p.config, now);
  }

  /** The last step of such a handler gives the probe slot of its channel back, and touches no other key. */
  lemma HandlerReleases(p: Params, s: Sys, pid: nat, ev: Event, next: Tagged)
    requires p.Valid() && pid in s.handlers && s.handlers[pid] == Releasing(ev, next)
    ensures
      var t := HandlerStep(p, s, pid);
      && !t.db.Live(Probe(ev.channelId)) && t.handlers[pid] == Finished(ev, Some(next.snap)) && t.db.now == s.db.now
      && forall k :: k != Probe(ev.channelId) ==>
           (k in t.db.data <==> k in s.db.data) && (k in s.db.data ==> t.db.data[k] == s.db.data[k])
  {
  }

  /**
    * Nobody writes a breaker that it leaves as it is: not the refresh loop, and not a
    * handler after reading the window.
    */
  lemma OnlyChangesAreWritten(p: Params, s: Sys, pid: nat, landed: bool)
    requires p.Valid()
    ensures
      pid in s.routers && s.routers[pid].Refreshing? && s.routers[pid].i < |s.routers[pid].ids| ==>
        var r, t := s.routers[pid], RouterStep(p, s, pid, landed);
        var c := r.ids[r.i];
        c in r.current && c in r.stats
        && (!landed || EvaluateBreaker(r.current[c].snap, r.stats[c], p.config, r.now) == r.current[c].snap) ==>
          t.db == s.db && t.routers[pid].Refreshing? && c in t.routers[pid].next
          && t.routers[pid].next[c].snap == EvaluateBreaker(r.current[c].snap, r.stats[c], p.config, r.now)
    ensures
      pid in s.handlers && s.handlers[pid].ReadingWindow? ==>
        var h, t := s.handlers[pid], HandlerStep(p, s, pid);
        var next := EvaluateBreaker(h.current.snap, WindowStore.StatsIn(s.db, p.G(), h.ev.channelId, h.now), p.config,
          h.now);
        t.db == s.db && if next == h.current.snap then t.handlers[pid] == Finished(h.ev, Some(next))
                        else t.handlers[pid].Writing? && t.handlers[pid].next.snap == next && !t.handlers[pid].release
  {
    hide EvaluateBreaker, WindowStore.StatsIn, BreakerStore.BreakerAt, BreakerStore.Written;
  }
}
