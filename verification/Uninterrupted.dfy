/** A process that nobody interrupts: its small steps add up to one whole call of `handle` or of the breaker refresh. */
module Uninterrupted {
  import opened Types
  import opened Redis
  import opened Window
  import WindowStore
  import opened Breaker
  import BreakerStore
  import ProcessedStore
  import opened OutcomeHandler
  import Routing
  import opened Interleaving

  function HandlerSteps(p: Params, s: Sys, pid: nat, k: nat): Sys
    requires p.Valid()
    decreases k
  {
    if k == 0 then s else HandlerSteps(p, HandlerStep(p, s, pid), pid, k - 1)
  }

  lemma ThreeSteps(p: Params, s: Sys, pid: nat, k: nat)
    requires p.Valid()
    ensures HandlerSteps(p, s, pid, k + 3)
      == HandlerSteps(p, HandlerStep(p, HandlerStep(p, HandlerStep(p, s, pid), pid), pid), pid, k)
  {
    hide HandlerStep;
    var one := HandlerStep(p, s, pid);
    var two := HandlerStep(p, one, pid);
    assert HandlerSteps(p, s, pid, k + 3) == HandlerSteps(p, one, pid, k + 2);
    assert HandlerSteps(p, one, pid, k + 2) == HandlerSteps(p, two, pid, k + 1);
  }

  /** The steps that follow the record of the outcome. */
  lemma BreakerPartIsWhole(p: Params, s: Sys, pid: nat, ev: Event, now: int, own: nat)
    requires p.Valid() && pid in s.handlers && s.handlers[pid] == ReadingBreaker(ev, now, own)
    ensures
      var t := HandlerSteps(p, s, pid, 3);
      && t.db == AppliedToBreaker(s.db, p.config, ev.channelId, ev.success, now) && t.log == s.log
      && pid in t.handlers
        && t.handlers[pid] == Finished(ev, Some(Moved(s.db, p.config, ev.channelId, ev.success, now)))
  {
    hide BreakerStore.BreakerAt, BreakerStore.Written, WindowStore.StatsIn, EvaluateBreaker, RecordProbe, HandlerSteps;
    hide ProcessedStore.Claim, WindowStore.Recorded, GeometryOf;
    var three := HandlerStep(p, HandlerStep(p, HandlerStep(p, s, pid), pid), pid);
    ThreeSteps(p, s, pid, 0);
    NoSteps(p, three, pid);
    if BreakerStore.BreakerAt(s.db, ev.channelId).state == HALF_OPEN {
      assert three.handlers[pid].Finished?;
    } else {
      assert three.handlers[pid].Finished?;
    }
  }

  lemma {:induction false} FinishedStays(p: Params, s: Sys, pid: nat, k: nat)
    requires p.Valid() && pid in s.handlers && s.handlers[pid].Finished?
    ensures HandlerSteps(p, s, pid, k) == s
    decreases k
  {
    if k > 0 {
      FinishedStays(p, s, pid, k - 1);
    }
  }

  /**
    * Six steps from the claim, with nobody in between, are one call of `handle` on a
    * current event of a known channel.
    */
  lemma HandlerAloneIsHandle(p: Params, s: Sys, pid: nat, ev: Event)
    requires p.Valid() && pid in s.handlers && s.handlers[pid] == Claiming(ev)
      && ev.schemaVersion <= MAX_SUPPORTED_SCHEMA_VERSION
    ensures
      var t := HandlerSteps(p, s, pid, 6);
      var (db, outcome) := Handle(s.db, p.config, p.ttlSeconds, s.db.now, true, Valid(ev));
      && t.db == db && pid in t.handlers
      && t.handlers[pid] == Finished(ev, if outcome.Applied? then Some(outcome.breaker) else None)
      && t.log == s.log + if outcome.Applied? then [Outcome(ev, s.db.now)] else []
  {
    hide AppliedToBreaker, Moved, WindowStore.Recorded, ProcessedStore.Claim, ReadBreakerStep, ReadWindowStep;
    hide WriteStep, ReleaseStep, HandlerSteps;
    var one := HandlerStep(p, s, pid);
    ProcessedStore.ClaimKeepsClock(s.db, ev.eventId, p.ttlSeconds);
    ThreeSteps(p, s, pid, 3);
    if ProcessedStore.Claim(s.db, ev.eventId, p.ttlSeconds).1 {
      var three := HandlerStep(p, HandlerStep(p, one, pid), pid);
      assert three.handlers[pid] == ReadingBreaker(ev, s.db.now, |s.log|);
      BreakerPartIsWhole(p, three, pid, ev, s.db.now, |s.log|);
    } else {
      ProcessedStore.FailedClaim(s.db, ev.eventId, p.ttlSeconds);
      FinishedStays(p, one, pid, 3);
    }
  }

  lemma NoSteps(p: Params, s: Sys, pid: nat)
    requires p.Valid()
    ensures HandlerSteps(p, s, pid, 0) == s
  {
  }

  // ---------- The refresh of a router ----------

  /** Whether the next write of the refresh loop lands. */
  predicate LandsNow(s: Sys, pid: nat, landed: string -> bool) {
    pid in s.routers && s.routers[pid].Refreshing? && s.routers[pid].i < |s.routers[pid].ids| ==>
      landed(s.routers[pid].ids[s.routers[pid].i])
  }

  function RouterSteps(p: Params, s: Sys, pid: nat, k: nat, landed: string -> bool): Sys
    requires p.Valid()
    decreases k
  {
    if k == 0 then s
    else
      var t := RouterSteps(p, s, pid, k - 1, landed);
      RouterStep(p, t, pid, LandsNow(t, pid, landed))
  }

  /** The state of a router that runs alone, after `i` turns of its refresh loop. */
  ghost predicate RefreshedUpTo(p: Params, s: Sys, ids: seq<string>, now: int, t: Sys, pid: nat, i: nat,
      landed: string -> bool)
    requires p.Valid() && i <= |ids|
  {
    var current, next := Routing.ReadBreakers(s.db, ids), Routing.NextBreakers(s.db, p.config, ids, now);
    && t.db == Routing.WriteChanges(s.db, ids[..i], current, next, landed)
    && pid in t.routers && t.routers[pid].Refreshing? && t.routers[pid].i == i
    && t.routers[pid].ids == ids && t.routers[pid].now == now
    && t.routers[pid].stats == Routing.ReadStats(s.db, p.config, ids, now)
    && (forall c :: c in t.routers[pid].current <==> c in ids)
    && (forall c :: c in ids ==> t.routers[pid].current[c].snap == current[c])
    && (forall c :: c in t.routers[pid].next <==> c in ids[..i])
    && (forall c :: c in t.routers[pid].next ==> t.routers[pid].next[c].snap == next[c])
  }

  lemma OneMoreWrite(db: Db, ids: seq<string>, i: nat, current: map<string, BreakerSnapshot>,
      next: map<string, BreakerSnapshot>,
                     landed: string -> bool)
    requires i < |ids| && forall c :: c in ids ==> c in next
    ensures
      var before := Routing.WriteChanges(db, ids[..i], current, next, landed);
      Routing.WriteChanges(db, ids[..i + 1], current, next, landed)
      == if Routing.Changed(Routing.SnapshotOf(current, ids[i]), next[ids[i]]) && landed(ids[i]) then
           BreakerStore.Written(before, ids[i], next[ids[i]])
         else before
  {
    assert ids[..i + 1][..i] == ids[..i];
  }

  lemma RefreshGoesOn(p: Params, s: Sys, ids: seq<string>, now: int, t: Sys, pid: nat, i: nat, landed: string -> bool)
    requires p.Valid() && i < |ids| && RefreshedUpTo(p, s, ids, now, t, pid, i, landed)
    ensures RefreshedUpTo(p, s, ids, now, RouterStep(p, t, pid, landed(ids[i])), pid, i + 1, landed)
  {
    hide BreakerStore.BreakerAt, BreakerStore.Written, WindowStore.StatsIn, EvaluateBreaker, Routing.Changed;
    hide Routing.WriteChanges, GeometryOf;
    var current, next := Routing.ReadBreakers(s.db, ids), Routing.NextBreakers(s.db, p.config, ids, now);
    var stats := Routing.ReadStats(s.db, p.config, ids, now);
    OneMoreWrite(s.db, ids, i, current, next, landed);
    assert ids[i] in ids;
    assert next[ids[i]] == EvaluateBreaker(current[ids[i]], stats[ids[i]], p.config, now);
    hide Routing.ReadBreakers, Routing.NextBreakers, Routing.ReadStats;
    assert ids[..i + 1] == ids[..i] + [ids[i]];
  }

  lemma RouterReads(p: Params, s: Sys, pid: nat, ids: seq<string>, now: int, landed: string -> bool)
    requires p.Valid() && pid in s.routers && s.routers[pid] == ReadingStats(ids, now)
    ensures RefreshedUpTo(p, s, ids, now, RouterSteps(p, s, pid, 2, landed), pid, 0, landed)
  {
    hide BreakerStore.BreakerAt, WindowStore.StatsIn, EvaluateBreaker, RefreshStep, GeometryOf;
    assert RouterSteps(p, s, pid, 0, landed) == s;
    assert RouterSteps(p, s, pid, 1, landed) == RouterStep(p, s, pid, true);
  }

  lemma LandsAt(p: Params, s: Sys, ids: seq<string>, now: int, t: Sys, pid: nat, i: nat, landed: string -> bool)
    requires p.Valid() && i < |ids| && RefreshedUpTo(p, s, ids, now, t, pid, i, landed)
    ensures LandsNow(t, pid, landed) == landed(ids[i])
  {
  }

  lemma {:induction false} RouterTurns(p: Params, s: Sys, pid: nat, ids: seq<string>, now: int, i: nat,
      landed: string -> bool)
    requires p.Valid() && i <= |ids| && pid in s.routers && s.routers[pid] == ReadingStats(ids, now)
    ensures RefreshedUpTo(p, s, ids, now, RouterSteps(p, s, pid, i + 2, landed), pid, i, landed)
    decreases i
  {
    hide BreakerStore.BreakerAt, WindowStore.StatsIn, EvaluateBreaker, RefreshedUpTo;
    if i == 0 {
      RouterReads(p, s, pid, ids, now, landed);
    } else {
      hide RouterStep, LandsNow;
      RouterTurns(p, s, pid, ids, now, i - 1, landed);
      LandsAt(p, s, ids, now, RouterSteps(p, s, pid, i + 1, landed), pid, i - 1, landed);
      RefreshGoesOn(p, s, ids, now, RouterSteps(p, s, pid, i + 1, landed), pid, i - 1, landed);
    }
  }

  /** A router that nobody interrupts leaves the store, and sees the breakers, as the whole call of `route` does. */
  lemma RouterAloneIsRefresh(p: Params, s: Sys, pid: nat, ids: seq<string>, now: int, landed: string -> bool)
    requires p.Valid() && pid in s.routers && s.routers[pid] == ReadingStats(ids, now)
    ensures
      var t := RouterSteps(p, s, pid, |ids| + 3, landed);
      var next := Routing.NextBreakers(s.db, p.config, ids, now);
      && t.db == Routing.Refreshed(s.db, p.config, ids, now, landed)
      && pid in t.routers && t.routers[pid].Routed? && t.routers[pid].slot.None?
      && (forall c :: c in t.routers[pid].next <==> c in ids)
      && (forall c :: c in ids ==> t.routers[pid].next[c].snap == next[c])
  {
    hide BreakerStore.BreakerAt, WindowStore.StatsIn, EvaluateBreaker, Routing.WriteChanges;
    RouterTurns(p, s, pid, ids, now, |ids|, landed);
    assert ids[..|ids|] == ids;
  }
}
