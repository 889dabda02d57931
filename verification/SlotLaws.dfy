/** The probe slot over whole interleaved runs. */
module SlotLaws {
  import opened Types
  import opened Keys
  import opened Redis
  import opened WindowLog
  import Routing
  import BreakerStore
  import WindowStore
  import opened Interleaving

  /** The step in which a router gets the slot of a channel. */
  predicate Takes(s: Sys, t: Sys, a: Action, c: string) {
    && a.AskSlot? && a.channelId == c && a.pid in s.routers && a.pid in t.routers
    && s.routers[a.pid].Routed? && s.routers[a.pid].slot.None?
    && t.routers[a.pid].Routed? && t.routers[a.pid].slot == Some(c)
  }

  /** The step in which a handler gives the slot of a channel back, whoever took it. */
  predicate Releases(s: Sys, a: Action, c: string) {
    a.StepHandler? && a.pid in s.handlers && s.handlers[a.pid].Releasing? && s.handlers[a.pid].ev.channelId == c
  }

  predicate SlotHeld(db: Db, c: string, until: int) {
    Probe(c) in db.data && db.data[Probe(c)].expireAt == Some(until)
  }

  /** A successful take finds the slot free and holds it for its lifetime. */
  lemma TakeHolds(s: Sys, t: Sys, a: Action, c: string, p: Params)
    requires p.Valid() && t == Next(p, s, a) && Takes(s, t, a, c)
    ensures !s.db.Live(Probe(c))
    ensures SlotHeld(t.db, c, s.db.now + Routing.PROBE_SLOT_TTL_MS) && t.db.now == s.db.now
  {
  }

  /** A router that saw a channel half open and asks for its slot gets it exactly when the slot is free. */
  lemma FreeSlotIsTaken(p: Params, s: Sys, pid: nat, c: string)
    requires p.Valid() && pid in s.routers && s.routers[pid].Routed? && s.routers[pid].slot.None?
    requires c in s.routers[pid].next && s.routers[pid].next[c].snap.state == HALF_OPEN
    ensures Takes(s, Next(p, s, AskSlot(pid, c)), AskSlot(pid, c), c) <==> !s.db.Live(Probe(c))
  {
  }

  /** Only a router that saw the channel half open, and has no slot yet, gets a slot. */
  lemma TakerSawHalfOpen(p: Params, s: Sys, a: Action, c: string)
    requires p.Valid() && Takes(s, Next(p, s, a), a, c)
    ensures c in s.routers[a.pid].next && s.routers[a.pid].next[c].snap.state == HALF_OPEN
    ensures !s.db.Live(Probe(c))
  {
  }

  lemma WriteKeepsSlot(db: Db, d: string, x: BreakerSnapshot, c: string)
    ensures var after := BreakerStore.Written(db, d, x);
      after.now == db.now && (Probe(c) in after.data <==> Probe(c) in db.data)
        && (Probe(c) in db.data ==> after.data[Probe(c)] == db.data[Probe(c)])
  {
    hide BreakerStore.SnapshotFields;
  }

  /** The stores agree on the clock and on the slot of one channel. */
  ghost predicate SameSlot(a: Db, b: Db, c: string) {
    && a.now == b.now
    && (Probe(c) in a.data <==> Probe(c) in b.data)
    && (Probe(c) in a.data ==> a.data[Probe(c)] == b.data[Probe(c)])
  }

  lemma HandlerLeavesSlot(p: Params, s: Sys, pid: nat, c: string)
    requires p.Valid()
    ensures HandlerStep(p, s, pid).db.now == s.db.now
    ensures !Releases(s, StepHandler(pid), c) ==> SameSlot(s.db, HandlerStep(p, s, pid).db, c)
  {
    hide BreakerStore.Written, BreakerStore.BreakerAt, WindowStore.Recorded, WindowStore.StatsIn;
    hide EvaluateTagged, ProbeTagged;
    if pid in s.handlers {
      match s.handlers[pid] {
        case Recording(ev, claim, now) =>
          RecordTouches(s.db, p.G(), Outcome(ev, now));
          assert !WindowKey(Probe(c));
        case Writing(ev, next, _) => WriteKeepsSlot(s.db, ev.channelId, next.snap, c);
        case _ =>
      }
    }
  }

  lemma RouterLeavesSlot(p: Params, s: Sys, pid: nat, landed: bool, c: string)
    requires p.Valid()
    ensures SameSlot(s.db, RouterStep(p, s, pid, landed).db, c)
  {
    hide BreakerStore.Written, BreakerStore.BreakerAt, WindowStore.StatsIn, EvaluateTagged;
    if pid in s.routers && s.routers[pid].Refreshing? && s.routers[pid].i < |s.routers[pid].ids| {
      var r := s.routers[pid];
      var id := r.ids[r.i];
      if id in r.current && id in r.stats {
        WriteKeepsSlot(s.db, id, EvaluateTagged(r.current[id], r.stats[id], p.config, r.now).snap, c);
      }
    }
  }

  /** A held slot stays held through every step but its release, until its lifetime ends. */
  lemma HeldStays(p: Params, s: Sys, a: Action, c: string, until: int)
    requires p.Valid() && SlotHeld(s.db, c, until) && !Releases(s, a, c)
    requires Next(p, s, a).db.now < until
    ensures SlotHeld(Next(p, s, a).db, c, until)
  {
    hide HandlerStep, RouterStep;
    match a {
      case StepHandler(pid) => HandlerLeavesSlot(p, s, pid, c);
      case StepRouter(pid, landed) => RouterLeavesSlot(p, s, pid, landed, c);
      case _ =>
    }
  }

  lemma ClockForward(p: Params, s: Sys, a: Action)
    requires p.Valid()
    ensures Next(p, s, a).db.now >= s.db.now
  {
    hide HandlerStep, RouterStep;
    match a {
      case StepHandler(pid) => HandlerLeavesSlot(p, s, pid, "");
      case StepRouter(pid, landed) => RouterLeavesSlot(p, s, pid, landed, "");
      case _ =>
    }
  }

  /** One step of a run. */
  lemma RunStep(p: Params, states: seq<Sys>, actions: seq<Action>, i: nat)
    requires Run(p, states, actions) && i < |actions|
    ensures p.Valid() && |states| == |actions| + 1 && states[i + 1] == Next(p, states[i], actions[i])
  {
    hide Next;
  }

  lemma {:induction false} HeldOverRun(p: Params, states: seq<Sys>, actions: seq<Action>, i: nat, j: nat, c: string,
      until: int)
    requires Run(p, states, actions) && i <= j < |states| && |states| == |actions| + 1
    requires SlotHeld(states[i].db, c, until)
    requires forall k :: i <= k < j ==> !Releases(states[k], actions[k], c)
    requires forall k :: i <= k <= j ==> states[k].db.now < until
    ensures SlotHeld(states[j].db, c, until)
    decreases j
  {
    hide Run, Next, Releases, SlotHeld;
    if i < j {
      HeldOverRun(p, states, actions, i, j - 1, c, until);
      RunStep(p, states, actions, j - 1);
      HeldStays(p, states[j - 1], actions[j - 1], c, until);
    }
  }

  lemma {:induction false} ClockOverRun(p: Params, states: seq<Sys>, actions: seq<Action>, i: nat, j: nat)
    requires Run(p, states, actions) && i <= j < |states| && |states| == |actions| + 1
    ensures states[i].db.now <= states[j].db.now
    decreases j
  {
    hide Run, Next;
    if i < j {
      ClockOverRun(p, states, actions, i, j - 1);
      RunStep(p, states, actions, j - 1);
      ClockForward(p, states[j - 1], actions[j - 1]);
    }
  }

  /**
    * Between two successful takes of one slot there is a release of that channel, or the
    * whole lifetime of the first take has passed.
    */
  lemma TakesAreApart(p: Params, states: seq<Sys>, actions: seq<Action>, i: nat, j: nat, c: string)
    requires Run(p, states, actions) && |states| == |actions| + 1 && i < j < |actions|
    requires Takes(states[i], states[i + 1], actions[i], c) && Takes(states[j], states[j + 1], actions[j], c)
    ensures (exists k :: i < k < j && Releases(states[k], actions[k], c))
      || states[j].db.now >= states[i].db.now + Routing.PROBE_SLOT_TTL_MS
  {
    hide Run, Next, Takes, Releases;
    RunStep(p, states, actions, i);
    RunStep(p, states, actions, j);
    TakeHolds(states[i], states[i + 1], actions[i], c, p);
    TakeHolds(states[j], states[j + 1], actions[j], c, p);
    var until := states[i].db.now + Routing.PROBE_SLOT_TTL_MS;
    forall k | i + 1 <= k <= j ensures states[k].db.now <= states[j].db.now {
      ClockOverRun(p, states, actions, k, j);
    }
    if (forall k :: i < k < j ==> !Releases(states[k], actions[k], c)) && states[j].db.now < until {
      HeldOverRun(p, states, actions, i + 1, j, c, until);
      assert false;
    }
  }
}
