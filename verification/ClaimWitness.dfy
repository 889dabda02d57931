/**
  * How long a claim must last: a shorter lifetime gives a run in which one window
  * counts one event twice, and a redelivery within it is a duplicate in any case.
  */
module ClaimWitness {
  import opened Types
  import opened Keys
  import opened Redis
  import opened Window
  import opened WindowLog
  import ProcessedStore
  import opened OutcomeHandler
  import opened Interleaving
  import opened ClaimLaws

  /**
    * In every run, a redelivery within the lifetime of a claim is a duplicate, even when
    * the claimed outcome was lost before it was recorded.
    */
  lemma RedeliveryIsDuplicate(p: Params, states: seq<Sys>, actions: seq<Action>, i: nat, k: nat, pid: nat, ev: Event)
    requires Run(p, states, actions) && i < |states| && k < |states[i].claims|
    requires pid in states[i].handlers && states[i].handlers[pid] == Claiming(ev)
    ensures
      var s := states[i];
      ev.eventId == s.claims[k].eventId && s.db.now < s.claims[k].at + TtlOf(p) ==>
        HandlerStep(p, s, pid) == SetHandler(s, pid, Finished(ev, None))
  {
    RunsKeepClaims(p, false, states, actions, i);
    var s := states[i];
    if ev.eventId == s.claims[k].eventId && s.db.now < s.claims[k].at + TtlOf(p) {
      assert KeyStands(p, s, s.claims[k]);
      assert s.db.Live(Processed(ev.eventId));
      ProcessedStore.FailedClaim(s.db, ev.eventId, p.ttlSeconds);
    }
  }

  /** A run that is on time. */
  ghost predicate Prompt(p: Params, states: seq<Sys>, actions: seq<Action>) {
    Run(p, states, actions) && OnTime(p, states, actions)
  }

  lemma Extend(p: Params, states: seq<Sys>, actions: seq<Action>, a: Action)
      returns (longer: seq<Sys>, more: seq<Action>)
    requires Prompt(p, states, actions) && InTime(p, states[|states| - 1], a)
    ensures Prompt(p, longer, more) && |longer| > 0 && longer[|longer| - 1] == Next(p, states[|states| - 1], a)
  {
    hide Next, InTime;
    longer, more := states + [Next(p, states[|states| - 1], a)], actions + [a];
    forall i | 0 <= i < |more| ensures InTime(p, longer[i], more[i]) && longer[i + 1] == Next(p, longer[i], more[i]) {
      if i < |actions| {
        assert longer[i] == states[i] && longer[i + 1] == states[i + 1] && more[i] == actions[i];
      }
    }
  }

  /** The claim of `eventId` ends at `until`, at the latest. */
  predicate ClaimedUntil(db: Db, eventId: string, until: int) {
    Processed(eventId) in db.data ==>
      db.data[Processed(eventId)].expireAt.Some? && db.data[Processed(eventId)].expireAt.value <= until
  }

  lemma RecordLeavesClaim(p: Params, states: seq<Sys>, actions: seq<Action>, pid: nat, ev: Event, until: int)
    requires Prompt(p, states, actions)
    requires var s := states[|states| - 1];
      pid in s.handlers && s.handlers[pid].Recording? && s.handlers[pid].ev == ev && s.handlers[pid].now == s.db.now
      && ClaimedUntil(s.db, ev.eventId, until)
    ensures ClaimedUntil(HandlerStep(p, states[|states| - 1], pid).db, ev.eventId, until)
    ensures HandlerStep(p, states[|states| - 1], pid).db.now == states[|states| - 1].db.now
  {
    var s := states[|states| - 1];
    RecordTouches(s.db, p.G(), Outcome(ev, s.db.now));
    assert !WindowKey(Processed(ev.eventId));
  }

  /** A new handler claims the event, waits, reads the clock and records. */
  lemma OneOutcome(p: Params, states: seq<Sys>, actions: seq<Action>, pid: nat, ev: Event, wait: nat)
      returns (longer: seq<Sys>, more: seq<Action>)
    requires Prompt(p, states, actions) && wait <= p.delay
    requires pid !in states[|states| - 1].handlers
      && ClaimedUntil(states[|states| - 1].db, ev.eventId, states[|states| - 1].db.now)
    ensures Prompt(p, longer, more) && |longer| > 0
    ensures
      var s, t := states[|states| - 1], longer[|longer| - 1];
      && t.db.now == s.db.now + wait && t.log == s.log + [Outcome(ev, t.db.now)]
        && t.handlers.Keys == s.handlers.Keys + {pid}
      && ClaimedUntil(t.db, ev.eventId, s.db.now + TtlOf(p))
  {
    var s := states[|states| - 1];
    hide Prompt;
    longer, more := Extend(p, states, actions, StartHandler(pid, ev));
    longer, more := Extend(p, longer, more, StepHandler(pid));
    longer, more := Extend(p, longer, more, Advance(wait));
    longer, more := Extend(p, longer, more, StepHandler(pid));
    RecordLeavesClaim(p, longer, more, pid, ev, s.db.now + TtlOf(p));
    longer, more := Extend(p, longer, more, StepHandler(pid));
  }

  lemma BucketOfMultiple(g: Geometry, k: int)
    requires g.Valid()
    ensures g.Bucket(k * g.bucketMs) == k
  {
    var b, m := g.Bucket(k * g.bucketMs), g.bucketMs;
    if b < k {
      MulMono(b + 1, k, m);
    }
    if b > k {
      MulMono(k + 1, b, m);
    }
  }

  lemma BothCount(g: Geometry, k: int, now: int)
    requires g.Valid() && k * g.bucketMs <= now < k * g.bucketMs + g.SpanMs()
    ensures Counts(g, k * g.bucketMs, now) && Counts(g, now, now)
  {
    BucketOfMultiple(g, k);
    BucketInWindow(g, k, now);
  }

  lemma FirstOutcome(p: Params, ev: Event, start: nat, wait: nat, rest: nat)
      returns (states: seq<Sys>, actions: seq<Action>)
    requires p.Valid() && Timely(p.G(), p.lag) && wait <= p.delay && wait + rest == TtlOf(p)
    ensures Prompt(p, states, actions)
    ensures
      var t := states[|states| - 1];
      && t.db.now == start + TtlOf(p) && t.log == [Outcome(ev, start + wait)] && t.handlers.Keys == {0}
      && ClaimedUntil(t.db, ev.eventId, t.db.now)
  {
    states, actions := [INIT], [];
    assert Prompt(p, states, actions);
    hide Run, HandlerStep, RouterStep;
    states, actions := Extend(p, states, actions, Advance(start));
    states, actions := OneOutcome(p, states, actions, 0, ev, wait);
    states, actions := Extend(p, states, actions, Advance(rest));
  }

  /**
    * A claim that lasts less than the window and the delay: two handlers claim one event,
    * one after the other, and both outcomes count.
    */
  lemma ShortClaimCountsTwice(p: Params) returns (states: seq<Sys>, actions: seq<Action>, now: int)
    requires p.Valid() && Timely(p.G(), p.lag) && 0 < TtlOf(p) < p.G().SpanMs() + p.delay
    ensures Prompt(p, states, actions) && |states| > 0 && !CountedOnce(p.G(), states[|states| - 1].log, now)
  {
    var g := p.G();
    var ev := Event(MAX_SUPPORTED_SCHEMA_VERSION, "e", "c", true, 0);
    var ttl: nat := TtlOf(p);
    var d: nat := if p.delay <= ttl then p.delay else ttl;
    MulMono(1, g.bucketMs, d);
    var start: nat := d * g.bucketMs - d;
    hide Prompt;
    states, actions := FirstOutcome(p, ev, start, d, ttl - d);
    states, actions := OneOutcome(p, states, actions, 1, ev, 0);
    now := start + ttl;
    BothCount(g, d, now);
    var log := states[|states| - 1].log;
    assert log[0] == Outcome(ev, d * g.bucketMs) && log[1] == Outcome(ev, now);
  }

  ghost predicate NeverCountsTwice(p: Params) {
    forall states: seq<Sys>, actions, i, now :: Prompt(p, states, actions) && 0 <= i < |states| ==>
      CountedOnce(p.G(), states[i].log, now)
  }

  /**
    * Deduplication meets the window exactly: no run on time counts an event twice if and
    * only if a claim outlives the window and the delay.
    */
  lemma CountedOnceExactly(p: Params)
    requires p.Valid() && Timely(p.G(), p.lag) && p.ttlSeconds > 0
    ensures NeverCountsTwice(p) <==> TtlOf(p) >= p.G().SpanMs() + p.delay
  {
    hide Prompt, CountedOnce;
    if TtlOf(p) >= p.G().SpanMs() + p.delay {
      forall states: seq<Sys>, actions, i, now | Prompt(p, states, actions) && 0 <= i < |states|
        ensures CountedOnce(p.G(), states[i].log, now)
      {
        PromptRun(p, states, actions);
        NoDoubleCount(p, states, actions, i, now);
      }
    } else {
      var states, actions, now := ShortClaimCountsTwice(p);
    }
  }

  lemma PromptRun(p: Params, states: seq<Sys>, actions: seq<Action>)
    requires Prompt(p, states, actions)
    ensures Run(p, states, actions) && OnTime(p, states, actions)
  {
  }
}
