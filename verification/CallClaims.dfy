/** Whole calls and deduplication: the outcomes behind an opening and behind a closing belong to distinct events. */
module CallClaims {
  import opened Types
  import opened Keys
  import opened Redis
  import opened Window
  import opened WindowLog
  import WindowStore
  import BreakerStore
  import ProcessedStore
  import opened OutcomeHandler
  import opened Routing
  import ClaimLaws
  import opened CallRuns

  function TtlOf(q: Setup): int {
    1000 * q.ttlSeconds
  }

  /** While the claim of an applied outcome lasts, its key stands in the store. */
  ghost predicate KeyStands(q: Setup, db: Db, e: Applied) {
    && e.at <= db.now
    && (db.now < e.at + TtlOf(q) ==>
          Processed(e.eventId) in db.data && Lasting(db.data[Processed(e.eventId)], e.at + TtlOf(q)))
  }

  ghost predicate KeysStand(q: Setup, w: World) {
    forall i :: 0 <= i < |w.log| ==> KeyStands(q, w.db, w.log[i])
  }

  /** Two applied outcomes of one event lie a whole claim lifetime apart. */
  ghost predicate EventsApart(q: Setup, log: seq<Applied>) {
    forall i, j :: 0 <= i < j < |log| && log[i].eventId == log[j].eventId ==> log[j].at >= log[i].at + TtlOf(q)
  }

  ghost predicate Deduplicated(q: Setup, w: World) {
    KeysStand(q, w) && EventsApart(q, w.log)
  }

  /** Both stores agree on the claims of all events but one. */
  ghost predicate ClaimsBut(a: Db, b: Db, eventId: string) {
    && a.now == b.now
    && forall e :: e != eventId ==>
         (Processed(e) in a.data <==> Processed(e) in b.data)
           && (Processed(e) in a.data ==> a.data[Processed(e)] == b.data[Processed(e)])
  }

  lemma BreakerPartLeavesClaims(db: Db, q: Setup, c: string, success: bool, now: int)
    requires q.Valid()
    ensures ClaimLaws.SameClaimKeys(db, AppliedToBreaker(db, q.config, c, success, now))
  {
    hide BreakerStore.BreakerAt, BreakerStore.Written, Moved;
    var current := BreakerStore.BreakerAt(db, c);
    ClaimLaws.WriteIsQuiet(db, c, Moved(db, q.config, c, success, now));
    ClaimLaws.SlotIsQuiet(WriteIfChanged(db, c, current, Moved(db, q.config, c, success, now)), c, 0);
  }

  /** A call that applies an event sets the claim of that event and leaves every other claim alone. */
  lemma AppliedClaims(q: Setup, w: World, call: Call, e: Event)
    requires q.Valid() && AppliedBy(q, w, call) == Some(e)
    ensures !w.db.Live(Processed(e.eventId))
    ensures ClaimsBut(w.db, Next(q, w, call).db, e.eventId)
    ensures Processed(e.eventId) in Next(q, w, call).db.data
    ensures Lasting(Next(q, w, call).db.data[Processed(e.eventId)], w.db.now + TtlOf(q))
    ensures Next(q, w, call).log == w.log + [OutcomeOf(e, w.db.now)]
  {
    hide AppliedToBreaker, WindowStore.Recorded;
    var claimed := ProcessedStore.Claim(w.db, e.eventId, q.ttlSeconds).0;
    RecordTouches(claimed, q.G(), OutcomeOf(e, w.db.now));
    var recorded := AfterRecord(w.db, q.config, q.ttlSeconds, w.db.now, e);
    ClaimLaws.OtherKeysQuiet(claimed, recorded);
    BreakerPartLeavesClaims(recorded, q, e.channelId, e.success, w.db.now);
  }

  lemma {:induction false} WritesLeaveClaims(db: Db, ids: seq<string>, current: map<string, BreakerSnapshot>,
                                             next: map<string, BreakerSnapshot>, landed: string -> bool)
    requires forall c :: c in ids ==> c in next
    ensures ClaimLaws.SameClaimKeys(db, WriteChanges(db, ids, current, next, landed))
    decreases |ids|
  {
    hide BreakerStore.Written;
    if ids != [] {
      var n := |ids| - 1;
      WritesLeaveClaims(db, ids[..n], current, next, landed);
      ClaimLaws.WriteIsQuiet(WriteChanges(db, ids[..n], current, next, landed), ids[n], next[ids[n]]);
    }
  }

  /** A call that applies nothing leaves every claim that still lasts alone. */
  lemma OtherClaims(q: Setup, w: World, call: Call)
    requires Sound(q, w) && AppliedBy(q, w, call).None?
    ensures Next(q, w, call).log == w.log && Next(q, w, call).db.now >= w.db.now
    ensures forall e :: w.db.Live(Processed(e)) ==>
      Processed(e) in Next(q, w, call).db.data && Next(q, w, call).db.data[Processed(e)] == w.db.data[Processed(e)]
  {
    hide Sound, ProcessedStore.Claim, Refreshed, Route, AppliedToBreaker, AfterRecord;
    SoundIsValid(q, w);
    match call {
      case HandleCall(msg, _) =>
        if msg.Valid? {
          ProcessedStore.FailedClaim(w.db, msg.event.eventId, q.ttlSeconds);
        }
      case RouteCall(query, _, _) =>
        var ids := IdsOf(Reachable(query.all, query.supported));
        RouteDb(q, w, call);
        RefreshLeavesClaims(q, w, ids, query.landed);
        SlotsLeaveClaims(Refreshed(w.db, q.config, ids, w.db.now, query.landed));
      case _ =>
    }
  }

  lemma RefreshLeavesClaims(q: Setup, w: World, ids: seq<string>, landed: string -> bool)
    requires q.Valid()
    ensures ClaimLaws.SameClaimKeys(w.db, Refreshed(w.db, q.config, ids, w.db.now, landed))
  {
    hide NextBreakers;
    WritesLeaveClaims(w.db, ids, ReadBreakers(w.db, ids), NextBreakers(w.db, q.config, ids, w.db.now), landed);
  }

  lemma SlotsLeaveClaims(db: Db)
    ensures forall c :: ClaimLaws.SameClaimKeys(db, db.SetNx(Probe(c), BreakerStore.SLOT_TEXT, PROBE_SLOT_TTL_MS).0)
  {
  }

  lemma DeduplicatedNext(q: Setup, w: World, call: Call)
    requires Sound(q, w) && Deduplicated(q, w)
    ensures Deduplicated(q, Next(q, w, call))
  {
    hide Sound, Next;
    SoundIsValid(q, w);
    var t := Next(q, w, call);
    var e := AppliedBy(q, w, call);
    if e.Some? {
      hide AppliedBy;
      AppliedClaims(q, w, call, e.value);
      forall i | 0 <= i < |w.log| ensures KeyStands(q, t.db, w.log[i]) {
        assert KeyStands(q, w.db, w.log[i]);
      }
    } else {
      OtherClaims(q, w, call);
      forall i | 0 <= i < |w.log| ensures KeyStands(q, t.db, w.log[i]) {
        assert KeyStands(q, w.db, w.log[i]);
        assert w.db.now < w.log[i].at + TtlOf(q) ==> w.db.Live(Processed(w.log[i].eventId));
      }
    }
  }

  lemma {:induction false} RunDeduplicates(q: Setup, ws: seq<World>, calls: seq<Call>, i: nat)
    requires Run(q, ws, calls) && i < |ws|
    ensures Deduplicated(q, ws[i])
    decreases i
  {
    hide Sound, Next, Deduplicated;
    if i == 0 {
      StartDeduplicates(q);
    } else {
      RunIsSound(q, ws, calls, i - 1);
      RunDeduplicates(q, ws, calls, i - 1);
      DeduplicatedNext(q, ws[i - 1], calls[i - 1]);
    }
  }

  lemma StartDeduplicates(q: Setup)
    ensures Deduplicated(q, START)
  {
  }

  // ---------- Openings and closings ----------

  lemma DistinctInWindow(q: Setup, log: seq<Applied>, c: string, now: int)
    requires q.Valid() && EventsApart(q, log) && TtlOf(q) >= q.G().SpanMs()
    ensures ClaimLaws.DistinctEvents(Recent(log, q.G(), c, now))
  {
    var g := q.G();
    forall i, j | 0 <= i < j < |log| && Counts(g, log[i].at, now) && Counts(g, log[j].at, now)
      ensures log[i].eventId != log[j].eventId
    {
      CountedTogether(g, log[i].at, log[j].at, now);
    }
    ClaimLaws.RecentDistinct(g, log, c, now);
  }

  /**
    * Opening needs evidence. When a call opens a closed breaker, the window at
    * that moment holds at least `minSamples` outcomes, of distinct events, with
    * too few successes.
    */
  lemma OpeningIsProven(q: Setup, ws: seq<World>, calls: seq<Call>, n: nat, c: string)
    requires Run(q, ws, calls) && n < |calls| && TtlOf(q) >= q.G().SpanMs()
    ensures
      StateAt(ws[n], c).state == CLOSED && StateAt(ws[n + 1], c).state != CLOSED ==>
        && StateAt(ws[n + 1], c) == BreakerSnapshot(OPEN, ws[n].db.now, 0)
        && BadNow(q, ws[n + 1].log, c, ws[n].db.now)
        && ClaimLaws.DistinctEvents(Recent(ws[n + 1].log, q.G(), c, ws[n].db.now))
  {
    hide StateAt, Next, Sound, BadNow, Recent;
    RunIsSound(q, ws, calls, n);
    RunDeduplicates(q, ws, calls, n + 1);
    DistinctInWindow(q, ws[n + 1].log, c, ws[n].db.now);
    assert Moves(q, StateAt(ws[n], c), StateAt(ws[n + 1], c), OwnOutcome(q, ws[n], calls[n], c), ws[n + 1].log, c,
      ws[n].db.now);
  }

  ghost predicate Between(log: seq<Applied>, from: nat, first: int, last: int) {
    forall k :: from <= k < |log| ==> first <= log[k].at <= last
  }

  /** The outcomes that were applied from call `j` on carry clock readings from then on. */
  lemma {:induction false} LaterOutcomes(q: Setup, ws: seq<World>, calls: seq<Call>, j: nat, n: nat)
    requires Run(q, ws, calls) && j <= n < |calls|
    ensures ws[j].log <= ws[n + 1].log
    ensures Between(ws[n + 1].log, |ws[j].log|, ws[j].db.now, ws[n].db.now)
    decreases n
  {
    hide Sound, Next, Moves;
    LogGrows(q, ws, calls, j, n);
    RunIsSound(q, ws, calls, n);
    if j < n {
      LaterOutcomes(q, ws, calls, j, n - 1);
      LogGrows(q, ws, calls, n - 1, n);
    }
  }

  /** The outcomes of the log from position `from` on belong to distinct events. */
  ghost predicate DistinctFrom(log: seq<Applied>, from: nat) {
    forall i, k :: from <= i < k < |log| ==> log[i].eventId != log[k].eventId
  }

  /**
    * Closing needs distinct successes: the `probesToClose` successes in a row that
    * close a breaker belong to distinct events, when it was half open for less
    * than the lifetime of a claim.
    */
  lemma ClosingNeedsDistinctProbes(q: Setup, ws: seq<World>, calls: seq<Call>, n: nat, c: string)
    requires Run(q, ws, calls) && n < |calls|
    ensures
      StateAt(ws[n], c).state != CLOSED && StateAt(ws[n + 1], c).state == CLOSED ==>
        exists j: nat ::
          && j <= n && BecameHalfOpen(q, ws, j, c) && ProbeRun(ws, j, n, n + 1, c, q.config.breaker.probesToClose)
          && (ws[n].db.now - ws[j].db.now < TtlOf(q) ==> DistinctFrom(ws[n + 1].log, |ws[j].log|))
  {
    hide StateAt, Next, BecameHalfOpen, ProbeRun, EventsApart;
    if StateAt(ws[n], c).state != CLOSED && StateAt(ws[n + 1], c).state == CLOSED {
      ClosingNeedsProbes(q, ws, calls, n, c);
      var j: nat :| j <= n && BecameHalfOpen(q, ws, j, c)
        && ProbeRun(ws, j, n, n + 1, c, q.config.breaker.probesToClose);
      LaterOutcomes(q, ws, calls, j, n);
      RunDeduplicates(q, ws, calls, n + 1);
      if ws[n].db.now - ws[j].db.now < TtlOf(q) {
        SoonIsDistinct(q, ws[n + 1].log, |ws[j].log|, ws[j].db.now, ws[n].db.now);
      }
    }
  }

  lemma SoonIsDistinct(q: Setup, log: seq<Applied>, from: nat, first: int, last: int)
    requires EventsApart(q, log) && last - first < TtlOf(q)
    requires Between(log, from, first, last)
    ensures DistinctFrom(log, from)
  {
  }
}
