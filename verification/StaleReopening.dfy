/**
  * Old failures and a recovered breaker: when `openMs` is shorter than the
  * window, failures from before an opening open the breaker again.
  */
module StaleReopening {
  import opened Types
  import opened Keys
  import opened Window
  import opened WindowLog
  import opened Breaker
  import opened Routing
  import opened CallRuns
  import opened CallSteps

  /** A breaker was open after call `i`, closed after call `n`, and open again after the next call. */
  ghost predicate Reopened(q: Setup, ws: seq<World>, calls: seq<Call>, i: nat, n: nat, c: string) {
    && Run(q, ws, calls) && i <= n < |calls|
    && StateAt(ws[i], c).state == OPEN && StateAt(ws[n], c).state == CLOSED && StateAt(ws[n + 1], c).state == OPEN
  }

  /** The window of the second opening holds only outcomes from after the first. */
  ghost predicate OnlyLater(q: Setup, ws: seq<World>, i: nat, n: nat, c: string)
    requires q.Valid() && i <= n && n + 1 < |ws|
  {
    forall e :: e in Recent(ws[n + 1].log, q.G(), c, ws[n].db.now) ==> e.at > StateAt(ws[i], c).openedAt
  }

  ghost predicate AlwaysFresh(q: Setup) {
    forall ws: seq<World>, calls: seq<Call>, i: nat, n: nat, c: string ::
      Reopened(q, ws, calls, i, n, c) ==> OnlyLater(q, ws, i, n, c)
  }

  lemma {:induction false} StillCounted(log: seq<Applied>, g: Geometry, c: string, now: int)
    requires g.Valid() && AllAtZero(log) && 0 <= now < g.SpanMs()
    ensures Recent(log, g, c, now) == Recent(log, g, c, 0)
  {
    if log != [] {
      StillCounted(log[..|log| - 1], g, c, now);
      BucketOfZero(g);
      BucketInWindow(g, 0, now);
    }
  }

  /** The open breaker waits for `openMs`, and a routing call makes it half open. */
  lemma WaitAndProbe(q: Setup, ws: seq<World>, calls: seq<Call>, all: seq<Channel>, used: nat, draw: nat -> real)
    returns (longer: seq<World>, more: seq<Call>)
    requires Ran(q, ws, calls) && FreshFrom(Last(ws), used) && all != [] && Last(ws).db.now == 0
    requires forall c :: c in IdsOf(all) ==> StateAt(Last(ws), c) == BreakerSnapshot(OPEN, 0, 0)
    ensures Ran(q, longer, more) && FreshFrom(Last(longer), used) && |longer| == |ws| + 2 && ws <= longer
    ensures Last(longer).db.now == q.config.breaker.openMs && Last(longer).log == Last(ws).log
    ensures forall c :: c in IdsOf(all) ==> StateAt(Last(longer), c) == BreakerSnapshot(HALF_OPEN, 0, 0)
    ensures Last(longer) == Next(q, longer[|longer| - 2], RouteCall(QueryOf(all), draw, 0))
    ensures Sound(q, longer[|longer| - 2]) && longer[|longer| - 2].db.now == q.config.breaker.openMs
    ensures longer[|longer| - 2].log == Last(ws).log
    ensures forall c :: c in IdsOf(all) ==> StateAt(longer[|longer| - 2], c) == BreakerSnapshot(OPEN, 0, 0)
  {
    hide Sound, Next, StateAt, Run, Unclaimed, IdsOf;
    SoundIsValid(q, Last(ws));
    AdvanceIs(q, Last(ws), q.config.breaker.openMs);
    longer, more := Then(q, ws, calls, Advance(q.config.breaker.openMs));
    RouteIs(q, Last(longer), all, draw, 0);
    longer, more := Then(q, longer, more, RouteCall(QueryOf(all), draw, 0));
  }

  /** What the breaker looks like after `k` good probes. */
  function AfterProbes(q: Setup, k: nat): BreakerSnapshot {
    if k >= q.config.breaker.probesToClose then CLOSED_BREAKER else BreakerSnapshot(HALF_OPEN, 0, k)
  }

  /** Good probes close the breaker, and the old failures still count beside them. */
  lemma {:induction false} SucceedMany(q: Setup, ws: seq<World>, calls: seq<Call>, c: string, failed: nat, k: nat,
      used: nat)
    returns (longer: seq<World>, more: seq<Call>)
    requires Ran(q, ws, calls) && FreshFrom(Last(ws), used) && k <= q.config.breaker.probesToClose
    requires StateAt(Last(ws), c) == BreakerSnapshot(HALF_OPEN, 0, 0) && q.Valid()
      && WindowHolds(q, Last(ws), c, 0, failed)
    ensures Ran(q, longer, more) && FreshFrom(Last(longer), used + k) && ws <= longer
    ensures StateAt(Last(longer), c) == AfterProbes(q, k) && WindowHolds(q, Last(longer), c, k, failed + k)
    ensures Last(longer).db.now == Last(ws).db.now && Last(ws).log <= Last(longer).log
  {
    hide Sound, Next, StateAt, Run, FreshFrom, Recent, WindowHolds;
    if k == 0 {
      longer, more := ws, calls;
    } else {
      longer, more := SucceedMany(q, ws, calls, c, failed, k - 1, used);
      var w := Last(longer);
      longer, more := NextEvent(q, longer, more, c, true, used + k - 1);
      WindowGrows(q, w, Last(longer), EventOf(used + k - 1, c, true), c, k - 1, failed + k - 1);
    }
  }

  /** So many failures that the good probes do not lift the share over the threshold. */
  lemma EnoughFailures(q: Setup) returns (m: nat)
    requires q.Valid() && CanOpen(q)
    ensures m >= q.config.minSamples
      && Bad(q.config.breaker.probesToClose, m + q.config.breaker.probesToClose, q.config)
  {
    var probes, threshold := q.config.breaker.probesToClose, q.config.breaker.failureRateThreshold;
    var share := probes as real / threshold;
    m := q.config.minSamples + share.Floor + 1;
    assert share * threshold == probes as real;
    TimesGrows(share, (m + probes) as real, threshold);
  }

  lemma TimesGrows(a: real, b: real, x: real)
    requires a < b && x > 0.0
    ensures a * x < x * b
  {
    RealMulMono(a, b, x);
  }

  lemma StartWindow(q: Setup, c: string)
    requires q.Valid()
    ensures StateAt(START, c) == CLOSED_BREAKER && WindowHolds(q, START, c, 0, 0) && FreshFrom(START, 0)
      && AllAtZero(START.log)
  {
    assert START.db.Fields(Breaker(c)) == map[];
  }

  /**
    * The run: enough failures at time zero open the breaker, it becomes half open
    * after `openMs`, `probesToClose` good probes close it, and the next routing
    * call opens it on the failures from time zero.
    */
  lemma OldFailuresReopen(q: Setup, c: string) returns (ws: seq<World>, calls: seq<Call>, i: nat, n: nat)
    requires q.Valid() && CanOpen(q) && q.config.breaker.openMs < q.G().SpanMs()
    ensures Reopened(q, ws, calls, i, n, c) && !OnlyLater(q, ws, i, n, c)
  {
    hide StateAt, Next, Run, Recent, FreshFrom;
    var m := EnoughFailures(q);
    var probes, wait := q.config.breaker.probesToClose, q.config.breaker.openMs;
    var all := [Channel(c, "", 0.0, true)];
    assert IdsOf(all)[0] == c;
    ws, calls := Begin(q);
    StartWindow(q, c);
    ws, calls := FailMany(q, ws, calls, c, m, 0);
    var before := ws;
    i := |ws| - 1;
    ws, calls := WaitAndProbe(q, ws, calls, all, m, k => 0.0);
    StillCounted(Last(before).log, q.G(), c, wait);
    ws, calls := SucceedMany(q, ws, calls, c, m, probes, m);
    var closed := ws;
    n := |ws| - 1;
    RouteIs(q, Last(ws), all, k => 0.0, 0);
    EvaluateWindow(q, Last(ws), StateAt(Last(ws), c), c, probes, m + probes);
    ws, calls := Then(q, ws, calls, RouteCall(QueryOf(all), k => 0.0, 0));
    RunLengths(q, ws, calls);
    assert ws[i] == Last(before) && ws[n] == Last(closed);
    OldCounts(q, Last(before), Last(closed), c, m, wait);
  }

  lemma RunLengths(q: Setup, ws: seq<World>, calls: seq<Call>)
    requires Run(q, ws, calls)
    ensures |ws| == |calls| + 1
  {
  }

  /** Some failure from time zero is still in the window. */
  lemma OldCounts(q: Setup, before: World, closed: World, c: string, m: nat, now: int)
    requires q.Valid() && 0 <= now < q.G().SpanMs() && AllAtZero(before.log) && before.log <= closed.log
    requires before.db.now == 0 && WindowHolds(q, before, c, 0, m) && m > 0
    ensures exists e :: e in Recent(closed.log, q.G(), c, now) && e.at == 0
  {
    var e := Recent(before.log, q.G(), c, 0)[0];
    assert e in before.log;
    assert e in closed.log;
    BucketOfZero(q.G());
    BucketInWindow(q.G(), 0, now);
    assert e in Recent(closed.log, q.G(), c, now);
  }

  /** A breaker with a threshold of zero or less never opens from closed. */
  lemma NeverReopens(q: Setup, ws: seq<World>, calls: seq<Call>, i: nat, n: nat, c: string)
    requires q.config.breaker.failureRateThreshold <= 0.0 && q.config.minSamples > 0
    ensures !Reopened(q, ws, calls, i, n, c)
  {
    if Reopened(q, ws, calls, i, n, c) {
      hide StateAt, Next, Sound, Recent, Run, Bad;
      RunIsSound(q, ws, calls, n);
      NeverBad(q, ws[n + 1].log, c, ws[n].db.now);
    }
  }

  lemma NeverBad(q: Setup, log: seq<Applied>, c: string, now: int)
    requires q.Valid() && q.config.breaker.failureRateThreshold <= 0.0 && q.config.minSamples > 0
    ensures !BadNow(q, log, c, now)
  {
    hide Recent;
    NonPositive(q.config.breaker.failureRateThreshold, |Recent(log, q.G(), c, now)| as real);
  }

  lemma NonPositive(x: real, y: real)
    requires x <= 0.0 && y >= 0.0
    ensures x * y <= 0.0
  {
  }

  /**
    * Fresh evidence, exactly: no run opens a recovered breaker on outcomes from
    * before its earlier opening if and only if `openMs` covers the window, or the
    * threshold keeps a closed breaker from opening at all.
    */
  lemma FreshReopeningsExactly(q: Setup)
    requires q.Valid() && q.config.minSamples > 0
    ensures AlwaysFresh(q)
      <==> q.config.breaker.openMs >= q.G().SpanMs() || q.config.breaker.failureRateThreshold <= 0.0
  {
    if q.config.breaker.failureRateThreshold <= 0.0 {
      forall ws, calls, i, n, c ensures !Reopened(q, ws, calls, i, n, c) {
        NeverReopens(q, ws, calls, i, n, c);
      }
    } else if q.config.breaker.openMs >= q.G().SpanMs() {
      hide StateAt;
      forall ws, calls, i, n, c | Reopened(q, ws, calls, i, n, c) ensures OnlyLater(q, ws, i, n, c) {
        FreshEvidence(q, ws, calls, i, n, c);
      }
    } else {
      hide Reopened, OnlyLater;
      var ws, calls, i, n := OldFailuresReopen(q, "c");
    }
  }

  /** The default configuration of the routing, with some time for claims and some order. */
  function Defaults(ttlSeconds: int, lt: (string, string) -> bool): Setup {
    Setup(RoutingConfig(60000, 5000, 200, 20, 2000, Weights(0.6, 0.3, 0.1), BreakerConfig(0.5, 30000, 3), 0.1,
      ColdStart(0.8, 0.5)),
          ttlSeconds, lt)
  }

  /** With the defaults a recovered breaker can open again on the failures that had opened it before. */
  lemma DefaultsReopen(ttlSeconds: int, lt: (string, string) -> bool)
    ensures !AlwaysFresh(Defaults(ttlSeconds, lt))
  {
    var q := Defaults(ttlSeconds, lt);
    assert q.G().Valid();
    SpanFitsTtl(q.G());
    FreshReopeningsExactly(q);
  }
}
