/**
  * The window against a plain log of applied outcomes: in spite of buckets,
  * capped lists and key expiry, a read returns what the log says.
  */
module WindowLog {
  import opened Types
  import opened Decimal
  import opened Keys
  import opened Redis
  import opened Window
  import opened WindowStore

  /** One outcome that the window took in. `at` is the clock reading of its handler. */
  datatype Applied = Applied(channelId: string, eventId: string, at: int, success: bool, latencyMs: nat)

  /** The outcomes of one bucket, in the order in which they were applied. */
  function InBucket(log: seq<Applied>, g: Geometry, c: string, b: int): seq<Applied>
    requires g.Valid()
  {
    if log == [] then []
    else
      var e := log[|log| - 1];
      var before := InBucket(log[..|log| - 1], g, c, b);
      if e.channelId == c && g.Bucket(e.at) == b then before + [e] else before
  }

  /** The outcomes of one channel that count at `now`. */
  function Recent(log: seq<Applied>, g: Geometry, c: string, now: int): (recent: seq<Applied>)
    requires g.Valid()
    ensures forall e :: e in recent <==> e in log && e.channelId == c && Counts(g, e.at, now)
  {
    if log == [] then []
    else
      var e := log[|log| - 1];
      var before := Recent(log[..|log| - 1], g, c, now);
      if e.channelId == c && Counts(g, e.at, now) then before + [e] else before
  }

  function Tally(es: seq<Applied>, success: bool): nat {
    if es == [] then 0
    else Tally(es[..|es| - 1], success) + if es[|es| - 1].success == success then 1 else 0
  }

  function LatencySum(es: seq<Applied>): nat {
    if es == [] then 0 else LatencySum(es[..|es| - 1]) + es[|es| - 1].latencyMs
  }

  /** The newest latencies, newest first, at most `cap` of them. */
  function NewestFirst(es: seq<Applied>, cap: nat): (latencies: seq<nat>)
    ensures |latencies| == if |es| < cap then |es| else cap
  {
    if es == [] || cap == 0 then []
    else [es[|es| - 1].latencyMs] + NewestFirst(es[..|es| - 1], cap - 1)
  }

  /** Position `i` holds the latency of the i-th newest outcome. */
  lemma {:induction false} NewestFirstAt(es: seq<Applied>, cap: nat, i: nat)
    requires i < |NewestFirst(es, cap)|
    ensures NewestFirst(es, cap)[i] == es[|es| - 1 - i].latencyMs
    decreases i
  {
    if i > 0 {
      NewestFirstAt(es[..|es| - 1], cap - 1, i - 1);
    }
  }

  lemma {:induction false} NewestFirstShorter(es: seq<Applied>, cap: nat)
    requires cap > 0
    ensures NewestFirst(es, cap - 1)
         == if |NewestFirst(es, cap)| < cap then NewestFirst(es, cap) else NewestFirst(es, cap)[..cap - 1]
  {
    var s, l := NewestFirst(es, cap - 1), NewestFirst(es, cap);
    forall i | 0 <= i < |s| ensures s[i] == l[i] {
      NewestFirstAt(es, cap - 1, i);
      NewestFirstAt(es, cap, i);
    }
  }

  function Rendered(latencies: seq<nat>): (texts: seq<string>)
    ensures |texts| == |latencies|
  {
    seq(|latencies|, i requires 0 <= i < |latencies| => Render(latencies[i]))
  }

  function AsNums(latencies: seq<nat>): (nums: seq<Num>)
    ensures |nums| == |latencies|
  {
    seq(|latencies|, i requires 0 <= i < |latencies| => Finite(latencies[i] as real))
  }

  /** Cleaning the stored texts loses nothing: every one is a whole number, zero or more. */
  lemma {:induction false} CleanRendered(latencies: seq<nat>)
    ensures Clean(Rendered(latencies)) == AsNums(latencies)
  {
    if latencies != [] {
      ParseRender(latencies[0]);
      CleanRendered(latencies[1..]);
      assert Rendered(latencies)[1..] == Rendered(latencies[1..]);
      assert AsNums(latencies) == [Finite(latencies[0] as real)] + AsNums(latencies[1..]);
    }
  }

  /** A push and a trim keep the list at the newest latencies. */
  lemma PushKeepsNewest(es: seq<Applied>, e: Applied, cap: nat)
    requires cap > 0
    ensures SamplesAfter(Rendered(NewestFirst(es, cap)), e.latencyMs, cap) == Rendered(NewestFirst(es + [e], cap))
  {
    var l, s := NewestFirst(es, cap), NewestFirst(es, cap - 1);
    NewestFirstShorter(es, cap);
    assert (es + [e])[..|es|] == es;
    assert NewestFirst(es + [e], cap) == [e.latencyMs] + s;
    hide NewestFirst, Render;
    PushOne(l, e.latencyMs);
    assert |l| == cap ==> Rendered([e.latencyMs] + l)[..cap] == Rendered(([e.latencyMs] + l)[..cap]);
    assert |l| == cap ==> ([e.latencyMs] + l)[..cap] == [e.latencyMs] + s;
  }

  lemma PushOne(l: seq<nat>, latency: nat)
    ensures [Render(latency)] + Rendered(l) == Rendered([latency] + l)
  {
    hide Render;
  }

  predicate FieldHolds(fields: map<Field, string>, f: Field, n: int) {
    if f in fields then Parse(fields[f]) == Some(n) else n == 0
  }

  /** The counters of a bucket agree with its outcomes. */
  predicate CountersHold(fields: map<Field, string>, es: seq<Applied>) {
    && CounterHash(fields)
    && FieldHolds(fields, Field.Success, Tally(es, true))
    && FieldHolds(fields, Field.Failure, Tally(es, false))
    && FieldHolds(fields, LatSum, LatencySum(es))
  }

  lemma CountersAdvance(fields: map<Field, string>, es: seq<Applied>, e: Applied)
    requires CountersHold(fields, es)
    ensures CountersHold(CountersAfter(fields, e.success, e.latencyMs), es + [e])
  {
    hide Parse, Render;
    assert (es + [e])[..|es|] == es;
    BumpParses(fields, OutcomeField(e.success), 1);
    var mid := Bump(fields, OutcomeField(e.success), 1);
    BumpParses(mid, LatSum, e.latencyMs);
  }

  /** When the key of bucket `b` may die at the earliest. */
  function Horizon(g: Geometry, b: int): int {
    b * g.bucketMs + g.TtlMs()
  }

  predicate Lasting(entry: Entry, horizon: int) {
    entry.expireAt.Some? && entry.expireAt.value >= horizon
  }

  /** What the store must hold for one bucket of one channel. Past the horizon it may hold anything. */
  ghost predicate Cell(db: Db, g: Geometry, log: seq<Applied>, c: string, b: int)
    requires g.Valid()
  {
    var es := InBucket(log, g, c, b);
    var bk, lk := Bucket(c, b), Latency(c, b);
    if es == [] then bk !in db.data && lk !in db.data
    else db.now < Horizon(g, b) ==>
      && bk in db.data && Lasting(db.data[bk], Horizon(g, b))
      && lk in db.data && Lasting(db.data[lk], Horizon(g, b))
      && db.data[bk].value.Hash? && CountersHold(db.data[bk].value.fields, es)
      && db.data[lk].value == List(Rendered(NewestFirst(es, g.maxSamples)))
  }

  /** The store is a faithful image of the log. */
  ghost predicate Tracks(db: Db, g: Geometry, log: seq<Applied>)
    requires g.Valid()
  {
    forall c, b :: Cell(db, g, log, c, b)
  }

  /** A clock reading may lie behind the clock of the server by at most this much. */
  predicate Timely(g: Geometry, lag: nat)
    requires g.Valid()
  {
    g.SpanMs() + lag <= g.TtlMs()
  }

  /** With the guard `bucketMs <= windowMs`, a lag below `windowMs - bucketMs` is always safe. */
  lemma TimelyLag(g: Geometry, lag: nat)
    requires g.Valid() && lag <= g.windowMs - g.bucketMs
    ensures Timely(g, lag)
  {
    SpanFitsTtl(g);
  }

  lemma EmptyTracks(g: Geometry)
    requires g.Valid()
    ensures Tracks(EMPTY, g, [])
  {
  }

  predicate WindowKey(k: Key) {
    k.Bucket? || k.Latency?
  }

  /** What two stores agree on when neither the clock nor a window entry differs. */
  ghost predicate SameWindows(a: Db, b: Db) {
    a.now == b.now && forall k :: WindowKey(k) ==>
      (k in a.data <==> k in b.data) && (k in a.data ==> a.data[k] == b.data[k])
  }

  /** Writes to breakers, probe slots and claims never disturb the window. */
  lemma OtherKeysKeepTracks(a: Db, b: Db, g: Geometry, log: seq<Applied>)
    requires g.Valid() && Tracks(a, g, log) && SameWindows(a, b)
    ensures Tracks(b, g, log)
  {
    forall c, id ensures Cell(b, g, log, c, id) {
      assert Cell(a, g, log, c, id);
      assert WindowKey(Bucket(c, id)) && WindowKey(Latency(c, id));
    }
  }

  lemma AdvanceKeepsTracks(db: Db, g: Geometry, log: seq<Applied>, ms: nat)
    requires g.Valid() && Tracks(db, g, log)
    ensures Tracks(db.Advance(ms), g, log)
  {
    forall c, id ensures Cell(db.Advance(ms), g, log, c, id) {
      assert Cell(db, g, log, c, id);
    }
  }

  lemma EvictKeepsTracks(db: Db, g: Geometry, log: seq<Applied>, keys: set<Key>)
    requires g.Valid() && Tracks(db, g, log)
    ensures Tracks(db.Evict(keys), g, log)
  {
    forall c, id ensures Cell(db.Evict(keys), g, log, c, id) {
      assert Cell(db, g, log, c, id);
    }
  }

  lemma BucketStarts(g: Geometry, now: int, lag: nat, b: int)
    requires g.Valid() && Timely(g, lag)
    requires g.Bucket(now) - g.Count() < b <= g.Bucket(now)
    ensures b * g.bucketMs <= now && now + lag < Horizon(g, b)
  {
    BucketInWindow(g, b, now);
  }

  /** The bucket that takes the new outcome. */
  lemma RecordedCell(db: Db, g: Geometry, log: seq<Applied>, e: Applied, lag: nat)
    requires g.Valid() && Timely(g, lag) && Tracks(db, g, log)
    requires e.at <= db.now <= e.at + lag
    ensures Cell(Recorded(db, g, e.channelId, e.success, e.latencyMs, e.at), g, log + [e], e.channelId, g.Bucket(e.at))
  {
    hide CountersHold, CountersAfter, SamplesAfter, NewestFirst, Rendered, CounterHash, Recorded, Tracks;
    var b := g.Bucket(e.at);
    var es := InBucket(log, g, e.channelId, b);
    assert (log + [e])[..|log|] == log;
    BucketStarts(g, e.at, lag, b);
    StoredBucket(db, g, log, e.channelId, b);
    RecordedShape(db, g, e.channelId, e.success, e.latencyMs, e.at);
    CountersAdvance(db.Fields(Bucket(e.channelId, b)), es, e);
    PushKeepsNewest(es, e, g.maxSamples);
  }

  /** Every other bucket. */
  lemma OtherCell(db: Db, g: Geometry, log: seq<Applied>, e: Applied, lag: nat, c: string, b: int)
    requires g.Valid() && Timely(g, lag) && Tracks(db, g, log)
    requires e.at <= db.now <= e.at + lag && (c != e.channelId || b != g.Bucket(e.at))
    ensures Cell(Recorded(db, g, e.channelId, e.success, e.latencyMs, e.at), g, log + [e], c, b)
  {
    hide CountersHold, CountersAfter, SamplesAfter, NewestFirst, Rendered, CounterHash, Recorded;
    assert (log + [e])[..|log|] == log;
    assert Cell(db, g, log, c, b);
    BucketStarts(g, e.at, lag, g.Bucket(e.at));
    StoredBucket(db, g, log, e.channelId, g.Bucket(e.at));
    RecordedShape(db, g, e.channelId, e.success, e.latencyMs, e.at);
  }

  /** One outcome in the store is one outcome in the log, even when its clock reading is late. */
  lemma RecordKeepsTracks(db: Db, g: Geometry, log: seq<Applied>, e: Applied, lag: nat)
    requires g.Valid() && Timely(g, lag) && Tracks(db, g, log)
    requires e.at <= db.now <= e.at + lag
    ensures Tracks(Recorded(db, g, e.channelId, e.success, e.latencyMs, e.at), g, log + [e])
  {
    hide Cell, Recorded;
    RecordedCell(db, g, log, e, lag);
    forall c, b | c != e.channelId || b != g.Bucket(e.at)
      ensures Cell(Recorded(db, g, e.channelId, e.success, e.latencyMs, e.at), g, log + [e], c, b)
    {
      OtherCell(db, g, log, e, lag, c, b);
    }
  }

  /** The stores agree on the clock and on every entry outside the window. */
  ghost predicate OnlyWindowsDiffer(a: Db, b: Db) {
    a.now == b.now && forall k :: !WindowKey(k) ==>
      (k in a.data <==> k in b.data) && (k in a.data ==> a.data[k] == b.data[k])
  }

  lemma {:induction false} ExecLeaves(db: Db, cmds: seq<Command>)
    requires forall i :: 0 <= i < |cmds| ==> WindowKey(cmds[i].key)
    ensures OnlyWindowsDiffer(db, ExecDb(db, cmds))
    decreases cmds
  {
    if cmds != [] {
      EffectLeaves(db, cmds[0]);
      ExecLeaves(Effect(db, cmds[0]), cmds[1..]);
    }
  }

  lemma EffectLeaves(db: Db, cmd: Command)
    requires WindowKey(cmd.key)
    ensures OnlyWindowsDiffer(db, Effect(db, cmd))
  {
  }

  /** Recording touches window entries only, whatever the store holds and however late the clock reading is. */
  lemma RecordTouches(db: Db, g: Geometry, e: Applied)
    requires g.Valid()
    ensures OnlyWindowsDiffer(db, Recorded(db, g, e.channelId, e.success, e.latencyMs, e.at))
  {
    ExecLeaves(db, RecordCommands(g, e.channelId, e.success, e.latencyMs, e.at));
  }

  /** Before its horizon, a bucket reads as exactly its outcomes, whether it was ever written or not. */
  lemma StoredBucket(db: Db, g: Geometry, log: seq<Applied>, c: string, b: int)
    requires g.Valid() && Tracks(db, g, log) && db.now < Horizon(g, b)
    ensures
      var es := InBucket(log, g, c, b);
      && CountersHold(db.Fields(Bucket(c, b)), es)
      && db.Items(Latency(c, b)) == Rendered(NewestFirst(es, g.maxSamples))
      && db.Accepts(Bucket(c, b), true) && db.Accepts(Latency(c, b), false)
      && CounterHash(db.Fields(Bucket(c, b)))
  {
    hide Parse, Render;
    assert Cell(db, g, log, c, b);
  }

  lemma ReadingOfBucket(db: Db, g: Geometry, log: seq<Applied>, c: string, b: int)
    requires g.Valid() && Tracks(db, g, log) && db.now < Horizon(g, b)
    ensures
      var es := InBucket(log, g, c, b);
      ReadingAt(db, c, b) == Reading(Tally(es, true), Tally(es, false), AsNums(NewestFirst(es, g.maxSamples)))
  {
    hide Render;
    StoredBucket(db, g, log, c, b);
    CleanRendered(NewestFirst(InBucket(log, g, c, b), g.maxSamples));
    assert Parse("") == None;
  }

  /** The latencies of a list of buckets: first bucket first, newest first inside each. */
  function SamplesOver(log: seq<Applied>, g: Geometry, c: string, ids: seq<int>): seq<Num>
    requires g.Valid()
  {
    if ids == [] then []
    else
      var n := |ids| - 1;
      SamplesOver(log, g, c, ids[..n]) + AsNums(NewestFirst(InBucket(log, g, c, ids[n]), g.maxSamples))
  }

  function TallyOver(log: seq<Applied>, g: Geometry, c: string, ids: seq<int>, success: bool): nat
    requires g.Valid()
  {
    if ids == [] then 0
    else TallyOver(log, g, c, ids[..|ids| - 1], success) + Tally(InBucket(log, g, c, ids[|ids| - 1]), success)
  }

  lemma {:induction false} StatsOverLog(db: Db, g: Geometry, log: seq<Applied>, c: string, ids: seq<int>)
    requires g.Valid() && Tracks(db, g, log)
    requires forall b :: b in ids ==> db.now < Horizon(g, b)
    ensures StatsOver(db, c, ids)
         == ChannelStats(c, TallyOver(log, g, c, ids, true), TallyOver(log, g, c, ids, false),
           SamplesOver(log, g, c, ids))
    decreases |ids|
  {
    hide ReadingAt, Tally, InBucket, NewestFirst, AsNums, Horizon;
    if ids != [] {
      var n := |ids| - 1;
      StatsOverLog(db, g, log, c, ids[..n]);
      assert ids[n] in ids;
      ReadingOfBucket(db, g, log, c, ids[n]);
    }
  }

  lemma TallySnoc(es: seq<Applied>, e: Applied, success: bool)
    ensures Tally(es + [e], success) == Tally(es, success) + if e.success == success then 1 else 0
  {
    assert (es + [e])[..|es|] == es;
  }

  /** One more outcome adds one to the sum when its bucket is in the list, and nothing otherwise. */
  lemma {:induction false} TallyOverSnoc(log: seq<Applied>, e: Applied, g: Geometry, c: string, ids: seq<int>,
      success: bool)
    requires g.Valid()
    requires forall i, j :: 0 <= i < j < |ids| ==> ids[i] < ids[j]
    ensures TallyOver(log + [e], g, c, ids, success)
         == TallyOver(log, g, c, ids, success)
            + if e.channelId == c && g.Bucket(e.at) in ids && e.success == success then 1 else 0
    decreases |ids|
  {
    hide BucketIdAt, Tally;
    if ids != [] {
      var n := |ids| - 1;
      TallyOverSnoc(log, e, g, c, ids[..n], success);
      assert (log + [e])[..|log|] == log;
      TallySnoc(InBucket(log, g, c, ids[n]), e, success);
      assert g.Bucket(e.at) in ids <==> g.Bucket(e.at) in ids[..n] || g.Bucket(e.at) == ids[n];
    }
  }

  lemma {:induction false} TallyOverNothing(g: Geometry, c: string, ids: seq<int>, success: bool)
    requires g.Valid()
    ensures TallyOver([], g, c, ids, success) == 0
    decreases |ids|
  {
    if ids != [] {
      TallyOverNothing(g, c, ids[..|ids| - 1], success);
    }
  }

  /** Summing bucket by bucket counts each recent outcome once. */
  lemma {:induction false} TallyOverWindow(log: seq<Applied>, g: Geometry, c: string, now: int, success: bool)
    requires g.Valid()
    ensures TallyOver(log, g, c, Ids(g, now), success) == Tally(Recent(log, g, c, now), success)
  {
    hide TallyOver, WindowBucketIds, BucketIdAt, BucketCount;
    if log == [] {
      TallyOverNothing(g, c, Ids(g, now), success);
    } else {
      var before, e := log[..|log| - 1], log[|log| - 1];
      TallyOverWindow(before, g, c, now, success);
      IdsAreTheWindow(g, now);
      TallyOverSnoc(before, e, g, c, Ids(g, now), success);
      assert log == before + [e];
      TallySnoc(Recent(before, g, c, now), e, success);
    }
  }

  lemma {:induction false} TallySplits(es: seq<Applied>)
    ensures Tally(es, true) + Tally(es, false) == |es|
  {
    if es != [] {
      TallySplits(es[..|es| - 1]);
    }
  }

  /** The stats that the log says a read at `now` must return. */
  function LogStats(log: seq<Applied>, g: Geometry, c: string, now: int): ChannelStats
    requires g.Valid()
  {
    var recent := Recent(log, g, c, now);
    ChannelStats(c, Tally(recent, true), Tally(recent, false), SamplesOver(log, g, c, Ids(g, now)))
  }

  /**
    * The window refinement. A read with a clock reading `now` returns exactly
    * what the log holds for the window at `now`: no needed key has expired.
    */
  lemma WindowIsLog(db: Db, g: Geometry, log: seq<Applied>, c: string, now: int, lag: nat)
    requires g.Valid() && Timely(g, lag) && Tracks(db, g, log)
    requires db.now <= now + lag
    ensures StatsIn(db, g, c, now) == LogStats(log, g, c, now)
  {
    var ids := Ids(g, now);
    IdsAreTheWindow(g, now);
    forall b | b in ids ensures db.now < Horizon(g, b) {
      BucketStarts(g, now, lag, b);
    }
    StatsOverLog(db, g, log, c, ids);
    TallyOverWindow(log, g, c, now, true);
    TallyOverWindow(log, g, c, now, false);
  }
}
