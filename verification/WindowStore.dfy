/** The window counters in Redis: what is written for one outcome and how a window is read back. */
module WindowStore {
  import opened Types
  import opened Decimal
  import opened Keys
  import opened Redis
  import opened Window

  function OutcomeField(success: bool): Field {
    if success then Field.Success else Field.Failure
  }

  /** The transaction that stores one outcome. */
  function RecordCommands(g: Geometry, channelId: string, success: bool, latencyMs: int, now: int): seq<Command>
    requires g.Valid()
  {
    var counters := Bucket(channelId, g.Bucket(now));
    var samples := Latency(channelId, g.Bucket(now));
    var ttl := BucketTtlSeconds(g.windowMs);
    [ CmdHIncrBy(counters, OutcomeField(success), 1),
      CmdHIncrBy(counters, LatSum, latencyMs),
      CmdExpire(counters, ttl),
      CmdLPush(samples, Render(latencyMs)),
      CmdLTrim(samples, g.maxSamples - 1),
      CmdExpire(samples, ttl) ]
  }

  function Recorded(db: Db, g: Geometry, channelId: string, success: bool, latencyMs: int, now: int): Db
    requires g.Valid()
  {
    ExecDb(db, RecordCommands(g, channelId, success, latencyMs, now))
  }

  lemma ExecOne(db: Db, cmds: seq<Command>)
    requires cmds != []
    ensures ExecDb(db, cmds) == ExecDb(Effect(db, cmds[0]), cmds[1..])
  {
  }

  /** The integer in a field. A missing field holds zero. */
  function Stored(fields: map<Field, string>, f: Field): int {
    if f in fields && Parse(fields[f]).Some? then Parse(fields[f]).value else 0
  }

  function Bump(fields: map<Field, string>, f: Field, amount: int): map<Field, string> {
    fields[f := Render(Stored(fields, f) + amount)]
  }

  /** A hash that holds the counters of one bucket, and nothing that is not an integer. */
  predicate CounterHash(fields: map<Field, string>) {
    forall f :: f in fields ==> Parse(fields[f]).Some?
  }

  lemma BumpParses(fields: map<Field, string>, f: Field, amount: int)
    requires CounterHash(fields)
    ensures CounterHash(Bump(fields, f, amount))
    ensures Parse(Bump(fields, f, amount)[f]) == Some(Stored(fields, f) + amount)
  {
    ParseRender(Stored(fields, f) + amount);
  }

  function CountersAfter(fields: map<Field, string>, success: bool, latencyMs: int): map<Field, string> {
    Bump(Bump(fields, OutcomeField(success), 1), LatSum, latencyMs)
  }

  function SamplesAfter(items: seq<string>, latencyMs: int, maxSamples: nat): seq<string> {
    var pushed := [Render(latencyMs)] + items;
    if |pushed| <= maxSamples then pushed else pushed[..maxSamples]
  }

  lemma IncrShape(db: Db, k: Key, f: Field, amount: int)
    requires db.Accepts(k, true) && CounterHash(db.Fields(k))
    ensures db.HIncrBy(k, f, amount)
      == db.(data := db.data[k := Entry(Hash(Bump(db.Fields(k), f, amount)), db.Expiry(k))])
  {
    hide Parse, Render;
  }

  lemma CounterHalf(db: Db, k: Key, success: bool, latencyMs: int, ttl: int)
    requires db.Accepts(k, true) && CounterHash(db.Fields(k))
    ensures db.HIncrBy(k, OutcomeField(success), 1).HIncrBy(k, LatSum, latencyMs).Expire(k, ttl)
         == db.(data := db.data[k := Entry(Hash(CountersAfter(db.Fields(k), success, latencyMs)),
           Some(db.now + 1000 * ttl))])
  {
    hide CounterHash, Bump, Db.HIncrBy;
    var f := OutcomeField(success);
    IncrShape(db, k, f, 1);
    BumpParses(db.Fields(k), f, 1);
    var d1 := db.HIncrBy(k, f, 1);
    assert d1.Fields(k) == Bump(db.Fields(k), f, 1);
    IncrShape(d1, k, LatSum, latencyMs);
    var d2 := d1.HIncrBy(k, LatSum, latencyMs);
    assert d2.data[k].value == Hash(CountersAfter(db.Fields(k), success, latencyMs));
    assert d2.Live(k);
  }

  lemma SampleHalf(db: Db, k: Key, latencyMs: int, maxSamples: nat, ttl: int)
    requires maxSamples > 0 && db.Accepts(k, false)
    ensures db.LPush(k, Render(latencyMs)).LTrim(k, maxSamples - 1).Expire(k, ttl)
         == db.(data := db.data[k := Entry(List(SamplesAfter(db.Items(k), latencyMs, maxSamples)),
           Some(db.now + 1000 * ttl))])
  {
    var d1 := db.LPush(k, Render(latencyMs));
    assert d1.Items(k) == [Render(latencyMs)] + db.Items(k);
  }

  lemma RecordUnfolds(db: Db, g: Geometry, c: string, success: bool, latencyMs: int, now: int)
    requires g.Valid()
    ensures
      var bk, lk, ttl := Bucket(c, g.Bucket(now)), Latency(c, g.Bucket(now)), BucketTtlSeconds(g.windowMs);
      Recorded(db, g, c, success, latencyMs, now)
      == db.HIncrBy(bk, OutcomeField(success), 1).HIncrBy(bk, LatSum, latencyMs).Expire(bk, ttl)
           .LPush(lk, Render(latencyMs)).LTrim(lk, g.maxSamples - 1).Expire(lk, ttl)
  {
    hide Db.HIncrBy, Db.Expire, Db.LPush, Db.LTrim, Geometry.Bucket, Render;
    var cmds := RecordCommands(g, c, success, latencyMs, now);
    var d1 := Effect(db, cmds[0]);
    var d2 := Effect(d1, cmds[1]);
    var d3 := Effect(d2, cmds[2]);
    var d4 := Effect(d3, cmds[3]);
    var d5 := Effect(d4, cmds[4]);
    ExecOne(db, cmds);
    ExecOne(d1, cmds[1..]);
    ExecOne(d2, cmds[2..]);
    ExecOne(d3, cmds[3..]);
    ExecOne(d4, cmds[4..]);
    ExecOne(d5, cmds[5..]);
    assert cmds[1..][1..] == cmds[2..] && cmds[2..][1..] == cmds[3..] && cmds[3..][1..] == cmds[4..];
    assert cmds[4..][1..] == cmds[5..] && cmds[5..][1..] == [];
  }

  /** The whole new state after one outcome: two entries change, and each gets a full lifetime. */
  lemma RecordedShape(db: Db, g: Geometry, c: string, success: bool, latencyMs: int, now: int)
    requires g.Valid()
    requires db.Accepts(Bucket(c, g.Bucket(now)), true) && db.Accepts(Latency(c, g.Bucket(now)), false)
    requires CounterHash(db.Fields(Bucket(c, g.Bucket(now))))
    ensures
      var bk, lk := Bucket(c, g.Bucket(now)), Latency(c, g.Bucket(now));
      var until := Some(db.now + g.TtlMs());
      Recorded(db, g, c, success, latencyMs, now)
      == db.(data := db.data
           [bk := Entry(Hash(CountersAfter(db.Fields(bk), success, latencyMs)), until)]
           [lk := Entry(List(SamplesAfter(db.Items(lk), latencyMs, g.maxSamples)), until)])
  {
    var bk, lk, ttl := Bucket(c, g.Bucket(now)), Latency(c, g.Bucket(now)), BucketTtlSeconds(g.windowMs);
    hide Db.HIncrBy, Db.Expire, Db.LPush, Db.LTrim, Geometry.Bucket, Render, Recorded, CounterHash;
    hide CountersAfter, SamplesAfter, ExecDb, RecordCommands;
    RecordUnfolds(db, g, c, success, latencyMs, now);
    CounterHalf(db, bk, success, latencyMs, ttl);
    var counted := Entry(Hash(CountersAfter(db.Fields(bk), success, latencyMs)), Some(db.now + 1000 * ttl));
    var half := db.(data := db.data[bk := counted]);
    OtherKeyReads(db, bk, counted, lk);
    SampleHalf(half, lk, latencyMs, g.maxSamples, ttl);
  }

  lemma OtherKeyReads(db: Db, k: Key, entry: Entry, other: Key)
    requires k != other
    ensures
      var after := db.(data := db.data[k := entry]);
      after.Items(other) == db.Items(other) && after.Accepts(other, false) == db.Accepts(other, false)
  {
  }

  /** What the pipeline replies hold for one bucket. */
  datatype Reading = Reading(success: nat, failure: nat, samples: seq<Num>)

  function ToCount(raw: Option<string>): nat {
    if raw.None? || raw.value == "" then 0
    else match Parse(raw.value)
      case None => 0
      case Some(n) => if n > 0 then n else 0
  }

  /** A counter that is missing, damaged or negative counts nothing. */
  lemma DamagedCountsNothing(raw: Option<string>)
    ensures ToCount(raw) == if raw.Some? && Parse(raw.value).Some?
      && Parse(raw.value).value > 0 then Parse(raw.value).value else 0
  {
  }

  /** Keeps the values that are finite and not below zero. */
  function Clean(items: seq<string>): (samples: seq<Num>)
    ensures forall i :: 0 <= i < |samples| ==> samples[i].Finite? && samples[i].value >= 0.0
  {
    if items == [] then []
    else
      var v := ToNum(items[0]);
      (if v.Finite? && v.value >= 0.0 then [v] else []) + Clean(items[1..])
  }

  /** Decodes bucket `index` out of the replies: two replies for each bucket. */
  function ReadBucketReply(replies: seq<Reply>, index: nat): Reading {
    var counters := if 2 * index < |replies| && replies[2 * index].Bulk? then replies[2 * index].values else [];
    var raw := if 2 * index + 1 < |replies| && replies[2 * index + 1].Texts? then replies[2 * index + 1].items else [];
    Reading(
      ToCount(if |counters| > 0 then counters[0] else None),
      ToCount(if |counters| > 1 then counters[1] else None),
      Clean(raw))
  }

  /** What the store holds for one bucket, with no pipeline in between. */
  function ReadingAt(db: Db, c: string, id: int): Reading {
    var fields := db.Fields(Bucket(c, id));
    Reading(
      ToCount(if Field.Success in fields then Some(fields[Field.Success]) else None),
      ToCount(if Field.Failure in fields then Some(fields[Field.Failure]) else None),
      Clean(db.Items(Latency(c, id))))
  }

  function AddReading(s: ChannelStats, r: Reading): ChannelStats {
    ChannelStats(s.channelId, s.success + r.success, s.failure + r.failure, s.latencySamples + r.samples)
  }

  /** The sum over a list of buckets, first bucket first. */
  function StatsOver(db: Db, c: string, ids: seq<int>): ChannelStats {
    if ids == [] then EmptyStats(c)
    else AddReading(StatsOver(db, c, ids[..|ids| - 1]), ReadingAt(db, c, ids[|ids| - 1]))
  }

  /** The window of one channel as the store holds it. */
  function StatsIn(db: Db, g: Geometry, c: string, now: int): ChannelStats
    requires g.Valid()
  {
    StatsOver(db, c, Ids(g, now))
  }

  function BucketCommands(c: string, id: int): seq<Command> {
    [CmdHMGet(Bucket(c, id), [Field.Success, Field.Failure]), CmdLRange(Latency(c, id))]
  }

  function ChannelCommands(c: string, ids: seq<int>): (cmds: seq<Command>)
    ensures |cmds| == 2 * |ids|
  {
    if ids == [] then [] else ChannelCommands(c, ids[..|ids| - 1]) + BucketCommands(c, ids[|ids| - 1])
  }

  function ReadCommands(channelIds: seq<string>, ids: seq<int>): (cmds: seq<Command>)
    ensures |cmds| == 2 * (|channelIds| * |ids|)
  {
    if channelIds == [] then []
    else
      var n := |channelIds| - 1;
      assert |channelIds| * |ids| == n * |ids| + |ids|;
      ReadCommands(channelIds[..n], ids) + ChannelCommands(channelIds[n], ids)
  }

  lemma {:induction false} ChannelLayout(c: string, ids: seq<int>, j: nat)
    requires j < |ids|
    ensures ChannelCommands(c, ids)[2 * j] == CmdHMGet(Bucket(c, ids[j]), [Field.Success, Field.Failure])
    ensures ChannelCommands(c, ids)[2 * j + 1] == CmdLRange(Latency(c, ids[j]))
  {
    if j < |ids| - 1 {
      ChannelLayout(c, ids[..|ids| - 1], j);
    }
  }

  /** Where the two commands of channel `k` and bucket `j` sit in the flat pipeline. */
  lemma {:induction false} Layout(channelIds: seq<string>, ids: seq<int>, k: nat, j: nat)
    requires k < |channelIds| && j < |ids|
    ensures 0 <= k * |ids| + j < |channelIds| * |ids|
    ensures ReadCommands(channelIds, ids)[2 * (k * |ids| + j)]
      == CmdHMGet(Bucket(channelIds[k], ids[j]), [Field.Success, Field.Failure])
    ensures ReadCommands(channelIds, ids)[2 * (k * |ids| + j) + 1] == CmdLRange(Latency(channelIds[k], ids[j]))
    decreases |channelIds|
  {
    var n, m := |channelIds| - 1, |ids|;
    MulMono(k, n, m);
    assert |channelIds| * m == n * m + m;
    if k < n {
      Layout(channelIds[..n], ids, k, j);
    } else {
      ChannelLayout(channelIds[n], ids, j);
    }
  }

  lemma {:induction false} ChannelReads(c: string, ids: seq<int>)
    ensures forall i :: 0 <= i < |ChannelCommands(c, ids)| ==> ReadOnly(ChannelCommands(c, ids)[i])
  {
    if ids != [] {
      ChannelReads(c, ids[..|ids| - 1]);
    }
  }

  lemma {:induction false} AllReads(channelIds: seq<string>, ids: seq<int>)
    ensures forall i :: 0 <= i < |ReadCommands(channelIds, ids)| ==> ReadOnly(ReadCommands(channelIds, ids)[i])
  {
    if channelIds != [] {
      AllReads(channelIds[..|channelIds| - 1], ids);
      ChannelReads(channelIds[|channelIds| - 1], ids);
    }
  }

  /** Decoding reply pair `k * m + j` gives exactly what the store holds for channel `k` and bucket `j`. */
  lemma RepliesDecode(db: Db, channelIds: seq<string>, ids: seq<int>, k: nat, j: nat)
    requires k < |channelIds| && j < |ids|
    ensures ReadBucketReply(ExecReplies(db, ReadCommands(channelIds, ids)), k * |ids| + j)
         == ReadingAt(db, channelIds[k], ids[j])
  {
    var cmds := ReadCommands(channelIds, ids);
    Layout(channelIds, ids, k, j);
    AllReads(channelIds, ids);
    ReadsSeeOneState(db, cmds);
    var replies := ExecReplies(db, cmds);
    var at := 2 * (k * |ids| + j);
    assert replies[at] == Answer(db, cmds[at]) && replies[at + 1] == Answer(db, cmds[at + 1]);
  }

  /** The replies from `start` on hold the buckets `ids` of one channel. */
  ghost predicate Decodes(replies: seq<Reply>, start: nat, db: Db, c: string, ids: seq<int>) {
    forall j :: 0 <= j < |ids| ==> ReadBucketReply(replies, start + j) == ReadingAt(db, c, ids[j])
  }

  lemma DecodedAt(replies: seq<Reply>, start: nat, db: Db, c: string, ids: seq<int>, j: nat)
    requires Decodes(replies, start, db, c, ids) && j < |ids|
    ensures ReadBucketReply(replies, start + j) == ReadingAt(db, c, ids[j])
  {
  }

  lemma ChannelDecodes(db: Db, channelIds: seq<string>, ids: seq<int>, k: nat)
    requires k < |channelIds|
    ensures 0 <= k * |ids| && Decodes(ExecReplies(db, ReadCommands(channelIds, ids)), k * |ids|, db, channelIds[k], ids)
  {
    hide ReadBucketReply, ReadingAt, ExecReplies, ReadCommands;
    var replies := ExecReplies(db, ReadCommands(channelIds, ids));
    MulMono(0, k, |ids|);
    forall j | 0 <= j < |ids|
      ensures ReadBucketReply(replies, k * |ids| + j) == ReadingAt(db, channelIds[k], ids[j])
    {
      RepliesDecode(db, channelIds, ids, k, j);
    }
  }

  datatype BucketPoint = BucketPoint(bucketId: int, startMs: int, reading: Reading)

  /** The stats that a series of points adds up to. */
  function FoldPoints(c: string, points: seq<BucketPoint>): ChannelStats {
    if points == [] then EmptyStats(c)
    else AddReading(FoldPoints(c, points[..|points| - 1]), points[|points| - 1].reading)
  }

  lemma {:induction false} FoldIsStats(db: Db, c: string, ids: seq<int>, points: seq<BucketPoint>)
    requires |points| == |ids|
    requires forall i :: 0 <= i < |ids| ==> points[i].reading == ReadingAt(db, c, ids[i])
    ensures FoldPoints(c, points) == StatsOver(db, c, ids)
    decreases |ids|
  {
    if ids != [] {
      FoldIsStats(db, c, ids[..|ids| - 1], points[..|ids| - 1]);
    }
  }

  class Store {
    const server: Server
    const g: Geometry

    constructor (server: Server, g: Geometry)
      ensures this.server == server && this.g == g
    {
      this.server, this.g := server, g;
    }

    /** Adds one outcome to the bucket that holds `now`. */
    method Record(channelId: string, success: bool, latencyMs: int, now: int)
      requires g.Valid()
      modifies server
      ensures server.db == Recorded(old(server.db), g, channelId, success, latencyMs, now)
    {
      var id := g.Bucket(now);
      var counters, samples := Bucket(channelId, id), Latency(channelId, id);
      var ttl := BucketTtlSeconds(g.windowMs);
      var pipeline := [CmdHIncrBy(counters, if success then Field.Success else Field.Failure, 1)];
      pipeline := pipeline + [CmdHIncrBy(counters, LatSum, latencyMs)];
      pipeline := pipeline + [CmdExpire(counters, ttl)];
      pipeline := pipeline + [CmdLPush(samples, Render(latencyMs))];
      pipeline := pipeline + [CmdLTrim(samples, g.maxSamples - 1)];
      pipeline := pipeline + [CmdExpire(samples, ttl)];
      assert pipeline == RecordCommands(g, channelId, success, latencyMs, now);
      var _ := server.Exec(pipeline);
    }

    /** Sends the reads of every channel and bucket in one pipeline. */
    method Fetch(channelIds: seq<string>, ids: seq<int>) returns (replies: seq<Reply>)
      modifies server
      ensures server.db == old(server.db)
      ensures forall k :: 0 <= k < |channelIds| ==>
        0 <= k * |ids| && Decodes(replies, k * |ids|, server.db, channelIds[k], ids)
    {
      hide ReadBucketReply, ReadingAt, ExecDb, ExecReplies, Decodes;
      var pipeline := [];
      for k := 0 to |channelIds|
        invariant server.db == old(server.db)
        invariant pipeline == ReadCommands(channelIds[..k], ids)
      {
        ghost var before := pipeline;
        for j := 0 to |ids|
          invariant server.db == old(server.db)
          invariant pipeline == before + ChannelCommands(channelIds[k], ids[..j])
        {
          pipeline := pipeline + [CmdHMGet(Bucket(channelIds[k], ids[j]), [Field.Success, Field.Failure])];
          pipeline := pipeline + [CmdLRange(Latency(channelIds[k], ids[j]))];
          assert ids[..j + 1][..j] == ids[..j];
        }
        assert ids[..|ids|] == ids;
        assert channelIds[..k + 1][..k] == channelIds[..k];
      }
      assert channelIds[..|channelIds|] == channelIds;
      replies := server.Exec(pipeline);
      AllReads(channelIds, ids);
      ReadsSeeOneState(old(server.db), pipeline);
      forall k | 0 <= k < |channelIds|
        ensures 0 <= k * |ids| && Decodes(replies, k * |ids|, server.db, channelIds[k], ids)
      {
        ChannelDecodes(server.db, channelIds, ids, k);
      }
    }

    /** Adds up the buckets of one channel. */
    static method Accumulate(replies: seq<Reply>, start: nat, c: string, ids: seq<int>, ghost db: Db)
      returns (stats: ChannelStats)
      requires Decodes(replies, start, db, c, ids)
      ensures stats == StatsOver(db, c, ids)
    {
      hide ReadBucketReply, ReadingAt;
      stats := EmptyStats(c);
      var j := 0;
      while j < |ids|
        invariant 0 <= j <= |ids|
        invariant stats == StatsOver(db, c, ids[..j])
      {
        var bucket := ReadBucketReply(replies, start + j);
        stats := stats.(
          success := stats.success + bucket.success,
          failure := stats.failure + bucket.failure,
          latencySamples := stats.latencySamples + bucket.samples);
        assert ids[..j + 1][..j] == ids[..j];
        j := j + 1;
      }
      assert ids[..j] == ids;
    }

    /** Reads the window of every channel in one round trip. */
    method ReadMany(channelIds: seq<string>, now: int) returns (result: map<string, ChannelStats>)
      requires g.Valid()
      modifies server
      ensures server.db == old(server.db)
      ensures forall c :: c in result <==> c in channelIds
      ensures forall c :: c in channelIds ==> result[c] == StatsIn(server.db, g, c, now)
    {
      hide StatsOver, Decodes;
      result := map[];
      if channelIds == [] {
        return;
      }
      var ids := Ids(g, now);
      var replies := Fetch(channelIds, ids);
      var k := 0;
      while k < |channelIds|
        invariant 0 <= k <= |channelIds|
        invariant server.db == old(server.db)
        invariant forall c :: c in result <==> c in channelIds[..k]
        invariant forall c :: c in channelIds[..k] ==> result[c] == StatsIn(server.db, g, c, now)
      {
        var start := k * |ids|;
        var stats := Accumulate(replies, start, channelIds[k], ids, server.db);
        result := result[channelIds[k] := stats];
        assert channelIds[..k + 1] == channelIds[..k] + [channelIds[k]];
        k := k + 1;
      }
      assert channelIds[..k] == channelIds;
    }

    /** Reads the window of one channel. */
    method Read(channelId: string, now: int) returns (stats: ChannelStats)
      requires g.Valid()
      modifies server
      ensures server.db == old(server.db)
      ensures stats == StatsIn(server.db, g, channelId, now)
    {
      var all := ReadMany([channelId], now);
      assert channelId in [channelId];
      stats := all[channelId];
    }

    /** The buckets of one channel, oldest first. They add up to what `Read` returns. */
    method ReadBuckets(channelId: string, now: int) returns (points: seq<BucketPoint>)
      requires g.Valid()
      modifies server
      ensures server.db == old(server.db)
      ensures |points| == g.Count()
      ensures forall i :: 0 <= i < |points| ==>
        points[i] == BucketPoint(Ids(g, now)[i], Ids(g, now)[i] * g.bucketMs,
          ReadingAt(server.db, channelId, Ids(g, now)[i]))
      ensures FoldPoints(channelId, points) == StatsIn(server.db, g, channelId, now)
    {
      hide Decodes, ReadBucketReply, ReadingAt, StatsOver, FoldPoints;
      var ids := Ids(g, now);
      var replies := Fetch([channelId], ids);
      assert Decodes(replies, 0 * |ids|, server.db, [channelId][0], ids);
      points := [];
      for i := 0 to |ids|
        invariant server.db == old(server.db)
        invariant |points| == i
        invariant forall j :: 0 <= j < i ==>
          points[j] == BucketPoint(ids[j], ids[j] * g.bucketMs, ReadingAt(server.db, channelId, ids[j]))
      {
        DecodedAt(replies, 0, server.db, channelId, ids, i);
        points := points + [BucketPoint(ids[i], ids[i] * g.bucketMs, ReadBucketReply(replies, i))];
      }
      FoldIsStats(server.db, channelId, ids, points);
    }
  }
}
